/** The replayer as an object: the fields of the next item wanted, and two queues of items set
    aside.  `log` is the parsed log file and `sched` the scheduler's queue.
 */
module MessageReplay {
  import opened Seqs
  import opened Replay

  class CkMessageReplay {
    const me: nat
    const log: seq<Item>
    var counter: nat
    var nextPE: int
    var nextSize: int
    var nextEvent: int
    var nextEP: int
    var delayedMessages: seq<Item>
    var delayedTokens: seq<Item>
    var sched: seq<Item>

    ghost predicate LogSizes() {
      forall i :: 0 <= i < |log| && log[i].Env? ==> log[i].size > 0
    }

    /** The fields spell out the log entry wanted next, or the end marker. */
    ghost predicate Valid()
      reads this
    {
      && LogSizes() && counter > 0
      && if counter - 1 < |log| then
           match log[counter - 1]
           case Env(pe, size, event, ep) => nextPE == pe && nextSize == size && nextEvent == event && nextEP == ep
           case Token(serial) => nextPE == me && nextSize == -2 && nextEvent == serial
         else nextPE == -1 && nextSize == -1 && nextEvent == -1
    }

    ghost function Abs(): State
      requires Valid()
      reads this
    {
      State(counter - 1, delayedMessages, delayedTokens, sched)
    }

    constructor (me: nat, log: seq<Item>)
      requires forall i :: 0 <= i < |log| && log[i].Env? ==> log[i].size > 0
      ensures this.log == log && Valid() && Abs() == State(0, [], [], [])
    {
      this.me, this.log := me, log;
      counter, nextPE, nextSize, nextEvent, nextEP := 0, 0, 0, 0, 0;
      delayedMessages, delayedTokens, sched := [], [], [];
      new;
      GetNext();
    }

    method GetNext()
      requires LogSizes()
      modifies this`counter, this`nextPE, this`nextSize, this`nextEvent, this`nextEP
      ensures Valid() && counter == old(counter) + 1
    {
      if counter < |log| {
        match log[counter]
        case Env(pe, size, event, ep) => nextPE, nextSize, nextEvent, nextEP := pe, size, event, ep;
        case Token(serial) => nextPE, nextSize, nextEvent := me, -2, serial;
      } else {
        nextPE, nextSize, nextEvent := -1, -1, -1;
      }
      counter := counter + 1;
    }

    method IsNextEnv(env: Item) returns (r: bool)
      requires Valid() && env.Env?
      ensures r == Wanted(log, counter - 1, env)
    {
      if nextPE != env.pe { return false; }
      if nextEvent != env.event { return false; }
      if nextSize < 0 { return false; }
      if nextEP != env.ep { return false; }
      if nextSize != env.size { return false; }
      return true;
    }

    method IsNextToken(token: Item) returns (r: bool)
      requires Valid() && token.Token?
      ensures r == Wanted(log, counter - 1, token)
    {
      return nextPE == me && nextSize == -2 && nextEvent == token.serial;
    }

    method FlushMessages()
      requires Valid() && nextSize > 0 && forall i :: 0 <= i < |delayedMessages| ==> delayedMessages[i].Env?
      modifies this`delayedMessages, this`sched
      ensures Valid() && Abs() == Flush(log, old(Abs()))
    {
      ghost var q, x := delayedMessages, log[counter - 1];
      var len, i := |delayedMessages|, 0;
      while i < len
        invariant i <= len == |q| && delayedMessages == q[i..] + q[..i] && sched == old(sched) && x !in q[..i]
      {
        Turned(q, i);
        var env := delayedMessages[0];
        delayedMessages := delayedMessages[1..];
        var next := IsNextEnv(env);
        if next {
          FirstAt(q, x, i);
          sched := [env] + sched;
          return;
        }
        delayedMessages := delayedMessages + [env];
        i := i + 1;
      }
      assert q[..len] == q;
    }

    method FlushTokens()
      requires Valid() && nextSize == -2 && forall i :: 0 <= i < |delayedTokens| ==> delayedTokens[i].Token?
      modifies this`delayedTokens, this`sched
      ensures Valid() && Abs() == Flush(log, old(Abs()))
    {
      ghost var q, x := delayedTokens, log[counter - 1];
      var len, i := |delayedTokens|, 0;
      while i < len
        invariant i <= len == |q| && delayedTokens == q[i..] + q[..i] && sched == old(sched) && x !in q[..i]
      {
        Turned(q, i);
        var token := delayedTokens[0];
        delayedTokens := delayedTokens[1..];
        var next := IsNextToken(token);
        if next {
          FirstAt(q, x, i);
          sched := [token] + sched;
          return;
        }
        delayedTokens := delayedTokens + [token];
        i := i + 1;
      }
      assert q[..len] == q;
    }

    method FlushDelayed()
      requires Valid() && Sorted(Abs())
      modifies this`delayedMessages, this`delayedTokens, this`sched
      ensures Valid() && Abs() == Flush(log, old(Abs()))
    {
      if nextSize > 0 {
        FlushMessages();
      } else if nextSize == -2 {
        FlushTokens();
      }
    }

    method ProcessMessage(env: Item) returns (through: bool)
      requires Valid() && Sorted(Abs()) && env.Env?
      modifies this
      ensures Valid() && (Abs(), through) == Process(log, old(Abs()), env)
      ensures through <==> env.event == 0 || Wanted(log, old(counter) - 1, env)
      ensures env.event == 0 ==> Abs() == old(Abs())
    {
      if env.event == 0 { return true; }
      var next := IsNextEnv(env);
      if next {
        GetNext();
        FlushDelayed();
        return true;
      }
      delayedMessages := delayedMessages + [env];
      FlushDelayed();
      return false;
    }

    method ProcessToken(token: Item) returns (through: bool)
      requires Valid() && Sorted(Abs()) && token.Token?
      modifies this
      ensures Valid() && (Abs(), through) == Process(log, old(Abs()), token)
      ensures through <==> Wanted(log, old(counter) - 1, token)
    {
      var next := IsNextToken(token);
      if next {
        GetNext();
        FlushDelayed();
        return true;
      }
      delayedTokens := delayedTokens + [token];
      return false;
    }
  }

  lemma Turned(q: seq<Item>, i: nat)
    requires i < |q|
    ensures var r := q[i..] + q[..i];
      && r[0] == q[i] && r[1..] == q[i + 1..] + q[..i] && r[1..] + [r[0]] == q[i + 1..] + q[..i + 1]
      && q[..i + 1] == q[..i] + [q[i]]
  {
  }

  lemma {:induction false} FirstAt(q: seq<Item>, x: Item, i: nat)
    requires i < |q| && q[i] == x && x !in q[..i]
    ensures IndexOf(q, x) == i
  {
    if i > 0 {
      assert q[0] == q[..i][0];
      assert q[1..][..i - 1] == q[..i][1..];
      FirstAt(q[1..], x, i - 1);
    }
  }
}
