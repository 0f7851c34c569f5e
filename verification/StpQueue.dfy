/** The run queue as it is stored: a circular list through the threads' own `next` fields, with
    the queue head as one element, and the scheduler's routines on it.
 */
module StpQueue {
  import opened Stp

  class Thread {
    const id: Tid
    var next: Thread

    constructor (id: Tid)
      ensures this.id == id && next == this
    {
      this.id := id;
      next := this;
    }
  }

  ghost function Ids(ts: seq<Thread>): seq<Tid> {
    seq(|ts|, i requires 0 <= i < |ts| => ts[i].id)
  }

  lemma IdsMoved(ts: seq<Thread>, more: seq<Thread>)
    requires ts != [] && |more| <= 1
    ensures Ids(ts) != [] && Ids(ts)[0] == ts[0].id
    ensures Ids(ts[1..] + more) == Ids(ts)[1..] + if more == [] then [] else [more[0].id]
  {
  }

  class Queue {
    const head: Thread
    var tail: Thread
    ghost var contents: seq<Thread>

    /** From the head around the circle: the contents, and back to the head. */
    ghost predicate Valid()
      reads this, head, contents
    {
      && head !in contents
      && (forall i, j :: 0 <= i < j < |contents| ==> contents[i] != contents[j])
      && head.next == At(0)
      && (forall i :: 0 <= i < |contents| ==> contents[i].next == At(i + 1))
      && tail == if contents == [] then head else contents[|contents| - 1]
    }

    ghost function At(i: nat): Thread
      reads this
    {
      if i < |contents| then contents[i] else head
    }

    constructor ()
      ensures Valid() && contents == [] && fresh(head)
    {
      var h := new Thread(MAIN);
      head, tail := h, h;
      contents := [];
    }

    method Get() returns (t: Thread?)
      requires Valid()
      modifies this, head
      ensures Valid()
      ensures t == null <==> old(contents) == []
      ensures t == null ==> contents == []
      ensures t != null ==> t == old(contents)[0] && contents == old(contents)[1..] && t !in contents && t != head
    {
      t := head.next;
      head.next := t.next;
      if t.next == head {
        if t == head { return null; }
        tail := head;
      }
      contents := contents[1..];
    }

    method Put(t: Thread)
      requires Valid() && t != head && t !in contents
      modifies this, tail, t
      ensures Valid() && contents == old(contents) + [t]
    {
      tail.next := t;
      t.next := head;
      tail := t;
      contents := contents + [t];
    }
  }

  class Scheduler {
    const runq: Queue
    const main: Thread
    var curr: Thread
    ghost var live: set<Tid>

    ghost predicate Valid()
      reads this, runq, runq.head, runq.contents
    {
      && runq.Valid() && main.id == MAIN && main != runq.head && curr != runq.head
      && (curr.id == MAIN ==> curr == main)
      && curr !in runq.contents
      && (forall i :: 0 <= i < |runq.contents| && runq.contents[i].id == MAIN ==> runq.contents[i] == main)
    }

    ghost function Abs(): Sched
      reads this, runq
    {
      Sched(curr.id, Ids(runq.contents), live)
    }

    constructor ()
      ensures Valid() && Abs() == Sched(MAIN, [], {})
    {
      runq := new Queue();
      var m := new Thread(MAIN);
      main, curr := m, m;
      live := {};
    }

    method CreateThread(id: Tid) returns (t: Thread)
      requires Valid() && id != MAIN
      modifies this, runq, runq.head, runq.contents
      ensures Valid() && Abs() == Step(old(Abs()), Create(id)) && fresh(t)
    {
      t := new Thread(id);
      runq.Put(t);
      live := live + {id};
      assert Ids(runq.contents) == Ids(old(runq.contents)) + [id];
    }

    // Yielding and ending need a thread to switch to; that there always is one follows from Good.

    /** Takes the next thread, and puts the one that loses the processor behind the others unless
        it has ended. */
    method Switch(old_: Thread, again: bool)
      requires Valid() && runq.contents != [] && old_ == curr
      modifies this`curr, runq, runq.head, runq.contents, old_
      ensures Valid()
      ensures curr == old(runq.contents)[0]
      ensures runq.contents == old(runq.contents)[1..] + if again then [old_] else []
      ensures Ids(runq.contents) == Ids(old(runq.contents))[1..] + (if again then [old_.id] else []) && curr.id == Ids(old(runq.contents))[0]
    {
      IdsMoved(runq.contents, if again then [old_] else []);
      hide Ids;
      var newthread := runq.Get();
      curr := newthread;
      if again { runq.Put(old_); }
    }

    method YieldThread()
      requires Valid() && Good(Abs()) && curr.id != MAIN
      modifies this`curr, runq, runq.head, runq.contents, curr
      ensures Valid() && Good(Abs()) && old(Abs()).queue != [] && Abs() == Step(old(Abs()), Yield)
    {
      ghost var s := Abs();
      SomeoneWaits(s);
      StepGood(s, Yield);
      hide Good, Ids;
      Switch(curr, true);
    }

    method AbortThread()
      requires Valid() && Good(Abs()) && curr.id != MAIN
      modifies this, runq, runq.head, runq.contents, curr
      ensures Valid() && Good(Abs()) && old(Abs()).queue != [] && Abs() == Step(old(Abs()), Abort)
    {
      ghost var s := Abs();
      SomeoneWaits(s);
      StepGood(s, Abort);
      assert s.queue[1..] + [] == s.queue[1..];
      assert Step(s, Abort) == Sched(s.queue[0], s.queue[1..], s.live - {s.curr});
      hide Good, Ids, Step;
      live := live - {curr.id};
      Switch(curr, false);
    }

    /** One turn of the main thread's loop: `more` is false when it ends. */
    method LoopTurn() returns (more: bool)
      requires Valid() && curr.id == MAIN
      modifies this`curr, runq, runq.head, runq.contents, curr
      ensures Valid() && more == (old(runq.contents) != [])
      ensures Abs() == if more then Step(old(Abs()), Loop) else old(Abs())
    {
      if runq.contents != [] { IdsMoved(runq.contents, [main]); }
      hide Ids;
      var next := runq.Get();
      if next == null { return false; }
      curr := next;
      runq.Put(main);
      return true;
    }
  }
}
