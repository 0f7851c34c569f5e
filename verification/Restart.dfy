/** Rebuilding one object's tickets after a restart, from the determinants survivors return.
 */
module Restart {
  import opened Tickets

  /** processReceivedDet: record each determinant, in the order received. */
  function RestoreDets(c: Chare, dets: seq<Det>): Outcome<Chare> {
    if dets == [] then Done(c)
    else
      match RestoreDets(c, dets[..|dets| - 1])
      case Abort => Abort
      case Done(c') => var d := dets[|dets| - 1]; Verify(c', d.sender, d.sn, d.tn)
  }

  function MaxTn(tns: seq<nat>): nat {
    if tns == [] then 0
    else
      var m := MaxTn(tns[..|tns| - 1]);
      if tns[|tns| - 1] > m then tns[|tns| - 1] else m
  }

  /** processReceivedTN: with the last of the expected replies the object resumes at the
      largest ticket any survivor knows. */
  function OnTns(c: Chare, tns: seq<nat>, numPes: nat): Chare {
    var c' := c.(replies := c.replies + 1, received := c.received + tns);
    if c'.replies == numPes - 1 then
      c'.(replies := 0, received := [], restarting := false,
          tCount := if c'.received == [] then c.tCount else MaxTn(c'.received))
    else c'
  }

  function Tns(dets: seq<Det>): (tns: seq<nat>)
    ensures |tns| == |dets| && forall i :: 0 <= i < |dets| ==> tns[i] == dets[i].tn
  {
    seq(|dets|, i requires 0 <= i < |dets| => dets[i].tn)
  }

  /** initializeRestart on a checkpointed object. */
  function Begin(c: Chare): Chare {
    c.(replies := 0, received := [], restarting := true)
  }

  function OnReply(c: Chare, dets: seq<Det>, numPes: nat): Outcome<Chare> {
    RestoreDets(OnTns(c, Tns(dets), numPes), dets)
  }

  function OnReplies(c: Chare, lists: seq<seq<Det>>, numPes: nat): Outcome<Chare> {
    if lists == [] then Done(c)
    else
      match OnReplies(c, lists[..|lists| - 1], numPes)
      case Abort => Abort
      case Done(c') => OnReply(c', lists[|lists| - 1], numPes)
  }

  function Concat(lists: seq<seq<Det>>): seq<Det> {
    if lists == [] then [] else Concat(lists[..|lists| - 1]) + lists[|lists| - 1]
  }

  // ---------------------------------------------------------------- all replies as one list

  lemma RestoreAppend(c: Chare, dets: seq<Det>, d: Det)
    ensures RestoreDets(c, dets + [d]) ==
            match RestoreDets(c, dets)
            case Abort => Abort
            case Done(c') => Verify(c', d.sender, d.sn, d.tn)
  {
    assert (dets + [d])[..|dets|] == dets;
  }

  lemma {:induction false} RestoreConcat(c: Chare, a: seq<Det>, b: seq<Det>)
    ensures RestoreDets(c, a + b) ==
            match RestoreDets(c, a) case Abort => Abort case Done(c') => RestoreDets(c', b)
    decreases |b|
  {
    if b == [] {
      assert a + b == a;
    } else {
      var front, d := b[..|b| - 1], b[|b| - 1];
      RestoreConcat(c, a, front);
      assert a + b == (a + front) + [d];
      RestoreAppend(c, a + front, d);
    }
  }

  lemma RestoreAbortStays(c: Chare, dets: seq<Det>, i: nat)
    requires i <= |dets| && RestoreDets(c, dets[..i]).Abort?
    ensures RestoreDets(c, dets).Abort?
  {
    assert dets == dets[..i] + dets[i..];
    RestoreConcat(c, dets[..i], dets[i..]);
  }

  /** One more of the list; if that fails, the whole list does. */
  lemma RestoreNext(c: Chare, dets: seq<Det>, i: nat)
    requires i < |dets| && RestoreDets(c, dets[..i]).Done?
    ensures var r := Verify(RestoreDets(c, dets[..i]).value, dets[i].sender, dets[i].sn, dets[i].tn);
      RestoreDets(c, dets[..i + 1]) == r && (r.Abort? ==> RestoreDets(c, dets).Abort?)
  {
    assert dets[..i + 1] == dets[..i] + [dets[i]];
    RestoreAppend(c, dets[..i], dets[i]);
    if RestoreDets(c, dets[..i + 1]).Abort? { RestoreAbortStays(c, dets, i + 1); }
  }

  /** Recording determinants touches the table only. */
  lemma {:induction false} RestoreCommutes(c: Chare, k: Chare, dets: seq<Det>)
    requires k.rows == c.rows
    ensures RestoreDets(k, dets) == match RestoreDets(c, dets)
                                    case Abort => Abort
                                    case Done(c') => Done(k.(rows := c'.rows))
  {
    if dets != [] {
      RestoreCommutes(c, k, dets[..|dets| - 1]);
    }
  }

  lemma {:induction false} TnsConcat(a: seq<Det>, b: seq<Det>)
    ensures Tns(a + b) == Tns(a) + Tns(b)
  {
  }

  /** Handling the replies one after the other records all determinants in order, and only
      the last reply lets the object resume. */
  lemma {:induction false} RepliesAsOne(c: Chare, lists: seq<seq<Det>>, numPes: nat)
    requires |lists| < numPes && numPes >= 2
    ensures var all := Concat(lists);
      OnReplies(Begin(c), lists, numPes) ==
        match RestoreDets(c, all)
        case Abort => Abort
        case Done(c') =>
          Done(if |lists| < numPes - 1 then
                 c.(rows := c'.rows, restarting := true, replies := |lists|, received := Tns(all))
               else c.(rows := c'.rows, restarting := false, replies := 0, received := [],
                       tCount := if all == [] then c.tCount else MaxTn(Tns(all))))
  {
    if lists != [] {
      var front, last := lists[..|lists| - 1], lists[|lists| - 1];
      RepliesAsOne(c, front, numPes);
      RestoreConcat(c, Concat(front), last);
      TnsConcat(Concat(front), last);
      if RestoreDets(c, Concat(front)).Done? {
        var c1 := RestoreDets(c, Concat(front)).value;
        var k := OnReplies(Begin(c), front, numPes).value;
        RestoreCommutes(c1, OnTns(k, Tns(last), numPes), last);
      }
    }
  }

  /** Before the last reply every message for the object is held back, without a ticket and with no
      trace in the object; after the last one none is. */
  lemma HeldBackUntilLast(c: Chare, lists: seq<seq<Det>>, numPes: nat, env: Env)
    requires |lists| < numPes && OnReplies(Begin(c), lists, numPes).Done?
    ensures var c' := OnReplies(Begin(c), lists, numPes).value;
      && c'.tProcessed == c.tProcessed
      && (|lists| < numPes - 1 ==> c'.restarting && Filter(c', env) == Done(Ticketed(c', 0, false, Delay)))
      && (|lists| == numPes - 1 > 0 ==> !c'.restarting && (Filter(c', env).Done? ==> Filter(c', env).value.verdict != Delay))
  {
    if numPes >= 2 { RepliesAsOne(c, lists, numPes); }
  }

  // ---------------------------------------------------------------- what is restored

  /** The restored table holds the checkpoint's tickets and the given determinants, nothing else. */
  lemma {:induction false} RestoredTable(c0: Chare, dets: seq<Det>, o: ObjId)
    requires forall d :: d in dets ==> d.receiver == o && d.tn > 0
    requires RestoreDets(c0, dets).Done?
    ensures var c := RestoreDets(c0, dets).value;
      && Keeps(c0, c)
      && (forall d :: d in dets ==> TicketOf(c, d.sender, d.sn) == d.tn)
      && (forall s, n :: TicketOf(c, s, n) != 0 && TicketOf(c0, s, n) == 0 ==> Det(s, o, n, TicketOf(c, s, n)) in dets)
  {
    if dets != [] {
      var front, d := dets[..|dets| - 1], dets[|dets| - 1];
      RestoredTable(c0, front, o);
      var c1 := RestoreDets(c0, front).value;
      if TicketOf(c1, d.sender, d.sn) == 0 { RecordTicket(c1, d.sender, d.sn, d.tn); }
      assert forall x :: x in dets <==> x in front || x == d;
    }
  }

  /** What an object's log since the checkpoint looks like: new pairs, consecutive tickets. */
  ghost predicate Consecutive(c0: Chare, kept: seq<Det>, o: ObjId) {
    && (forall k :: 0 <= k < |kept| ==>
          && kept[k].receiver == o && kept[k].tn == c0.tCount + k + 1 && kept[k].sn > 0
          && TicketOf(c0, kept[k].sender, kept[k].sn) == 0)
    && (forall i, j :: 0 <= i < j < |kept| ==> kept[i].sender != kept[j].sender || kept[i].sn != kept[j].sn)
  }

  lemma {:induction false} MaxTnIs(tns: seq<nat>, m: nat)
    requires m in tns && forall i :: 0 <= i < |tns| ==> tns[i] <= m
    ensures MaxTn(tns) == m
  {
    var front := tns[..|tns| - 1];
    MaxTnBound(front, m);
    assert tns == front + [tns[|tns| - 1]];
    if m in front { MaxTnIs(front, m); }
  }

  lemma {:induction false} MaxTnBound(tns: seq<nat>, m: nat)
    requires forall i :: 0 <= i < |tns| ==> tns[i] <= m
    ensures MaxTn(tns) <= m
  {
    if tns != [] { MaxTnBound(tns[..|tns| - 1], m); }
  }

  lemma {:induction false} RestoredRows(c0: Chare, dets: seq<Det>)
    requires RowsOk(c0) && (forall d :: d in dets ==> d.sn > 0 && d.tn > 0) && RestoreDets(c0, dets).Done?
    ensures RowsOk(RestoreDets(c0, dets).value)
    ensures RestoreDets(c0, dets).value == c0.(rows := RestoreDets(c0, dets).value.rows)
  {
    if dets != [] { RestoredRows(c0, dets[..|dets| - 1]); }
  }

  /** Whatever order, and however often, a prefix of the log comes back in, the object ends
      with exactly the tickets of that prefix: contiguous from the checkpoint to the largest
      one returned, each with its old pair, and the next ticket handed out is beyond all of
      them. */
  lemma RestoredConsistent(c0: Chare, dets: seq<Det>, kept: seq<Det>, o: ObjId)
    requires Consistent(c0) && Consecutive(c0, kept, o)
    requires forall d :: d in dets <==> d in kept
    requires RestoreDets(c0, dets).Done?
    ensures var count := if dets == [] then c0.tCount else MaxTn(Tns(dets));
      var c := RestoreDets(c0, dets).value.(tCount := count, restarting := false);
      && count == c0.tCount + |kept|
      && Consistent(c)
      && (forall k :: 0 <= k < |kept| ==> TicketOf(c, kept[k].sender, kept[k].sn) == kept[k].tn)
  {
    var count := if dets == [] then c0.tCount else MaxTn(Tns(dets));
    RestoredCount(c0, dets, kept, o);
    RestoredTable(c0, dets, o);
    RestoredRows(c0, dets);
    var c1 := RestoreDets(c0, dets).value;
    var c := c1.(tCount := count, restarting := false);
    assert forall s, n :: TicketOf(c, s, n) == TicketOf(c1, s, n);
    hide RestoreDets, TicketOf, Held, MaxTn, Tns;
    assert forall k :: 0 <= k < |kept| ==> kept[k] in dets;
    RestoredState(c0, c, dets, kept, o);
  }

  lemma RestoredState(c0: Chare, c: Chare, dets: seq<Det>, kept: seq<Det>, o: ObjId)
    requires Consistent(c0) && Consecutive(c0, kept, o) && (forall d :: d in dets <==> d in kept)
    requires RowsOk(c) && Keeps(c0, c) && c.tCount == c0.tCount + |kept| && c.tProcessed <= c.tCount
    requires forall k :: 0 <= k < |kept| ==> TicketOf(c, kept[k].sender, kept[k].sn) == kept[k].tn
    requires forall s, n :: TicketOf(c, s, n) != 0 && TicketOf(c0, s, n) == 0 ==> Det(s, o, n, TicketOf(c, s, n)) in dets
    ensures Consistent(c)
  {
    RestoredHeld(c0, c, kept, o);
    hide Held, TicketOf, RowsOk;
    forall s, n
      ensures TicketOf(c, s, n) <= c.tCount
      ensures TicketOf(c, s, n) > c0.tCount ==>
        kept[TicketOf(c, s, n) - c0.tCount - 1] == Det(s, o, n, TicketOf(c, s, n))
    {
      RestoredTicket(c0, c, dets, kept, o, s, n);
    }
    RestoredInjective(c0, c, kept, o);
  }

  /** Tickets up to the checkpoint's count are the checkpoint's, the others the determinants'. */
  lemma RestoredHeld(c0: Chare, c: Chare, kept: seq<Det>, o: ObjId)
    requires Consistent(c0) && Consecutive(c0, kept, o) && Keeps(c0, c) && c.tCount == c0.tCount + |kept|
    requires forall k :: 0 <= k < |kept| ==> TicketOf(c, kept[k].sender, kept[k].sn) == kept[k].tn
    ensures forall tn :: 1 <= tn <= c.tCount ==> Held(c, tn)
  {
    forall tn | 1 <= tn <= c.tCount
      ensures Held(c, tn)
    {
      if tn <= c0.tCount {
        assert Held(c0, tn);
        var s, n :| TicketOf(c0, s, n) == tn;
        assert TicketOf(c, s, n) == tn;
      } else {
        var d := kept[tn - c0.tCount - 1];
        assert TicketOf(c, d.sender, d.sn) == tn;
      }
    }
  }

  lemma RestoredCount(c0: Chare, dets: seq<Det>, kept: seq<Det>, o: ObjId)
    requires Consecutive(c0, kept, o)
    requires forall d :: d in dets <==> d in kept
    ensures (if dets == [] then c0.tCount else MaxTn(Tns(dets))) == c0.tCount + |kept|
  {
    assert forall i :: 0 <= i < |dets| ==> dets[i] in kept;
    if kept != [] {
      var last := kept[|kept| - 1];
      assert last in dets;
      var i :| 0 <= i < |dets| && dets[i] == last;
      assert Tns(dets)[i] == last.tn;
      forall j | 0 <= j < |dets|
        ensures Tns(dets)[j] <= last.tn
      {
        assert dets[j] in kept;
      }
      MaxTnIs(Tns(dets), last.tn);
    }
  }

  lemma RestoredTicket(c0: Chare, c: Chare, dets: seq<Det>, kept: seq<Det>, o: ObjId, s: ObjId, n: nat)
    requires Consistent(c0) && Consecutive(c0, kept, o) && Keeps(c0, c)
    requires forall d :: d in dets <==> d in kept
    requires TicketOf(c, s, n) != 0 && TicketOf(c0, s, n) == 0 ==> Det(s, o, n, TicketOf(c, s, n)) in dets
    ensures TicketOf(c, s, n) <= c0.tCount + |kept|
    ensures TicketOf(c, s, n) > c0.tCount ==>
      kept[TicketOf(c, s, n) - c0.tCount - 1] == Det(s, o, n, TicketOf(c, s, n))
  {
    var t := TicketOf(c, s, n);
    if t != 0 {
      if TicketOf(c0, s, n) == 0 {
        var d := Det(s, o, n, t);
        assert d in kept;
        var k :| 0 <= k < |kept| && kept[k] == d;
        assert d.tn == c0.tCount + k + 1;
      } else {
        assert t == TicketOf(c0, s, n) <= c0.tCount;
      }
    }
  }

  lemma RestoredInjective(c0: Chare, c: Chare, kept: seq<Det>, o: ObjId)
    requires Consistent(c0) && Keeps(c0, c) && Consecutive(c0, kept, o)
    requires forall s, n :: TicketOf(c, s, n) > c0.tCount ==>
      && TicketOf(c, s, n) <= c0.tCount + |kept|
      && kept[TicketOf(c, s, n) - c0.tCount - 1] == Det(s, o, n, TicketOf(c, s, n))
    requires forall s, n :: 0 < TicketOf(c, s, n) <= c0.tCount ==> TicketOf(c0, s, n) != 0
    ensures Injective(c)
  {
  }

  // ---------------------------------------------------------------- when recording fails

  ghost predicate FirstOf(dets: seq<Det>, j: nat)
    requires j < |dets|
  {
    forall k :: 0 <= k < j ==> dets[k].sender != dets[j].sender
  }

  /** dets[i] has a smaller SN than the one its sender's row starts at: the checkpointed
      start, or the SN of that sender's first determinant in the list. */
  ghost predicate TooEarly(c0: Chare, dets: seq<Det>, i: nat)
    requires i < |dets|
  {
    if dets[i].sender in c0.rows then dets[i].sn < c0.rows[dets[i].sender].start
    else exists j :: 0 <= j < i && dets[j].sender == dets[i].sender && FirstOf(dets, j) && dets[i].sn < dets[j].sn
  }

  ghost predicate Misordered(c0: Chare, dets: seq<Det>) {
    exists i :: 0 <= i < |dets| && TooEarly(c0, dets, i)
  }

  /** No two determinants disagree about a pair, and none contradicts the checkpoint. */
  ghost predicate Agreeing(c0: Chare, dets: seq<Det>) {
    && (forall d :: d in dets ==> d.tn > 0 && (TicketOf(c0, d.sender, d.sn) == 0 || TicketOf(c0, d.sender, d.sn) == d.tn))
    && (forall d, d' :: d in dets && d' in dets && d.sender == d'.sender && d.sn == d'.sn ==> d.tn == d'.tn)
  }

  ghost predicate OpenedBy(dets: seq<Det>, s: ObjId, start: nat) {
    exists j :: 0 <= j < |dets| && dets[j].sender == s && FirstOf(dets, j) && start == dets[j].sn
  }

  /** The row a sender has after recording a list. */
  ghost predicate RowStarts(c0: Chare, dets: seq<Det>, c: Chare) {
    && (forall s :: s in c0.rows ==> s in c.rows && c.rows[s].start == c0.rows[s].start)
    && (forall j :: 0 <= j < |dets| ==> dets[j].sender in c.rows)
    && (forall s :: s in c.rows && s !in c0.rows ==> OpenedBy(dets, s, c.rows[s].start))
  }

  lemma StillOpenedBy(front: seq<Det>, d: Det, s: ObjId, start: nat)
    requires OpenedBy(front, s, start)
    ensures OpenedBy(front + [d], s, start)
  {
    var j :| 0 <= j < |front| && front[j].sender == s && FirstOf(front, j) && start == front[j].sn;
    var dets := front + [d];
    assert dets[j] == front[j] && FirstOf(dets, j);
  }

  /** Recording one determinant keeps the rows there are and opens at most its sender's. */
  lemma VerifyStarts(c: Chare, d: Det)
    requires Verify(c, d.sender, d.sn, d.tn).Done? && d.tn > 0
    ensures var c' := Verify(c, d.sender, d.sn, d.tn).value;
      && (forall s :: s in c.rows ==> s in c'.rows && c'.rows[s].start == c.rows[s].start)
      && d.sender in c'.rows
      && (forall s :: s in c'.rows && s !in c.rows ==> s == d.sender && c'.rows[s].start == d.sn)
  {
  }

  lemma OneMoreStart(c0: Chare, front: seq<Det>, d: Det, c1: Chare, c: Chare)
    requires RowStarts(c0, front, c1)
    requires forall s :: s in c1.rows ==> s in c.rows && c.rows[s].start == c1.rows[s].start
    requires d.sender in c.rows
    requires forall s :: s in c.rows && s !in c1.rows ==> s == d.sender && c.rows[s].start == d.sn
    ensures RowStarts(c0, front + [d], c)
  {
    hide OpenedBy;
    forall s | s in c.rows && s !in c0.rows
      ensures OpenedBy(front + [d], s, c.rows[s].start)
    {
      if s in c1.rows {
        StillOpenedBy(front, d, s, c1.rows[s].start);
      } else {
        assert forall k :: 0 <= k < |front| ==> front[k].sender in c1.rows;
        NewlyOpened(front, d);
      }
    }
  }

  lemma {:induction false} RestoredStarts(c0: Chare, dets: seq<Det>)
    requires RestoreDets(c0, dets).Done? && forall i :: 0 <= i < |dets| ==> dets[i].tn > 0
    ensures RowStarts(c0, dets, RestoreDets(c0, dets).value)
  {
    hide Verify, OpenedBy;
    if dets != [] {
      var front, d := dets[..|dets| - 1], dets[|dets| - 1];
      var c1, c := RestoreDets(c0, front).value, RestoreDets(c0, dets).value;
      assert c == Verify(c1, d.sender, d.sn, d.tn).value && dets == front + [d];
      hide RowStarts, RestoreDets;
      RestoredStarts(c0, front);
      VerifyStarts(c1, d);
      OneMoreStart(c0, front, d, c1, c);
    }
  }

  lemma NewlyOpened(front: seq<Det>, d: Det)
    requires forall k :: 0 <= k < |front| ==> front[k].sender != d.sender
    ensures OpenedBy(front + [d], d.sender, d.sn)
  {
    var dets := front + [d];
    assert dets[|front|] == d && FirstOf(dets, |front|);
  }

  /** Recording the returned determinants fails exactly when some determinant comes after
      one with a larger SN that opened its sender's row. */
  lemma {:induction false} RestoreAbortsWhen(c0: Chare, dets: seq<Det>, o: ObjId)
    requires Agreeing(c0, dets) && forall d :: d in dets ==> d.receiver == o
    ensures RestoreDets(c0, dets).Abort? <==> Misordered(c0, dets)
  {
    if dets != [] {
      var front, d := dets[..|dets| - 1], dets[|dets| - 1];
      assert forall x :: x in front ==> x in dets;
      RestoreAbortsWhen(c0, front, o);
      MisorderedFront(c0, dets);
      if RestoreDets(c0, front).Done? {
        var c1 := RestoreDets(c0, front).value;
        RestoredTable(c0, front, o);
        RestoredStarts(c0, front);
        LastTooEarly(c0, dets, c1);
        var t := TicketOf(c1, d.sender, d.sn);
        if t != 0 && TicketOf(c0, d.sender, d.sn) == 0 {
          var x := Det(d.sender, o, d.sn, t);
          assert x in front && x in dets;
        }
      }
    }
  }

  lemma MisorderedFront(c0: Chare, dets: seq<Det>)
    requires dets != []
    ensures Misordered(c0, dets) <==> Misordered(c0, dets[..|dets| - 1]) || TooEarly(c0, dets, |dets| - 1)
  {
    var front := dets[..|dets| - 1];
    forall i | 0 <= i < |front|
      ensures TooEarly(c0, front, i) <==> TooEarly(c0, dets, i)
    {
      assert forall j :: 0 <= j < i ==> front[j] == dets[j] && (FirstOf(front, j) <==> FirstOf(dets, j));
    }
  }

  lemma LastTooEarly(c0: Chare, dets: seq<Det>, c1: Chare)
    requires dets != [] && RowStarts(c0, dets[..|dets| - 1], c1)
    ensures var d := dets[|dets| - 1]; RowBelow(c1, d.sender, d.sn) <==> TooEarly(c0, dets, |dets| - 1)
  {
    var front, d := dets[..|dets| - 1], dets[|dets| - 1];
    var s := d.sender;
    if s !in c0.rows {
      if s in c1.rows {
        assert OpenedBy(front, s, c1.rows[s].start);
        var j :| 0 <= j < |front| && front[j].sender == s && FirstOf(front, j) && c1.rows[s].start == front[j].sn;
        assert dets[j] == front[j] && FirstOf(dets, j);
        forall i | 0 <= i < |front| && dets[i].sender == s && FirstOf(dets, i)
          ensures i == j
        {
        }
      } else {
        forall i | 0 <= i < |front|
          ensures dets[i].sender != s
        {
          assert front[i].sender in c1.rows;
        }
      }
    }
  }

  /** Two correct determinants of one sender, returned by different survivors: in this
      order the second trips the assertion, in the other both are recorded. */
  lemma ReplyOrderMatters()
    ensures var c0 := Chare(0, 0, map[], true, 0, []);
      var first, second := Det(7, 1, 3, 1), Det(7, 1, 5, 2);
      RestoreDets(c0, [second, first]).Abort? && RestoreDets(c0, [first, second]).Done?
  {
    var c0 := Chare(0, 0, map[], true, 0, []);
    var first, second := Det(7, 1, 3, 1), Det(7, 1, 5, 2);
    RestoreAppend(c0, [], second);
    RestoreAppend(c0, [second], first);
    RestoreAppend(c0, [], first);
    RestoreAppend(c0, [first], second);
    assert [second] + [first] == [second, first] && [first] + [second] == [first, second];
    assert [] + [second] == [second] && [] + [first] == [first];
  }
}
