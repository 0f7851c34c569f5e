/** Broadcasts to the elements of an array while elements are created and migrate: each
    processor counts the broadcasts it has received and keeps recent ones for latecomers.
 */
module Broadcast {
  import opened Seqs

  type Msg = int

  datatype Bc = Bc(bcastNo: nat, oldNo: nat, past: seq<Msg>)

  /** An element's counter and the broadcasts dispatched to it. */
  datatype Ear = Ear(no: nat, got: seq<Msg>)

  function Incoming(b: Bc, m: Msg): Bc {
    b.(bcastNo := b.bcastNo + 1, past := b.past + [m])
  }

  function Deliver(b: Bc, e: Ear, m: Msg): Ear {
    if e.no >= b.bcastNo then e else Ear(e.no + 1, e.got + [m])
  }

  /** The queue after k of its messages went from the front to the back. */
  function Rotate(q: seq<Msg>, k: nat): seq<Msg>
    decreases k
  {
    if k == 0 || q == [] then q else Rotate(q[1..] + [q[0]], k - 1)
  }

  /** Dispatching n messages off the front of the queue, each going to the back. */
  function Dispatch(b: Bc, q: seq<Msg>, e: Ear, n: nat): (seq<Msg>, Ear)
    decreases n
  {
    if n == 0 || q == [] then (q, e) else Dispatch(b, q[1..] + [q[0]], Deliver(b, e, q[0]), n - 1)
  }

  /** bringUpToDate, for any queue. */
  function CatchUp(b: Bc, e: Ear): (Bc, Ear) {
    if e.no >= b.bcastNo then (b, e)
    else
      var n := b.bcastNo - e.no;
      var q := if |b.past| > n then Rotate(b.past, |b.past| - n) else b.past;
      var (q', e') := Dispatch(b, q, e, n);
      (b.(past := q'), e')
  }

  function Clean(b: Bc): Bc {
    var n := |b.past| - (b.bcastNo - b.oldNo);
    b.(oldNo := b.bcastNo, past := if n > 0 then (if n <= |b.past| then b.past[n..] else []) else b.past)
  }

  // ---------------------------------------------------------------- the queue

  lemma TurnedOnce(q: seq<Msg>, k: nat)
    requires 0 < k <= |q|
    ensures var q' := q[1..] + [q[0]]; q'[k - 1..] + q'[..k - 1] == q[k..] + q[..k] && q'[..k - 1] == q[1..k]
  {
    var q' := q[1..] + [q[0]];
    assert q'[..k - 1] == q[1..k] && q'[k - 1..] == q[k..] + [q[0]];
    assert q[..k] == [q[0]] + q[1..k];
  }

  lemma {:induction false} RotateSplit(q: seq<Msg>, k: nat)
    requires k <= |q|
    ensures Rotate(q, k) == q[k..] + q[..k]
    decreases k
  {
    if k > 0 {
      var q' := q[1..] + [q[0]];
      RotateSplit(q', k - 1);
      TurnedOnce(q, k);
    }
  }

  lemma {:induction false} DispatchSplit(b: Bc, q: seq<Msg>, e: Ear, n: nat)
    requires n <= |q| && e.no + n == b.bcastNo
    ensures Dispatch(b, q, e, n) == (q[n..] + q[..n], Ear(b.bcastNo, e.got + q[..n]))
    decreases n
  {
    if n > 0 {
      var q' := q[1..] + [q[0]];
      DispatchSplit(b, q', Deliver(b, e, q[0]), n - 1);
      TurnedOnce(q, n);
      assert e.got + [q[0]] + q'[..n - 1] == e.got + q[..n];
    } else {
      assert q[n..] + q[..n] == q && e.got + q[..n] == e.got;
    }
  }

  /** While the missed broadcasts are still queued, catching up dispatches exactly those, oldest
      first, and leaves the queue as it was. */
  lemma CatchUpExact(b: Bc, e: Ear)
    requires e.no < b.bcastNo && b.bcastNo - e.no <= |b.past|
    ensures CatchUp(b, e) == (b, Ear(b.bcastNo, e.got + b.past[|b.past| - (b.bcastNo - e.no)..]))
  {
    var n, k := b.bcastNo - e.no, |b.past| - (b.bcastNo - e.no);
    RotateSplit(b.past, k);
    var q := b.past[k..] + b.past[..k];
    assert k == 0 ==> q == b.past;
    DispatchSplit(b, q, e, n);
    assert q[n..] == b.past[..k] && q[..n] == b.past[k..];
    assert b.past[..k] + b.past[k..] == b.past;
  }

  // ---------------------------------------------------------------- histories

  /** The queue holds the newest broadcasts received, in order, and at least those since the
      last cleaning. */
  ghost predicate PeOk(all: seq<Msg>, b: Bc) {
    && b.oldNo <= b.bcastNo <= |all|
    && b.bcastNo - b.oldNo <= |b.past| <= b.bcastNo
    && b.past == all[b.bcastNo - |b.past|..b.bcastNo]
  }

  /** Everything since the stamp, once each and in order. */
  ghost predicate EarOk(all: seq<Msg>, stamp: nat, e: Ear) {
    stamp <= e.no <= |all| && e.got == all[stamp..e.no]
  }

  lemma {:induction false} DispatchFirst(b: Bc, q: seq<Msg>, e: Ear, n: nat)
    requires q != [] && n > 0 && e.no + n <= b.bcastNo
    ensures var e' := Dispatch(b, q, e, n).1; |e'.got| > |e.got| && e'.got[..|e.got|] == e.got && e'.got[|e.got|] == q[0]
    decreases n
  {
    var e1 := Deliver(b, e, q[0]);
    if n > 1 {
      DispatchFirst(b, q[1..] + [q[0]], e1, n - 1);
      var e' := Dispatch(b, q[1..] + [q[0]], e1, n - 1).1;
      assert e'.got[..|e.got|] == e'.got[..|e1.got|][..|e.got|];
    }
  }

  /** The exact condition for catching up: an element gets what it missed if and only if its
      counter is within the retained history. */
  lemma CatchUpIff(all: seq<Msg>, b: Bc, stamp: nat, e: Ear)
    requires Distinct(all) && PeOk(all, b) && EarOk(all, stamp, e) && e.no < b.bcastNo
    ensures b.bcastNo - e.no <= |b.past| <==>
            CatchUp(b, e) == (b, Ear(b.bcastNo, all[stamp..b.bcastNo]))
  {
    var n := b.bcastNo - e.no;
    if n <= |b.past| {
      CatchUpExact(b, e);
      var k := |b.past| - n;
      assert all[stamp..e.no] + b.past[k..] == all[stamp..b.bcastNo];
    } else if b.past != [] {
      DispatchFirst(b, b.past, e, n);
      assert b.past[0] == all[b.bcastNo - |b.past|];
      assert all[stamp..b.bcastNo][e.no - stamp] == all[e.no];
    }
  }

  lemma CleanKeeps(all: seq<Msg>, b: Bc)
    requires PeOk(all, b)
    ensures PeOk(all, Clean(b)) && Clean(b).bcastNo == b.bcastNo
    ensures |Clean(b).past| == b.bcastNo - b.oldNo
  {
  }

  lemma IncomingKeeps(all: seq<Msg>, b: Bc)
    requires PeOk(all, b) && b.bcastNo < |all|
    ensures PeOk(all, Incoming(b, all[b.bcastNo]))
  {
  }

  /** Two cleanings with nothing received in between forget everything: an element behind at
      that moment can no longer catch up. */
  lemma TwoCleanings(all: seq<Msg>, b: Bc, stamp: nat, e: Ear)
    requires Distinct(all) && PeOk(all, b) && EarOk(all, stamp, e) && e.no < b.bcastNo
    ensures var c := Clean(Clean(b)); c.past == [] && CatchUp(c, e).1.got != all[stamp..b.bcastNo]
  {
  }

  // ---------------------------------------------------------------- the whole machine

  datatype Place = On(pe: nat) | Transit

  datatype Elt = Elt(place: Place, stamp: nat, ear: Ear)

  /** `all` is the serializer's order of broadcasts; channels deliver it in that order. */
  datatype Sys = Sys(all: seq<Msg>, pes: seq<Bc>, elts: seq<Elt>)

  datatype Event =
    | Emit(m: Msg)
    | Receive(pe: nat)
    | Create(stampedOn: nat)
    | Leave(elt: nat)
    | Arrive(elt: nat, pe: nat)
    | SpringClean(pe: nat)

  ghost predicate Enabled(s: Sys, v: Event) {
    match v
    case Emit(m) => m !in s.all
    case Receive(p) => p < |s.pes| && s.pes[p].bcastNo < |s.all|
    case Create(p) => p < |s.pes|
    case Leave(i) => i < |s.elts| && s.elts[i].place.On?
    case Arrive(i, p) => i < |s.elts| && s.elts[i].place.Transit? && p < |s.pes|
    case SpringClean(p) => p < |s.pes|
  }

  /** An element arrives while its counter is within the retained history. */
  ghost predicate InTime(s: Sys, v: Event)
    requires Enabled(s, v)
  {
    v.Arrive? ==> s.pes[v.pe].bcastNo - s.elts[v.elt].ear.no <= |s.pes[v.pe].past|
  }

  /** recvBroadcast at one element: dispatched if it is resident and has not heard it. */
  function Hear(b: Bc, pe: nat, m: Msg, e: Elt): Elt {
    if e.place == On(pe) then e.(ear := Deliver(b, e.ear, m)) else e
  }

  ghost function Step(s: Sys, v: Event): Sys
    requires Enabled(s, v)
  {
    match v
    case Emit(m) => s.(all := s.all + [m])
    case Receive(p) =>
      var m := s.all[s.pes[p].bcastNo];
      var b := Incoming(s.pes[p], m);
      s.(pes := s.pes[p := b], elts := seq(|s.elts|, i requires 0 <= i < |s.elts| => Hear(b, p, m, s.elts[i])))
    case Create(p) =>
      var no := s.pes[p].bcastNo;
      s.(elts := s.elts + [Elt(Transit, no, Ear(no, []))])
    case Leave(i) => s.(elts := s.elts[i := s.elts[i].(place := Transit)])
    case Arrive(i, p) =>
      var (b, ear) := CatchUp(s.pes[p], s.elts[i].ear);
      s.(pes := s.pes[p := b], elts := s.elts[i := s.elts[i].(place := On(p), ear := ear)])
    case SpringClean(p) => s.(pes := s.pes[p := Clean(s.pes[p])])
  }

  /** A resident element is never behind its processor. */
  ghost predicate EltOk(s: Sys, e: Elt) {
    && EarOk(s.all, e.stamp, e.ear)
    && (e.place.On? ==> e.place.pe < |s.pes| && s.pes[e.place.pe].bcastNo <= e.ear.no)
  }

  ghost predicate Good(s: Sys) {
    && Distinct(s.all)
    && (forall p :: 0 <= p < |s.pes| ==> PeOk(s.all, s.pes[p]))
    && (forall i :: 0 <= i < |s.elts| ==> EltOk(s, s.elts[i]))
  }

  lemma HearKeeps(s: Sys, p: nat, e: Elt)
    requires p < |s.pes| && PeOk(s.all, s.pes[p]) && s.pes[p].bcastNo < |s.all| && EltOk(s, e)
    ensures var m := s.all[s.pes[p].bcastNo];
      var b := Incoming(s.pes[p], m);
      EltOk(s.(pes := s.pes[p := b]), Hear(b, p, m, e))
  {
    var m := s.all[s.pes[p].bcastNo];
    if e.place == On(p) && e.ear.no == s.pes[p].bcastNo {
      assert s.all[e.stamp..e.ear.no] + [m] == s.all[e.stamp..e.ear.no + 1];
    }
  }

  lemma ArriveKeeps(all: seq<Msg>, b: Bc, stamp: nat, e: Ear)
    requires Distinct(all) && PeOk(all, b) && EarOk(all, stamp, e) && b.bcastNo - e.no <= |b.past|
    ensures var (b', e') := CatchUp(b, e); b' == b && EarOk(all, stamp, e') && e'.no >= b.bcastNo
  {
    if e.no < b.bcastNo { CatchUpIff(all, b, stamp, e); }
  }

  /** One that arrives too late is left with the wrong broadcasts, or behind. */
  lemma LateBreaks(s: Sys, i: nat, p: nat)
    requires Good(s) && Enabled(s, Arrive(i, p)) && !InTime(s, Arrive(i, p))
    ensures !EltOk(Step(s, Arrive(i, p)), Step(s, Arrive(i, p)).elts[i])
  {
    var b, elt := s.pes[p], s.elts[i];
    var e := elt.ear;
    assert PeOk(s.all, b) && EltOk(s, elt);
    var n := b.bcastNo - e.no;
    if b.past != [] {
      DispatchFirst(b, b.past, e, n);
      var e' := CatchUp(b, e).1;
      assert e'.got[|e.got|] == b.past[0] == s.all[b.bcastNo - |b.past|];
      assert e'.got[|e.got|] != s.all[elt.stamp + |e.got|];
    }
  }

  lemma EmitKeeps(s: Sys, m: Msg)
    requires Good(s) && m !in s.all
    ensures Good(s.(all := s.all + [m]))
  {
    forall p | 0 <= p < |s.pes|
      ensures PeOk(s.all + [m], s.pes[p])
    {
      assert PeOk(s.all, s.pes[p]);
    }
    forall i | 0 <= i < |s.elts|
      ensures EltOk(s.(all := s.all + [m]), s.elts[i])
    {
      assert EltOk(s, s.elts[i]);
    }
  }

  lemma StepGood(s: Sys, v: Event)
    requires Good(s) && Enabled(s, v) && InTime(s, v)
    ensures Good(Step(s, v))
  {
    assert v.Create? ==> EarOk(s.all, s.pes[v.stampedOn].bcastNo, Ear(s.pes[v.stampedOn].bcastNo, []));
    hide PeOk, EarOk, Distinct, CatchUp;
    match v
    case Emit(m) => EmitKeeps(s, m);
    case Receive(p) =>
      IncomingKeeps(s.all, s.pes[p]);
      forall i | 0 <= i < |s.elts|
        ensures EltOk(Step(s, v), Step(s, v).elts[i])
      {
        hide Hear, Incoming;
        HearKeeps(s, p, s.elts[i]);
      }
    case Create(p) =>
    case Leave(i) =>
    case Arrive(i, p) => ArriveKeeps(s.all, s.pes[p], s.elts[i].stamp, s.elts[i].ear);
    case SpringClean(p) => CleanKeeps(s.all, s.pes[p]);
  }

  ghost predicate Run(states: seq<Sys>, events: seq<Event>) {
    && |states| == |events| + 1
    && states[0].all == [] && states[0].elts == [] && (forall p :: 0 <= p < |states[0].pes| ==> states[0].pes[p] == Bc(0, 0, []))
    && forall i :: 0 <= i < |events| ==> Enabled(states[i], events[i]) && states[i + 1] == Step(states[i], events[i])
  }

  /** The exact condition for one step. */
  lemma StepGoodIff(s: Sys, v: Event)
    requires Good(s) && Enabled(s, v)
    ensures Good(Step(s, v)) <==> InTime(s, v)
  {
    if InTime(s, v) {
      StepGood(s, v);
    } else {
      LateBreaks(s, v.elt, v.pe);
      assert v.elt < |Step(s, v).elts|;
    }
  }

  ghost predicate GoodUpTo(states: seq<Sys>, n: nat)
    requires n < |states|
  {
    forall k :: 0 <= k <= n ==> Good(states[k])
  }

  ghost predicate InTimeUpTo(states: seq<Sys>, events: seq<Event>, n: nat)
    requires Run(states, events) && n < |states|
  {
    forall k :: 0 <= k < n ==> InTime(states[k], events[k])
  }

  /** The exact condition for a run: elements have what they should, and histories are intact, all
      along, if and only if no element ever arrived behind the retained history. */
  lemma {:induction false} RunGoodIff(states: seq<Sys>, events: seq<Event>, n: nat)
    requires Run(states, events) && n < |states|
    ensures GoodUpTo(states, n) <==> InTimeUpTo(states, events, n)
  {
    hide Step, Enabled;
    if n > 0 {
      RunGoodIff(states, events, n - 1);
      hide Good, InTime;
      if Good(states[n - 1]) { StepGoodIff(states[n - 1], events[n - 1]); }
      assert GoodUpTo(states, n) <==> GoodUpTo(states, n - 1) && Good(states[n]);
      assert InTimeUpTo(states, events, n) <==> InTimeUpTo(states, events, n - 1) && InTime(states[n - 1], events[n - 1]);
    }
  }

  /** In every such run each element, wherever it was created and however it moved, has been dispatched
      exactly the broadcasts from its stamp up to its counter, once each and in order, and a
      resident element has every broadcast its processor received; so once the processor has
      them all, the element has all since its stamp. */
  lemma BroadcastsReachElements(states: seq<Sys>, events: seq<Event>, n: nat, i: nat)
    requires Run(states, events) && n < |states| && InTimeUpTo(states, events, n) && i < |states[n].elts|
    ensures var (s, e) := (states[n], states[n].elts[i]);
      && e.stamp <= e.ear.no <= |s.all| && e.ear.got == s.all[e.stamp..e.ear.no]
      && (e.place.On? ==> e.place.pe < |s.pes| && s.pes[e.place.pe].bcastNo <= e.ear.no)
      && (e.place.On? && s.pes[e.place.pe].bcastNo == |s.all| ==> e.ear.got == s.all[e.stamp..])
  {
    RunGoodIff(states, events, n);
    assert Good(states[n]);
    hide Run;
    assert EltOk(states[n], states[n].elts[i]);
  }

  /** The retained history always reaches back to the last cleaning, so a counter no older than
      that is enough to catch up. */
  lemma RetainedSinceCleaning(states: seq<Sys>, events: seq<Event>, n: nat, p: nat, e: Ear)
    requires Run(states, events) && n < |states| && InTimeUpTo(states, events, n)
    requires p < |states[n].pes| && states[n].pes[p].oldNo <= e.no
    ensures states[n].pes[p].bcastNo - e.no <= |states[n].pes[p].past|
  {
    RunGoodIff(states, events, n);
    assert Good(states[n]);
    hide Run;
    assert PeOk(states[n].all, states[n].pes[p]);
  }

  lemma StampStays(s: Sys, v: Event, i: nat)
    requires Enabled(s, v) && i < |s.elts|
    ensures i < |Step(s, v).elts| && Step(s, v).elts[i].stamp == s.elts[i].stamp
  {
    hide CatchUp, Deliver;
  }

  lemma {:induction false} Stamped(states: seq<Sys>, events: seq<Event>, k: nat, n: nat)
    requires Run(states, events) && k < n < |states| && events[k].Create?
    ensures var i := |states[k].elts|;
      && events[k].stampedOn < |states[k].pes|
      && i < |states[n].elts| && states[n].elts[i].stamp == states[k].pes[events[k].stampedOn].bcastNo
  {
    assert Enabled(states[n - 1], events[n - 1]) && states[n] == Step(states[n - 1], events[n - 1]);
    if k < n - 1 {
      hide Step, Enabled;
      Stamped(states, events, k, n - 1);
      StampStays(states[n - 1], events[n - 1], |states[k].elts|);
    }
  }

  /** An element hears exactly the broadcasts that the processor stamping it had not received by then:
      none from before, and none of them missing once its processor has them all. */
  lemma NewcomerHears(states: seq<Sys>, events: seq<Event>, k: nat, n: nat)
    requires Run(states, events) && k < n < |states| && events[k].Create? && InTimeUpTo(states, events, n)
    ensures events[k].stampedOn < |states[k].pes| && |states[k].elts| < |states[n].elts|
    ensures var (s, e, from) := (states[n], states[n].elts[|states[k].elts|], states[k].pes[events[k].stampedOn].bcastNo);
      && from <= e.ear.no <= |s.all| && e.ear.got == s.all[from..e.ear.no]
      && (e.place.On? ==> e.place.pe < |s.pes|)
      && (e.place.On? && s.pes[e.place.pe].bcastNo == |s.all| ==> e.ear.got == s.all[from..])
  {
    Stamped(states, events, k, n);
    hide Run, InTimeUpTo;
    BroadcastsReachElements(states, events, n, |states[k].elts|);
  }
}
