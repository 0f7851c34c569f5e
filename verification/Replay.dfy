/** Record and replay: messages and thread tokens arrive in any order, and are let through in
    the order the log recorded; the others are set aside and released when their turn comes.
 */
module Replay {
  import opened Seqs

  /** A message's identifying fields, or the serial number of a thread-awakening token.  Messages
      with event 0 are not recorded. */
  datatype Item = Env(pe: nat, size: nat, event: nat, ep: nat) | Token(serial: nat)

  /** `pos` is how many log entries have been read past; `sched` is the scheduler's queue. */
  datatype State = State(pos: nat, msgs: seq<Item>, toks: seq<Item>, sched: seq<Item>)

  predicate Recorded(x: Item) {
    x.Token? || x.event != 0
  }

  predicate Wanted(log: seq<Item>, pos: nat, x: Item) {
    pos < |log| && log[pos] == x
  }

  function IndexOf(q: seq<Item>, x: Item): (i: nat)
    requires x in q
    ensures i < |q| && q[i] == x
  {
    if q[0] == x then 0 else 1 + IndexOf(q[1..], x)
  }

  /** What is left of a queue that was rotated up to the entry taken out. */
  function TakenOut(q: seq<Item>, x: Item): seq<Item>
    requires x in q
  {
    q[IndexOf(q, x) + 1..] + q[..IndexOf(q, x)]
  }

  /** flush: if the entry wanted next was set aside, it goes to the front of the scheduler. */
  function Flush(log: seq<Item>, s: State): State {
    if s.pos >= |log| then s
    else
      var x := log[s.pos];
      if x.Env? then
        if x in s.msgs then s.(msgs := TakenOut(s.msgs, x), sched := [x] + s.sched) else s
      else if x in s.toks then s.(toks := TakenOut(s.toks, x), sched := [x] + s.sched) else s
  }

  /** process: whether the item is let through. */
  function Process(log: seq<Item>, s: State, x: Item): (State, bool) {
    if x.Env? then
      if x.event == 0 then (s, true)
      else if Wanted(log, s.pos, x) then (Flush(log, s.(pos := s.pos + 1)), true)
      else (Flush(log, s.(msgs := s.msgs + [x])), false)
    else if Wanted(log, s.pos, x) then (Flush(log, s.(pos := s.pos + 1)), true)
    else (s.(toks := s.toks + [x]), false)
  }

  // ---------------------------------------------------------------- the replaying processor

  /** `arrived` and `passed` are histories. */
  datatype Sys = Sys(st: State, arrived: seq<Item>, passed: seq<Item>)

  /** An arrival enters the scheduler anywhere; the scheduler picks anything. */
  datatype Event = Arrive(item: Item, at: nat) | Pick(i: nat)

  /** Recorded items have unique keys. */
  ghost predicate Enabled(s: Sys, e: Event) {
    match e
    case Arrive(x, at) => at <= |s.st.sched| && (Recorded(x) ==> x !in s.arrived)
    case Pick(i) => i < |s.st.sched|
  }

  ghost function Step(log: seq<Item>, s: Sys, e: Event): Sys
    requires Enabled(s, e)
  {
    match e
    case Arrive(x, at) =>
      var q := s.st.sched;
      Sys(s.st.(sched := q[..at] + [x] + q[at..]), s.arrived + [x], s.passed)
    case Pick(i) =>
      var x := s.st.sched[i];
      var (st, through) := Process(log, s.st.(sched := Drop(s.st.sched, i)), x);
      Sys(st, s.arrived, if through then s.passed + [x] else s.passed)
  }

  ghost predicate LogOk(log: seq<Item>) {
    Distinct(log) && forall i :: 0 <= i < |log| ==> Recorded(log[i])
  }

  /** The recorded items among those let through. */
  ghost function Replayed(passed: seq<Item>): seq<Item> {
    if passed == [] then []
    else Replayed(passed[..|passed| - 1]) + if Recorded(passed[|passed| - 1]) then [passed[|passed| - 1]] else []
  }

  ghost function Held(st: State, x: Item): nat {
    Occ(st.msgs, x) + Occ(st.toks, x) + Occ(st.sched, x)
  }

  /** Nothing wanted now is set aside. */
  ghost predicate NotDelayed(log: seq<Item>, st: State) {
    st.pos < |log| ==> log[st.pos] !in st.msgs && log[st.pos] !in st.toks
  }

  ghost predicate Sorted(st: State) {
    && (forall i :: 0 <= i < |st.msgs| ==> st.msgs[i].Env?)
    && (forall i :: 0 <= i < |st.toks| ==> st.toks[i].Token?)
  }

  /** Nothing is lost, and recorded items are unique. */
  ghost predicate Kept(s: Sys, x: Item) {
    && Occ(s.arrived, x) == Occ(s.passed, x) + Held(s.st, x)
    && (Recorded(x) ==> Occ(s.arrived, x) <= 1)
  }

  ghost predicate Good(log: seq<Item>, s: Sys) {
    && s.st.pos <= |log| && Replayed(s.passed) == log[..s.st.pos]
    && NotDelayed(log, s.st) && Sorted(s.st)
    && forall x :: Kept(s, x)
  }

  // ---------------------------------------------------------------- flushing

  lemma TakenOutOcc(q: seq<Item>, x: Item, y: Item)
    requires x in q
    ensures Occ(TakenOut(q, x), y) + (if x == y then 1 else 0) == Occ(q, y)
  {
    var i := IndexOf(q, x);
    OccSplit(q, i, y);
    OccConcat(q[i + 1..], q[..i], y);
  }

  lemma FlushHolds(log: seq<Item>, st: State, y: Item)
    ensures Held(Flush(log, st), y) == Held(st, y)
  {
    if st.pos < |log| {
      var x := log[st.pos];
      if x in st.msgs { TakenOutOcc(st.msgs, x, y); }
      if x in st.toks { TakenOutOcc(st.toks, x, y); }
      OccConcat([x], st.sched, y);
      OccOne(x, y);
    }
    hide Occ, TakenOut;
  }

  /** After a flush nothing wanted is set aside, if it was held only once. */
  lemma FlushFrees(log: seq<Item>, st: State)
    requires Sorted(st) && (st.pos < |log| ==> Held(st, log[st.pos]) <= 1)
    ensures NotDelayed(log, Flush(log, st)) && Sorted(Flush(log, st)) && Flush(log, st).pos == st.pos
    ensures Flush(log, st).sched == (if NotDelayed(log, st) then [] else [log[st.pos]]) + st.sched
    ensures NotDelayed(log, st) ==> Flush(log, st) == st
  {
    if st.pos < |log| {
      var x := log[st.pos];
      if x in st.msgs {
        TakenOutOcc(st.msgs, x, x);
        OccIn(TakenOut(st.msgs, x), x);
      }
      if x in st.toks {
        TakenOutOcc(st.toks, x, x);
        OccIn(TakenOut(st.toks, x), x);
      }
    }
    hide Occ;
  }

  // ---------------------------------------------------------------- steps

  lemma ProcessHolds(log: seq<Item>, st: State, x: Item, y: Item)
    ensures var (st', through) := Process(log, st, x);
      Held(st', y) + (if through && x == y then 1 else 0) == Held(st, y) + if x == y then 1 else 0
  {
    OccConcat(st.msgs, [x], y);
    OccConcat(st.toks, [x], y);
    OccOne(x, y);
    hide Occ, Flush;
    if x.Env? && !Wanted(log, st.pos, x) { FlushHolds(log, st.(msgs := st.msgs + [x]), y); }
    FlushHolds(log, st.(pos := st.pos + 1), y);
  }

  lemma ArriveKept(log: seq<Item>, s: Sys, x: Item, at: nat, y: Item)
    requires Enabled(s, Arrive(x, at)) && Kept(s, y)
    ensures Kept(Step(log, s, Arrive(x, at)), y)
  {
    hide Occ;
    var q := s.st.sched;
    assert q == q[..at] + q[at..];
    OccConcat(q[..at], q[at..], y);
    OccConcat(q[..at] + [x], q[at..], y);
    OccConcat(q[..at], [x], y);
    OccConcat(s.arrived, [x], y);
    OccOne(x, y);
    OccIn(s.arrived, x);
  }

  lemma PickKept(log: seq<Item>, s: Sys, i: nat, y: Item)
    requires Enabled(s, Pick(i)) && Kept(s, y)
    ensures Kept(Step(log, s, Pick(i)), y)
  {
    hide Occ, Process;
    var x := s.st.sched[i];
    OccSplit(s.st.sched, i, y);
    ProcessHolds(log, s.st.(sched := Drop(s.st.sched, i)), x, y);
    OccConcat(s.passed, [x], y);
    OccOne(x, y);
  }

  lemma ReplayedAppend(passed: seq<Item>, x: Item)
    ensures Replayed(passed + [x]) == Replayed(passed) + if Recorded(x) then [x] else []
  {
    assert (passed + [x])[..|passed|] == passed;
  }

  /** Held at most once, since keys are unique. */
  lemma HeldOnce(s: Sys, x: Item)
    requires Kept(s, x) && Recorded(x)
    ensures Held(s.st, x) <= 1
  {
  }

  lemma PickWanted(log: seq<Item>, s: Sys, i: nat)
    requires LogOk(log) && Good(log, s) && i < |s.st.sched| && Recorded(s.st.sched[i]) && Wanted(log, s.st.pos, s.st.sched[i])
    ensures var s' := Step(log, s, Pick(i));
      && s'.st.pos == s.st.pos + 1 && Replayed(s'.passed) == log[..s'.st.pos]
      && NotDelayed(log, s'.st) && Sorted(s'.st) && |s'.st.sched| <= |s.st.sched|
  {
    var x, q := s.st.sched[i], Drop(s.st.sched, i);
    var st := s.st.(sched := q, pos := s.st.pos + 1);
    ReplayedAppend(s.passed, x);
    assert log[..s.st.pos] + [x] == log[..s.st.pos + 1];
    if st.pos < |log| {
      var y := log[st.pos];
      assert Kept(s, y);
      OccSplit(s.st.sched, i, y);
      hide Occ;
      HeldOnce(s, y);
    }
    FlushFrees(log, st);
  }

  lemma PickOther(log: seq<Item>, s: Sys, i: nat)
    requires LogOk(log) && Good(log, s) && i < |s.st.sched| && !(Recorded(s.st.sched[i]) && Wanted(log, s.st.pos, s.st.sched[i]))
    ensures var s' := Step(log, s, Pick(i));
      && s'.st.pos == s.st.pos && Replayed(s'.passed) == log[..s'.st.pos]
      && NotDelayed(log, s'.st) && Sorted(s'.st) && |s'.st.sched| < |s.st.sched|
  {
    var x := s.st.sched[i];
    ReplayedAppend(s.passed, x);
    if Recorded(x) && x.Env? {
      var st := s.st.(sched := Drop(s.st.sched, i), msgs := s.st.msgs + [x]);
      assert Flush(log, st) == st;
    }
  }

  /** An unrecorded item is let through at once, and nothing else happens. */
  lemma PickUnrecorded(log: seq<Item>, s: Sys, i: nat)
    requires i < |s.st.sched| && !Recorded(s.st.sched[i])
    ensures Step(log, s, Pick(i)) ==
      Sys(State(s.st.pos, s.st.msgs, s.st.toks, Drop(s.st.sched, i)), s.arrived, s.passed + [s.st.sched[i]])
  {
  }

  /** A recorded item is let through if and only if it is the entry wanted; otherwise it joins the
      items of its kind that are set aside. */
  lemma PickRecorded(log: seq<Item>, s: Sys, i: nat)
    requires LogOk(log) && Good(log, s) && i < |s.st.sched| && Recorded(s.st.sched[i])
    ensures var (x, s') := (s.st.sched[i], Step(log, s, Pick(i)));
      && s'.passed == (if Wanted(log, s.st.pos, x) then s.passed + [x] else s.passed)
      && (!Wanted(log, s.st.pos, x) ==>
            && s'.st.sched == Drop(s.st.sched, i)
            && s'.st.msgs == s.st.msgs + (if x.Env? then [x] else [])
            && s'.st.toks == s.st.toks + (if x.Token? then [x] else []))
  {
    var x := s.st.sched[i];
    if x.Env? && !Wanted(log, s.st.pos, x) {
      var st := s.st.(sched := Drop(s.st.sched, i), msgs := s.st.msgs + [x]);
      assert Flush(log, st) == st;
    }
  }

  /** Only recorded items are set aside. */
  ghost predicate AsideRecorded(st: State) {
    forall x :: x in st.msgs || x in st.toks ==> Recorded(x)
  }

  lemma FlushAside(log: seq<Item>, st: State)
    requires AsideRecorded(st)
    ensures AsideRecorded(Flush(log, st))
  {
  }

  lemma StepAside(log: seq<Item>, s: Sys, e: Event)
    requires AsideRecorded(s.st) && Enabled(s, e)
    ensures AsideRecorded(Step(log, s, e).st)
  {
    hide Flush;
    if e.Pick? {
      var x, st := s.st.sched[e.i], s.st.(sched := Drop(s.st.sched, e.i));
      if Recorded(x) {
        FlushAside(log, st.(pos := st.pos + 1));
        FlushAside(log, st.(msgs := st.msgs + [x]));
      }
    }
  }

  lemma StepGood(log: seq<Item>, s: Sys, e: Event)
    requires LogOk(log) && Good(log, s) && Enabled(s, e)
    ensures Good(log, Step(log, s, e))
  {
    forall x
      ensures Kept(Step(log, s, e), x)
    {
      if e.Pick? { PickKept(log, s, e.i, x); } else { ArriveKept(log, s, e.item, e.at, x); }
    }
    hide Kept, Replayed, Process;
    if e.Pick? {
      if Recorded(s.st.sched[e.i]) && Wanted(log, s.st.pos, s.st.sched[e.i]) { PickWanted(log, s, e.i); } else { PickOther(log, s, e.i); }
    }
  }

  // ---------------------------------------------------------------- runs

  ghost predicate Run(log: seq<Item>, states: seq<Sys>, events: seq<Event>) {
    && LogOk(log) && |states| == |events| + 1 && states[0] == Sys(State(0, [], [], []), [], [])
    && forall i :: 0 <= i < |events| ==> Enabled(states[i], events[i]) && states[i + 1] == Step(log, states[i], events[i])
  }

  lemma {:induction false} RunGood(log: seq<Item>, states: seq<Sys>, events: seq<Event>, n: nat)
    requires Run(log, states, events) && n < |states|
    ensures Good(log, states[n])
  {
    hide Step, Enabled, LogOk;
    if n > 0 {
      RunGood(log, states, events, n - 1);
      hide Good;
      StepGood(log, states[n - 1], events[n - 1]);
    }
  }

  /** What is let through is always a prefix of the log, and no arrival is lost: each is let
      through, set aside, or in the scheduler; and what is wanted next is never set aside. */
  lemma ReplayFollowsLog(log: seq<Item>, states: seq<Sys>, events: seq<Event>, n: nat)
    requires Run(log, states, events) && n < |states|
    ensures var s := states[n];
      && s.st.pos <= |log| && Replayed(s.passed) == log[..s.st.pos] && NotDelayed(log, s.st)
      && forall x :: Occ(s.arrived, x) == Occ(s.passed, x) + Occ(s.st.msgs, x) + Occ(s.st.toks, x) + Occ(s.st.sched, x)
  {
    RunGood(log, states, events, n);
    hide Run;
    var s := states[n];
    forall x
      ensures Occ(s.arrived, x) == Occ(s.passed, x) + Occ(s.st.msgs, x) + Occ(s.st.toks, x) + Occ(s.st.sched, x)
    {
      assert Kept(s, x);
    }
  }

  lemma {:induction false} RunAside(log: seq<Item>, states: seq<Sys>, events: seq<Event>, n: nat)
    requires Run(log, states, events) && n < |states|
    ensures AsideRecorded(states[n].st)
  {
    hide Step, Enabled, LogOk;
    if n > 0 {
      RunAside(log, states, events, n - 1);
      StepAside(log, states[n - 1], events[n - 1]);
    }
  }

  /** In every run an unrecorded item is let through or still in the scheduler, never set aside; so
      with the scheduler empty every one that arrived, as often as it arrived, was let through. */
  lemma UnrecordedPass(log: seq<Item>, states: seq<Sys>, events: seq<Event>, n: nat, x: Item)
    requires Run(log, states, events) && n < |states| && !Recorded(x)
    ensures x !in states[n].st.msgs && x !in states[n].st.toks
    ensures Occ(states[n].arrived, x) == Occ(states[n].passed, x) + Occ(states[n].st.sched, x)
    ensures states[n].st.sched == [] ==> Occ(states[n].passed, x) == Occ(states[n].arrived, x)
  {
    RunAside(log, states, events, n);
    RunGood(log, states, events, n);
    assert Kept(states[n], x);
    OccIn(states[n].st.msgs, x);
    OccIn(states[n].st.toks, x);
  }

  ghost function Measure(log: seq<Item>, s: Sys): int {
    |log| - s.st.pos + |s.st.sched|
  }

  lemma {:induction false} ReplayedOcc(passed: seq<Item>, x: Item)
    requires Recorded(x)
    ensures Occ(Replayed(passed), x) == Occ(passed, x)
  {
    if passed != [] {
      var p, y := passed[..|passed| - 1], passed[|passed| - 1];
      ReplayedOcc(p, x);
      OccConcat(Replayed(p), if Recorded(y) then [y] else [], x);
      OccOne(y, x);
    }
  }

  /** Progress: every pick brings the replay nearer its end, whatever the scheduler picks. */
  lemma PickProgress(log: seq<Item>, states: seq<Sys>, events: seq<Event>, n: nat)
    requires Run(log, states, events) && n < |events| && events[n].Pick?
    ensures 0 <= Measure(log, states[n + 1]) < Measure(log, states[n])
  {
    var s, i := states[n], events[n].i;
    assert Enabled(s, events[n]) && states[n + 1] == Step(log, s, Pick(i));
    RunGood(log, states, events, n);
    RunGood(log, states, events, n + 1);
    hide Run, Step, NotDelayed, Kept, Replayed;
    if Recorded(s.st.sched[i]) && Wanted(log, s.st.pos, s.st.sched[i]) { PickWantedMeasure(log, s, i); } else { PickOther(log, s, i); }
  }

  /** When there is nothing left to pick although everything logged has arrived, the whole log
      has been replayed. */
  lemma ReplayCompletes(log: seq<Item>, states: seq<Sys>, events: seq<Event>, n: nat)
    requires Run(log, states, events) && n < |states| && states[n].st.sched == []
    requires forall i :: 0 <= i < |log| ==> log[i] in states[n].arrived
    ensures Replayed(states[n].passed) == log
  {
    RunGood(log, states, events, n);
    hide Run, Kept, Replayed, NotDelayed;
    if states[n].st.pos < |log| { Missing(log, states[n]); }
    assert log[..|log|] == log;
  }

  lemma PickWantedMeasure(log: seq<Item>, s: Sys, i: nat)
    requires LogOk(log) && Good(log, s) && i < |s.st.sched| && Recorded(s.st.sched[i]) && Wanted(log, s.st.pos, s.st.sched[i])
    ensures Measure(log, Step(log, s, Pick(i))) < Measure(log, s)
  {
  }

  /** While something is wanted that has arrived, the scheduler has it. */
  lemma Missing(log: seq<Item>, s: Sys)
    requires LogOk(log) && Good(log, s) && s.st.pos < |log| && log[s.st.pos] in s.arrived
    ensures log[s.st.pos] in s.st.sched
  {
    var x := log[s.st.pos];
    assert Kept(s, x);
    OccIn(s.arrived, x);
    OccIn(s.st.msgs, x);
    OccIn(s.st.toks, x);
    OccIn(s.st.sched, x);
    ReplayedOcc(s.passed, x);
    OccIn(log[..s.st.pos], x);
    hide Occ, Replayed, Recorded;
  }
}
