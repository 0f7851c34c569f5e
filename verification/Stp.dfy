/** Cooperative threads on one processor: a round-robin scheduler in which the main thread takes
    its turn like any other.
 */
module Stp {
  import opened Seqs

  type Tid = nat

  const MAIN: Tid := 0

  /** The thread with the processor, the run queue, and the threads not yet finished. */
  datatype Sched = Sched(curr: Tid, queue: seq<Tid>, live: set<Tid>)

  datatype Event = Create(t: Tid) | Loop | Yield | Abort

  /** Yield and Abort are called by user threads; Loop is a turn of the main thread's loop. */
  ghost predicate Enabled(s: Sched, e: Event) {
    match e
    case Create(t) => t != MAIN && t !in s.live
    case Loop => s.curr == MAIN && s.queue != []
    case Yield => s.curr != MAIN
    case Abort => s.curr != MAIN
  }

  /** The effect of an event, given that there is a thread to switch to. */
  function Step(s: Sched, e: Event): Sched
    requires e.Create? || s.queue != []
  {
    match e
    case Create(t) => s.(queue := s.queue + [t], live := s.live + {t})
    case Loop => s.(curr := s.queue[0], queue := s.queue[1..] + [MAIN])
    case Yield => s.(curr := s.queue[0], queue := s.queue[1..] + [s.curr])
    case Abort => s.(curr := s.queue[0], queue := s.queue[1..], live := s.live - {s.curr})
  }

  /** The current thread and the queue are the live threads and main, once each. */
  ghost predicate Good(s: Sched) {
    && MAIN !in s.live
    && forall t :: Occ([s.curr] + s.queue, t) == if t in s.live || t == MAIN then 1 else 0
  }

  lemma OccCons(x: Tid, q: seq<Tid>, t: Tid)
    ensures Occ([x] + q, t) == Occ(q, t) + if x == t then 1 else 0
  {
    OccConcat([x], q, t);
    OccOne(x, t);
  }

  /** While a user thread runs, main is queued: there is always someone to switch to. */
  lemma SomeoneWaits(s: Sched)
    requires Good(s) && s.curr != MAIN
    ensures MAIN in s.queue
  {
    OccCons(s.curr, s.queue, MAIN);
    OccIn(s.queue, MAIN);
    assert Occ([s.curr] + s.queue, MAIN) == 1;
  }

  lemma StepOcc(s: Sched, e: Event, t: Tid)
    requires Good(s) && Enabled(s, e) && (e.Create? || s.queue != [])
    ensures var s' := Step(s, e); Occ([s'.curr] + s'.queue, t) == if t in s'.live || t == MAIN then 1 else 0
  {
    hide Occ;
    var s' := Step(s, e);
    assert Occ([s.curr] + s.queue, t) == if t in s.live || t == MAIN then 1 else 0;
    OccCons(s.curr, s.queue, t);
    OccCons(s'.curr, s'.queue, t);
    if e.Create? {
      OccConcat(s.queue, [e.t], t);
      OccOne(e.t, t);
    } else {
      assert s.queue == [s.queue[0]] + s.queue[1..];
      OccCons(s.queue[0], s.queue[1..], t);
      OccConcat(s.queue[1..], [s.curr], t);
      OccOne(s.curr, t);
    }
  }

  lemma StepGood(s: Sched, e: Event)
    requires Good(s) && Enabled(s, e)
    ensures (e.Create? || s.queue != []) && Good(Step(s, e))
  {
    if e.Yield? || e.Abort? { SomeoneWaits(s); }
    forall t
      ensures var s' := Step(s, e); Occ([s'.curr] + s'.queue, t) == if t in s'.live || t == MAIN then 1 else 0
    {
      StepOcc(s, e, t);
    }
  }

  /** The main thread's loop ends exactly when every thread has finished. */
  lemma ReturnsWhenAllFinished(s: Sched)
    requires Good(s)
    ensures s.curr == MAIN && s.queue == [] <==> s.live == {}
  {
    if s.curr == MAIN && s.queue == [] {
      forall t
        ensures t !in s.live
      {
        OccCons(MAIN, [], t);
        assert Occ([s.curr] + s.queue, t) == if t in s.live || t == MAIN then 1 else 0;
      }
    }
    if s.live == {} {
      forall i | 0 <= i < |[s.curr] + s.queue|
        ensures ([s.curr] + s.queue)[i] == MAIN
      {
        OccIn([s.curr] + s.queue, ([s.curr] + s.queue)[i]);
      }
      if s.queue != [] {
        OccTwo([s.curr] + s.queue, 0, 1);
      }
    }
  }

  // ---------------------------------------------------------------- runs

  ghost predicate Run(states: seq<Sched>, events: seq<Event>) {
    && |states| == |events| + 1 && states[0] == Sched(MAIN, [], {})
    && forall i :: 0 <= i < |events| ==>
         && Enabled(states[i], events[i]) && (events[i].Create? || states[i].queue != [])
         && states[i + 1] == Step(states[i], events[i])
  }

  lemma {:induction false} RunGood(states: seq<Sched>, events: seq<Event>, n: nat)
    requires Run(states, events) && n < |states|
    ensures Good(states[n])
  {
    if n == 0 {
      forall t
        ensures Occ([MAIN] + [], t) == if t == MAIN then 1 else 0
      {
        OccCons(MAIN, [], t);
      }
    } else {
      RunGood(states, events, n - 1);
      hide Good, Step, Enabled;
      StepGood(states[n - 1], events[n - 1]);
    }
  }

  /** In every run the current thread and the queue are exactly the unfinished threads and main,
      once each; yield and abort always find a thread; and the loop is over exactly when all
      threads have finished. */
  lemma SchedulerSound(states: seq<Sched>, events: seq<Event>, n: nat)
    requires Run(states, events) && n < |states|
    ensures Good(states[n])
    ensures states[n].curr != MAIN ==> states[n].queue != []
    ensures states[n].curr == MAIN && states[n].queue == [] <==> states[n].live == {}
  {
    RunGood(states, events, n);
    hide Run;
    ReturnsWhenAllFinished(states[n]);
    if states[n].curr != MAIN { SomeoneWaits(states[n]); }
  }

  /** Switches among the events from n to m. */
  ghost function Switches(events: seq<Event>, n: nat, m: nat): nat
    requires n <= m <= |events|
  {
    if n == m then 0 else Switches(events, n, m - 1) + if events[m - 1].Create? then 0 else 1
  }

  /** Round robin: whatever the threads do, one waiting behind k others moves up with every
      switch and runs at the (k+1)-st. */
  lemma {:induction false} RunsInTurn(states: seq<Sched>, events: seq<Event>, n: nat, m: nat, k: nat)
    requires Run(states, events) && n <= m < |states| && k < |states[n].queue|
    ensures var c := Switches(events, n, m);
      && (c <= k ==> k - c < |states[m].queue| && states[m].queue[k - c] == states[n].queue[k])
      && (c == k + 1 && !events[m - 1].Create? ==> states[m].curr == states[n].queue[k])
    decreases m
  {
    if m > n {
      RunsInTurn(states, events, n, m - 1, k);
      assert states[m] == Step(states[m - 1], events[m - 1]);
      hide Run, Enabled;
    }
  }
}
