/** What the message-logging system has done, over whole runs: the order in which an object executes
    its messages, and that nothing a delivered message depends on can be lost in a failure.
 */
module MlogHistory {
  import opened Tickets
  import opened Determinants
  import opened MlogSystem
  import opened MlogWatermark
  import opened MlogRecovery
  import opened MlogAcks

  lemma TraceRuns(states: seq<Sys>, events: seq<Event>, n: nat)
    requires Trace(states, events) && n < |states|
    ensures Run(states[..n + 1])
  {
    hide Step, Enabled, Init, Shape;
    var run := states[..n + 1];
    forall k | 0 <= k < |run| - 1
      ensures Next(run[k], run[k + 1])
    {
      assert Enabled(states[k], events[k]) && Step(states[k], events[k]) == Done(states[k + 1]);
    }
  }

  // ---------------------------------------------------------------- executions

  /** The message of this object that this event executes. */
  ghost function RanBy(s: Sys, e: Event, o: ObjId): seq<Env> {
    if e.Receive? && e.env.receiver == o && o in s.chares && Filter(s.chares[o], e.env).Done?
       && Filter(s.chares[o], e.env).value.verdict == Execute then [e.env]
    else []
  }

  ghost function Ran(states: seq<Sys>, events: seq<Event>, o: ObjId, n: nat): seq<Env>
    requires n < |states| == |events| + 1
  {
    if n == 0 then [] else Ran(states, events, o, n - 1) + RanBy(states[n - 1], events[n - 1], o)
  }

  lemma FilterTurn(c: Chare, env: Env)
    requires Consistent(c) && env.sn > 0 && Filter(c, env).Done?
    ensures var t := Filter(c, env).value;
      && Keeps(c, After(t)) && After(t).tProcessed == c.tProcessed + (if t.verdict == Execute then 1 else 0)
      && (t.verdict == Execute ==> TicketOf(After(t), env.sender, env.sn) == c.tProcessed + 1)
  {
    FilterKeeps(c, env);
    assert forall s, n :: TicketOf(After(Filter(c, env).value), s, n) == TicketOf(Filter(c, env).value.chare, s, n);
    hide Consistent, Keeps;
    assert Keeps(c, Filter(c, env).value.chare);
  }

  lemma StepRan(s: Sys, e: Event, s': Sys, o: ObjId)
    requires Shape(s) && Enabled(s, e) && Step(s, e) == Done(s') && o in s.chares && Consistent(s.chares[o])
    ensures o in s'.chares && Keeps(s.chares[o], s'.chares[o])
    ensures |RanBy(s, e, o)| <= 1 && s'.chares[o].tProcessed == s.chares[o].tProcessed + |RanBy(s, e, o)|
    ensures RanBy(s, e, o) != [] ==>
      var env := RanBy(s, e, o)[0]; TicketOf(s'.chares[o], env.sender, env.sn) == s.chares[o].tProcessed + 1
  {
    hide Consistent, OnDeliver, Filter, After, TicketOf;
    if e.Receive? {
      if e.env.receiver == o { FilterTurn(s.chares[o], e.env); }
    } else {
      SameChares(s, e, s');
    }
  }

  lemma SameChares(s: Sys, e: Event, s': Sys)
    requires Shape(s) && Enabled(s, e) && Step(s, e) == Done(s') && !e.Receive?
    ensures s'.chares == s.chares
  {
    hide StoreAll, Reply, OnAck;
  }

  /** In every run, through phases and failures, an object executes the messages with tickets 1, 2,
      3, ... one by one in that order, and counts them. */
  lemma {:induction false} ExecutesInTurn(states: seq<Sys>, events: seq<Event>, o: ObjId, n: nat)
    requires Trace(states, events) && n < |states| && o in states[0].place
    ensures o in states[n].chares && o in states[n].place
    ensures var (c, ran) := (states[n].chares[o], Ran(states, events, o, n));
      && c.tProcessed == |ran|
      && forall k :: 0 <= k < |ran| ==> TicketOf(c, ran[k].sender, ran[k].sn) == k + 1
  {
    assert |states| == |events| + 1;
    hide Step, Enabled, Filter, TicketOf, RanBy, Consistent, Keeps, Shape, Trace;
    if n == 0 {
      NothingProcessed(states, events, o);
    } else {
      var s, e, s' := states[n - 1], events[n - 1], states[n];
      TraceStep(states, events, n - 1);
      ExecutesInTurn(states, events, o, n - 1);
      ObjectConsistent(states, events, o, n - 1);
      StepShape(s, e, s');
      StepRan(s, e, s', o);
      InTurnNext(s.chares[o], s'.chares[o], Ran(states, events, o, n - 1), RanBy(s, e, o));
    }
  }

  lemma InTurnNext(c: Chare, c': Chare, ran: seq<Env>, more: seq<Env>)
    requires c.tProcessed == |ran| && (forall k :: 0 <= k < |ran| ==> TicketOf(c, ran[k].sender, ran[k].sn) == k + 1)
    requires Keeps(c, c') && |more| <= 1 && (more != [] ==> TicketOf(c', more[0].sender, more[0].sn) == c.tProcessed + 1)
    ensures forall k :: 0 <= k < |ran + more| ==> TicketOf(c', (ran + more)[k].sender, (ran + more)[k].sn) == k + 1
  {
    hide TicketOf;
  }

  lemma NothingProcessed(states: seq<Sys>, events: seq<Event>, o: ObjId)
    requires Trace(states, events) && o in states[0].place
    ensures o in states[0].chares && states[0].chares[o].tProcessed == 0
  {
    hide Step, Enabled;
  }

  lemma ObjectConsistent(states: seq<Sys>, events: seq<Event>, o: ObjId, n: nat)
    requires Trace(states, events) && n < |states| && o in states[n].place
    ensures o in states[n].chares && Consistent(states[n].chares[o])
  {
    TraceRuns(states, events, n);
    var run := states[..n + 1];
    RunGood(run);
    assert run[|run| - 1] == states[n];
    hide Trace, Run, Consistent, Marked;
    assert Logged(states[n], o);
  }

  // ---------------------------------------------------------------- what messages depend on

  ghost predicate SamePhase(events: seq<Event>, k: nat, n: nat)
    requires k <= n <= |events|
  {
    forall i :: k <= i < n ==> !events[i].Collect?
  }

  /** The log of p has only grown, and so has what delivered messages of p depend on. */
  ghost predicate Grown(s: Sys, s': Sys, p: nat) {
    && p < |s.pes| && p < |s'.pes| && p < |s.heard| && p < |s'.heard|
    && s.heard[p] <= s'.heard[p] && s.pes[p].win.log <= s'.pes[p].win.log
  }

  lemma GrownTwice(a: Sys, b: Sys, c: Sys, p: nat)
    requires Grown(a, b, p) && Grown(b, c, p)
    ensures Grown(a, c, p)
  {
  }

  lemma StepGrows(s: Sys, e: Event, s': Sys, p: nat)
    requires Shape(s) && Enabled(s, e) && Step(s, e) == Done(s') && p < |s.pes| && !e.Collect?
    ensures Grown(s, s', p)
    ensures e.Deliver? && e.src == p && s.net[p][e.dst][0].App? ==> s.net[p][e.dst][0].index <= s'.heard[p]
  {
    hide Filter, StoreAll, Reply;
  }

  /** Within a phase logs only grow, and what a delivered message depends on is not forgotten. */
  lemma {:induction false} PhaseGrows(states: seq<Sys>, events: seq<Event>, p: nat, k: nat, n: nat)
    requires Trace(states, events) && k <= n < |states| && SamePhase(events, k, n) && p < |states[0].pes|
    ensures Grown(states[k], states[n], p)
    decreases n - k
  {
    assert |states| == |events| + 1;
    hide Trace, Grown, Step, Enabled, Shape;
    TraceShape(states, events, n);
    if k < n {
      TraceStep(states, events, n - 1);
      PhaseGrows(states, events, p, k, n - 1);
      StepGrows(states[n - 1], events[n - 1], states[n], p);
      GrownTwice(states[k], states[n - 1], states[n], p);
    } else {
      assert Grown(states[n], states[n], p) by { NoGrowth(states[n], p); }
    }
  }

  lemma NoGrowth(s: Sys, p: nat)
    requires Shape(s) && p < |s.pes|
    ensures Grown(s, s, p)
  {
  }

  lemma TraceStep(states: seq<Sys>, events: seq<Event>, n: nat)
    requires Trace(states, events) && n < |events|
    ensures |states| == |events| + 1 && Shape(states[n]) && |states[n].pes| == |states[0].pes|
    ensures Enabled(states[n], events[n]) && Step(states[n], events[n]) == Done(states[n + 1])
  {
    TraceShape(states, events, n);
    hide Step, Enabled, Init, Shape;
  }

  /** The promise of causal logging: once a message has been delivered anywhere, every determinant
      its sender had logged when it sent the message is kept by another processor, at every later
      moment of the phase, and also after the sender has failed. */
  lemma DependedIsStored(states: seq<Sys>, events: seq<Event>, p: nat, q: nat, k: nat, n: nat)
    requires Trace(states, events) && k < n < |states| && SamePhase(events, k, n) && p < |states[0].pes|
    requires Taken(states[k], events[k], p, q) != [] && Taken(states[k], events[k], p, q)[0].App?
    requires states[n].failed < 0 || states[n].failed == p
    ensures Shape(states[n]) && p < |states[n].pes|
    ensures var (s, i) := (states[n], Taken(states[k], events[k], p, q)[0].index);
      && i <= |s.pes[p].win.log|
      && forall d :: d in s.pes[p].win.log[..i] && Owns(s, p, d) ==> Stored(s, p, d)
  {
    TraceShape(states, events, n);
    TraceStep(states, events, k);
    StepGrows(states[k], events[k], states[k + 1], p);
    hide Step, Enabled, Init;
    PhaseGrows(states, events, p, k + 1, n);
    TraceRuns(states, events, n);
    var run := states[..n + 1];
    assert run[|run| - 1] == states[n];
    hide Trace, Run;
    var w := StoredIsPrefix(run, p);
  }
}
