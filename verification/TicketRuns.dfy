/** Runs of the message filter of one processor.

    Messages reach the scheduler in any order, any number of times (resends and
    duplicates included).  The processor takes them from the scheduler one by
    one, tickets them, and executes, drops or parks them.
 */
module TicketRuns {
  import opened Seqs
  import opened Tickets

  /** `arrived`, `ran` and `dropped` are histories; the rest is the processor's state. */
  datatype Desk = Desk(chares: map<ObjId, Chare>, sched: seq<Env>, parked: seq<Env>, delayed: seq<Env>,
                       arrived: seq<Env>, ran: seq<Env>, dropped: seq<Env>)

  ghost predicate Known(d: Desk, env: Env) {
    env.receiver in d.chares && env.sn > 0
  }

  function Arrive(d: Desk, env: Env): Desk {
    d.(sched := d.sched + [env], arrived := d.arrived + [env])
  }

  /** Where a ticketed message goes.  One whose turn has come first sends everything
      parked back to the scheduler. */
  function Place(d: Desk, env: Env, t: Ticketed): Desk {
    match t.verdict
    case Execute =>
      d.(chares := d.chares[env.receiver := Finish(t.chare)],
         sched := d.sched + d.parked, parked := [], ran := d.ran + [env])
    case Discard =>
      d.(chares := d.chares[env.receiver := t.chare], dropped := d.dropped + [env])
    case Park =>
      d.(chares := d.chares[env.receiver := t.chare], parked := d.parked + [env])
    case Delay =>
      d.(delayed := d.delayed + [env])
  }

  /** preProcessReceivedMessage (and, when it executes, postProcessReceivedMessage)
      on the i-th scheduled message. */
  function Process(d: Desk, i: nat): Outcome<Desk>
    requires i < |d.sched| && d.sched[i].receiver in d.chares
  {
    var env := d.sched[i];
    match Filter(d.chares[env.receiver], env)
    case Abort => Abort
    case Done(t) => Done(Place(d.(sched := Drop(d.sched, i)), env, t))
  }

  ghost predicate Next(d: Desk, d': Desk) {
    || (exists env :: Known(d, env) && d' == Arrive(d, env))
    || (exists i :: 0 <= i < |d.sched| && d.sched[i].receiver in d.chares && Process(d, i) == Done(d'))
  }

  ghost predicate Run(run: seq<Desk>) {
    |run| > 0 && forall k :: 0 <= k < |run| - 1 ==> Next(run[k], run[k + 1])
  }

  /** A processor with nothing pending: just started, or just recovered with a
      table that already holds the tickets of messages it has yet to see again. */
  ghost predicate Initial(d: Desk) {
    && d.sched == d.parked == d.delayed == d.arrived == d.ran == d.dropped == []
    && (forall o :: o in d.chares ==> Consistent(d.chares[o]))
  }

  /** The messages one object executed, in order. */
  function RunsOf(ran: seq<Env>, o: ObjId): seq<Env> {
    if ran == [] then []
    else
      var front := RunsOf(ran[..|ran| - 1], o);
      if ran[|ran| - 1].receiver == o then front + [ran[|ran| - 1]] else front
  }

  function TicketIn(d: Desk, env: Env): nat {
    if env.receiver in d.chares then TicketOf(d.chares[env.receiver], env.sender, env.sn) else 0
  }

  ghost predicate ExecutedInOrder(d0: Desk, d: Desk, o: ObjId)
    requires o in d0.chares && o in d.chares
  {
    var runs := RunsOf(d.ran, o);
    && d.chares[o].tProcessed == d0.chares[o].tProcessed + |runs|
    && forall k :: 0 <= k < |runs| ==> TicketIn(d, runs[k]) == d0.chares[o].tProcessed + k + 1
  }

  ghost function Total(d: Desk): multiset<Env> {
    multiset(d.sched) + multiset(d.parked) + multiset(d.delayed) + multiset(d.ran) + multiset(d.dropped)
  }

  ghost predicate Conserved(d: Desk) {
    multiset(d.arrived) == Total(d)
  }

  ghost predicate QueuesOk(d: Desk) {
    && (forall e :: e in d.arrived ==> Known(d, e))
    && (forall e :: e in d.parked ==> Known(d, e) && TicketIn(d, e) > d.chares[e.receiver].tProcessed + 1)
    && (forall e :: e in d.dropped ==> Known(d, e) && 1 <= TicketIn(d, e) <= d.chares[e.receiver].tProcessed)
    && (forall e :: e in d.delayed ==> Known(d, e) && d.chares[e.receiver].restarting)
  }

  /** Every ticket was in the table from the start or belongs to a message that arrived. */
  ghost predicate Sourced(d0: Desk, d: Desk) {
    forall e :: TicketIn(d, e) != 0 && e.receiver in d0.chares ==> TicketIn(d0, e) != 0 || e in d.arrived
  }

  ghost predicate Inv(d0: Desk, d: Desk) {
    && Sourced(d0, d)
    && d.chares.Keys == d0.chares.Keys
    && (forall o :: o in d.chares ==>
          && Consistent(d.chares[o]) && Keeps(d0.chares[o], d.chares[o])
          && d.chares[o].restarting == d0.chares[o].restarting
          && ExecutedInOrder(d0, d, o))
    && QueuesOk(d)
    && Conserved(d)
  }

  lemma RunsOfMember(ran: seq<Env>, o: ObjId)
    ensures forall e :: e in RunsOf(ran, o) <==> e in ran && e.receiver == o
  {
    if ran != [] {
      RunsOfMember(ran[..|ran| - 1], o);
      assert ran == ran[..|ran| - 1] + [ran[|ran| - 1]];
    }
  }

  /** Tickets of one chare seen through the desk survive a change that keeps them. */
  lemma TicketsSurvive(d: Desk, d': Desk, o: ObjId)
    requires o in d.chares && d'.chares.Keys == d.chares.Keys
    requires forall p :: p in d.chares && p != o ==> d'.chares[p] == d.chares[p]
    requires Keeps(d.chares[o], d'.chares[o])
    ensures forall e :: TicketIn(d, e) != 0 ==> TicketIn(d', e) == TicketIn(d, e)
  {
  }

  lemma ArriveQueues(d0: Desk, d: Desk, env: Env)
    requires QueuesOk(d) && Sourced(d0, d) && Known(d, env)
    ensures QueuesOk(Arrive(d, env)) && Sourced(d0, Arrive(d, env))
  {
    var d' := Arrive(d, env);
    assert forall e :: TicketIn(d', e) == TicketIn(d, e);
    hide TicketIn;
    assert forall e :: e in d.arrived ==> e in d'.arrived;
  }

  lemma ArriveConserves(d: Desk, env: Env)
    requires Conserved(d)
    ensures Conserved(Arrive(d, env))
  {
  }

  lemma ArriveKeeps(d0: Desk, d: Desk, env: Env)
    requires Inv(d0, d) && Known(d, env)
    ensures Inv(d0, Arrive(d, env))
  {
    var d' := Arrive(d, env);
    ArriveQueues(d0, d, env);
    ArriveConserves(d, env);
    assert forall e :: TicketIn(d', e) == TicketIn(d, e);
    hide TicketIn, Consistent, Keeps, QueuesOk, Sourced, Conserved, RunsOf;
    assert forall o :: o in d'.chares ==> (ExecutedInOrder(d0, d', o) <==> ExecutedInOrder(d0, d, o));
  }

  /** One processed message leaves every chare's table consistent and every ticket as it was. */
  lemma ProcessChares(d0: Desk, d: Desk, i: nat, d': Desk)
    requires Inv(d0, d) && i < |d.sched| && Known(d, d.sched[i]) && Process(d, i) == Done(d')
    ensures d'.chares.Keys == d.chares.Keys
    ensures forall o :: o in d'.chares ==>
      && Consistent(d'.chares[o]) && Keeps(d.chares[o], d'.chares[o])
      && d'.chares[o].restarting == d.chares[o].restarting
    ensures forall e :: TicketIn(d, e) != 0 ==> TicketIn(d', e) == TicketIn(d, e)
  {
    hide Consistent;
    var env := d.sched[i];
    var c := d.chares[env.receiver];
    FilterKeeps(c, env);
    var t := Filter(c, env).value;
    if t.verdict == Execute { FinishKeeps(t.chare); }
    TicketsSurvive(d, d', env.receiver);
  }

  lemma ProcessOrder(d0: Desk, d: Desk, i: nat, d': Desk, o: ObjId)
    requires Inv(d0, d) && i < |d.sched| && Known(d, d.sched[i]) && Process(d, i) == Done(d')
    requires o in d.chares
    ensures o in d'.chares && ExecutedInOrder(d0, d', o)
  {
    hide Consistent;
    ProcessChares(d0, d, i, d');
    var env := d.sched[i];
    FilterKeeps(d.chares[env.receiver], env);
    var runs, runs' := RunsOf(d.ran, o), RunsOf(d'.ran, o);
    if d'.ran != d.ran {
      assert d'.ran[..|d'.ran| - 1] == d.ran;
      assert runs' == if env.receiver == o then runs + [env] else runs;
    }
    forall k | 0 <= k < |runs'|
      ensures TicketIn(d', runs'[k]) == d0.chares[o].tProcessed + k + 1
    {
      if k < |runs| { assert TicketIn(d, runs[k]) != 0; }
    }
  }

  lemma EnvTicket(d: Desk, i: nat, d': Desk)
    requires i < |d.sched| && Known(d, d.sched[i]) && Process(d, i) == Done(d')
    requires Consistent(d.chares[d.sched[i].receiver])
    ensures var t := Filter(d.chares[d.sched[i].receiver], d.sched[i]).value;
      t.verdict != Delay ==> TicketIn(d', d.sched[i]) == t.tn
  {
    hide Consistent;
    FilterKeeps(d.chares[d.sched[i].receiver], d.sched[i]);
  }

  lemma WhereArrivedIs(d: Desk, e: Env)
    requires Conserved(d)
    ensures e in d.arrived <==> e in d.sched || e in d.parked || e in d.delayed || e in d.ran || e in d.dropped
  {
    assert e in d.arrived <==> e in multiset(d.arrived);
  }

  lemma PlaceAdds(d: Desk, env: Env, t: Ticketed)
    ensures Total(Place(d, env, t)) == Total(d) + multiset{env}
    ensures Place(d, env, t).arrived == d.arrived
  {
    match t.verdict
    case Execute =>
    case Discard =>
    case Park =>
    case Delay =>
  }

  lemma ProcessConserves(d: Desk, i: nat, d': Desk)
    requires Conserved(d) && i < |d.sched| && Known(d, d.sched[i]) && Process(d, i) == Done(d')
    ensures Conserved(d') && d'.arrived == d.arrived
  {
    hide Filter, Place;
    var q := Drop(d.sched, i);
    assert d.sched == d.sched[..i] + [d.sched[i]] + d.sched[i + 1..];
    assert multiset(d.sched) == multiset(q) + multiset{d.sched[i]};
    PlaceAdds(d.(sched := q), d.sched[i], Filter(d.chares[d.sched[i].receiver], d.sched[i]).value);
  }

  /** Parked messages stay strictly ahead of their turn: the only step that could bring
      a turn closer empties the parking queue first. */
  lemma PlaceQueues(d: Desk, env: Env, t: Ticketed, d': Desk)
    requires QueuesOk(d) && Known(d, env) && env in d.arrived && d' == Place(d, env, t)
    requires forall e :: TicketIn(d, e) != 0 ==> TicketIn(d', e) == TicketIn(d, e)
    requires var c := d.chares[env.receiver];
      && t.chare.restarting == c.restarting && t.chare.tProcessed == c.tProcessed
      && match t.verdict
         case Execute => true
         case Discard => 1 <= TicketIn(d', env) <= c.tProcessed
         case Park => TicketIn(d', env) > c.tProcessed + 1
         case Delay => c.restarting
    ensures QueuesOk(d')
  {
    hide TicketIn;
    assert forall e :: Known(d, e) ==>
      && Known(d', e) && d'.chares[e.receiver].tProcessed >= d.chares[e.receiver].tProcessed
      && d'.chares[e.receiver].restarting == d.chares[e.receiver].restarting;
    if t.verdict == Park {
      assert forall e :: e in d'.parked ==> e in d.parked || e == env;
      assert forall e :: Known(d, e) ==> d'.chares[e.receiver].tProcessed == d.chares[e.receiver].tProcessed;
    }
  }

  /** What the filter tells about where the message goes. */
  lemma FilterVerdict(c: Chare, env: Env)
    requires Consistent(c) && env.sn > 0 && Filter(c, env).Done?
    ensures var t := Filter(c, env).value;
      && t.chare.restarting == c.restarting && t.chare.tProcessed == c.tProcessed
      && match t.verdict
         case Execute => t.tn == c.tProcessed + 1
         case Discard => 1 <= t.tn <= c.tProcessed
         case Park => t.tn > c.tProcessed + 1
         case Delay => c.restarting
  {
    hide Consistent;
    FilterKeeps(c, env);
  }

  lemma ProcessQueues(d: Desk, i: nat, d': Desk)
    requires i < |d.sched| && Known(d, d.sched[i]) && Process(d, i) == Done(d')
    requires QueuesOk(d) && d.sched[i] in d.arrived && Consistent(d.chares[d.sched[i].receiver])
    requires forall e :: TicketIn(d, e) != 0 ==> TicketIn(d', e) == TicketIn(d, e)
    ensures QueuesOk(d')
  {
    var env := d.sched[i];
    var q := d.(sched := Drop(d.sched, i));
    assert QueuesOk(q) && forall e :: TicketIn(q, e) == TicketIn(d, e);
    hide Consistent, Filter, TicketIn, Place, QueuesOk;
    EnvTicket(d, i, d');
    FilterVerdict(d.chares[env.receiver], env);
    PlaceQueues(q, env, Filter(d.chares[env.receiver], env).value, d');
  }

  lemma ProcessSourced(d0: Desk, d: Desk, i: nat, d': Desk)
    requires Sourced(d0, d) && i < |d.sched| && Known(d, d.sched[i]) && Process(d, i) == Done(d')
    requires Consistent(d.chares[d.sched[i].receiver]) && d.sched[i] in d.arrived
    ensures Sourced(d0, d')
  {
    hide Consistent, Filter;
    var env := d.sched[i];
    var c := d.chares[env.receiver];
    FilterKeeps(c, env);
    var t := Filter(c, env).value;
    if t.isNew { RecordTicket(c.(tCount := t.tn), env.sender, env.sn, t.tn); }
    forall e | TicketIn(d', e) != 0
      ensures TicketIn(d, e) != 0 || e == env
    {
      assert e.receiver != env.receiver ==> d'.chares[e.receiver] == d.chares[e.receiver];
    }
  }

  lemma ScheduledIsKnown(d0: Desk, d: Desk, i: nat)
    requires Inv(d0, d) && i < |d.sched|
    ensures Known(d, d.sched[i])
  {
    WhereArrivedIs(d, d.sched[i]);
  }

  lemma NextKeeps(d0: Desk, d: Desk, d': Desk)
    requires Inv(d0, d) && Next(d, d')
    ensures Inv(d0, d')
  {
    hide Consistent, ExecutedInOrder, QueuesOk, Sourced;
    if env :| Known(d, env) && d' == Arrive(d, env) {
      ArriveKeeps(d0, d, env);
    } else {
      var i :| 0 <= i < |d.sched| && d.sched[i].receiver in d.chares && Process(d, i) == Done(d');
      hide Process, TicketIn, Keeps;
      ScheduledIsKnown(d0, d, i);
      ProcessConserves(d, i, d');
      ProcessChares(d0, d, i, d');
      WhereArrivedIs(d, d.sched[i]);
      ProcessQueues(d, i, d');
      ProcessSourced(d0, d, i, d');
      forall o | o in d'.chares
        ensures ExecutedInOrder(d0, d', o) && Keeps(d0.chares[o], d'.chares[o])
      {
        ProcessOrder(d0, d, i, d', o);
      }
    }
  }

  lemma {:induction false} RunKeeps(run: seq<Desk>)
    requires Run(run) && Initial(run[0])
    ensures Inv(run[0], run[|run| - 1])
  {
    if |run| > 1 {
      RunKeeps(run[..|run| - 1]);
      NextKeeps(run[0], run[|run| - 2], run[|run| - 1]);
    }
  }

  // ---------------------------------------------------------------- what holds of every run

  /** Over any run, an object executes the tickets following its starting point one
      by one, in order, each once; no two pairs share a ticket; and nothing parked is
      already due. */
  lemma {:induction false} ExecutesTicketsInOrder(run: seq<Desk>, o: ObjId)
    requires Run(run) && Initial(run[0]) && o in run[0].chares
    ensures var d := run[|run| - 1];
      && o in d.chares && ExecutedInOrder(run[0], d, o) && Injective(d.chares[o])
      && (forall e :: e in d.parked && e.receiver == o ==> TicketIn(d, e) > d.chares[o].tProcessed + 1)
  {
    RunKeeps(run);
  }

  lemma NextKeepsTickets(d0: Desk, d: Desk, d': Desk, o: ObjId)
    requires Inv(d0, d) && Next(d, d') && o in d.chares
    ensures o in d'.chares && Keeps(d.chares[o], d'.chares[o])
  {
    hide Consistent, ExecutedInOrder, QueuesOk, Sourced;
    if i :| 0 <= i < |d.sched| && d.sched[i].receiver in d.chares && Process(d, i) == Done(d') {
      ScheduledIsKnown(d0, d, i);
      ProcessChares(d0, d, i, d');
    }
  }

  /** A pair keeps the ticket it was given in every later state. */
  lemma {:induction false} TicketIsForever(run: seq<Desk>, k: nat, o: ObjId)
    requires Run(run) && Initial(run[0]) && k < |run| && o in run[k].chares
    ensures o in run[|run| - 1].chares && Keeps(run[k].chares[o], run[|run| - 1].chares[o])
  {
    hide Inv, Next, Initial;
    if k < |run| - 1 {
      var shorter := run[..|run| - 1];
      TicketIsForever(shorter, k, o);
      RunKeeps(shorter);
      NextKeepsTickets(run[0], run[|run| - 2], run[|run| - 1], o);
    }
  }

  /** Every arrival is in exactly one of five places, and one that was dropped held a
      ticket the object had already executed. */
  lemma {:induction false} NoArrivalLost(run: seq<Desk>)
    requires Run(run) && Initial(run[0])
    ensures var d := run[|run| - 1];
      && multiset(d.arrived) == Total(d)
      && (forall e :: e in d.dropped ==> Known(d, e) && 1 <= TicketIn(d, e) <= d.chares[e.receiver].tProcessed)
  {
    RunKeeps(run);
  }

  lemma NextHoldsBack(d: Desk, d': Desk, o: ObjId)
    requires Next(d, d') && o in d.chares && d.chares[o].restarting
    ensures o in d'.chares && d'.chares[o] == d.chares[o] && RunsOf(d'.ran, o) == RunsOf(d.ran, o)
    ensures forall e: Env :: e.receiver == o && (e in d'.parked || e in d'.dropped) ==> e in d.parked || e in d.dropped
  {
    if i :| 0 <= i < |d.sched| && d.sched[i].receiver in d.chares && Process(d, i) == Done(d') {
      var env := d.sched[i];
      assert (d.ran + [env])[..|d.ran|] == d.ran;
    }
  }

  /** While an object waits for the survivors' replies nothing of it changes: it executes no message
      and gives none a ticket; each message that reaches it is in the scheduler or held back. */
  lemma {:induction false} RestartingWaits(run: seq<Desk>, o: ObjId)
    requires Run(run) && Initial(run[0]) && o in run[0].chares && run[0].chares[o].restarting
    ensures var d := run[|run| - 1];
      && o in d.chares && d.chares[o] == run[0].chares[o] && RunsOf(d.ran, o) == []
      && (forall e :: e in d.parked || e in d.dropped ==> e.receiver != o)
      && (forall e :: e in d.arrived && e.receiver == o ==> e in d.sched || e in d.delayed)
  {
    if |run| > 1 {
      hide Next;
      RestartingWaits(run[..|run| - 1], o);
      NextHoldsBack(run[|run| - 2], run[|run| - 1], o);
    }
    RunKeeps(run);
    var d := run[|run| - 1];
    hide Run, Next, Initial, Consistent, QueuesOk, Sourced, ExecutedInOrder;
    forall e | e in d.arrived && e.receiver == o
      ensures e in d.sched || e in d.delayed
    {
      WhereArrivedIs(d, e);
      RunsOfMember(d.ran, o);
    }
  }

  // ---------------------------------------------------------------- catching up

  ghost predicate Drainable(d: Desk) {
    Conserved(d) && forall e :: e in d.arrived ==> Known(d, e)
  }

  lemma ProcessDrains(d: Desk)
    requires Drainable(d) && d.sched != []
    ensures Known(d, d.sched[0]) && |d.ran| <= |d.arrived|
    ensures Process(d, 0).Done? ==> var d' := Process(d, 0).value;
      && Drainable(d') && |d'.ran| <= |d'.arrived| == |d.arrived|
      && (|d'.ran| > |d.ran| || (|d'.ran| == |d.ran| && |d'.sched| < |d.sched|))
  {
    WhereArrivedIs(d, d.sched[0]);
    assert |multiset(d.arrived)| == |d.arrived|;
    if Process(d, 0).Done? {
      var d' := Process(d, 0).value;
      ProcessConserves(d, 0, d');
      assert |multiset(d'.arrived)| == |d'.arrived|;
    }
  }

  /** Run the scheduler, oldest first, until it is idle.  Each message processed either
      executes, which can happen at most once per arrival, or shortens the queue. */
  ghost function Drain(d: Desk): (r: Outcome<Desk>)
    requires Drainable(d)
    ensures r.Done? ==> r.value.sched == [] && r.value.arrived == d.arrived
    decreases |d.arrived| - |d.ran|, |d.sched|
  {
    if d.sched == [] then Done(d)
    else
      ProcessDrains(d);
      match Process(d, 0)
      case Abort => Abort
      case Done(d') =>
        ProcessConserves(d, 0, d');
        Drain(d')
  }

  lemma {:induction false} DrainKeeps(d0: Desk, d: Desk)
    requires Inv(d0, d) && Drainable(d) && Drain(d).Done?
    ensures Inv(d0, Drain(d).value)
    decreases |d.arrived| - |d.ran|, |d.sched|
  {
    hide Inv;
    if d.sched != [] {
      ProcessDrains(d);
      var d' := Process(d, 0).value;
      assert Next(d, d');
      NextKeeps(d0, d, d');
      ProcessConserves(d, 0, d');
      DrainKeeps(d0, d');
    }
  }

  /** An idle scheduler means the message holding the next ticket has not arrived. */
  lemma IdleMeansMissing(d0: Desk, d: Desk, e: Env)
    requires Inv(d0, d) && d.sched == [] && e in d.arrived && !d.chares[e.receiver].restarting
    ensures TicketIn(d, e) != d.chares[e.receiver].tProcessed + 1
  {
    WhereArrivedIs(d, e);
    if e in d.ran {
      RunsOfMember(d.ran, e.receiver);
      var runs := RunsOf(d.ran, e.receiver);
      var k :| 0 <= k < |runs| && runs[k] == e;
      assert ExecutedInOrder(d0, d, e.receiver);
    }
  }

  // ---------------------------------------------------------------- when draining succeeds

  /** The SN of the first of these messages from this sender to this receiver. */
  function FirstSn(q: seq<Env>, receiver: ObjId, sender: ObjId): nat {
    if q == [] then 0
    else if q[0].receiver == receiver && q[0].sender == sender then q[0].sn
    else FirstSn(q[1..], receiver, sender)
  }

  /** Where the sender's row starts: where it does, or where the first message waiting opens it. */
  function RowStart(d: Desk, e: Env): nat
    requires e.receiver in d.chares
  {
    var c := d.chares[e.receiver];
    if e.sender in c.rows then c.rows[e.sender].start else FirstSn(d.sched, e.receiver, e.sender)
  }

  ghost predicate InTurn(d: Desk, e: Env) {
    e.receiver in d.chares ==> d.chares[e.receiver].restarting || RowStart(d, e) <= e.sn
  }

  /** No message waiting has an SN below its sender's row, nor below the one waiting that opens it. */
  ghost predicate Orderly(d: Desk) {
    forall e :: e in d.sched ==> InTurn(d, e)
  }

  lemma FilterRows(c: Chare, env: Env)
    requires Filter(c, env).Done? && Consistent(c)
    ensures var c' := Filter(c, env).value.chare;
      && c'.restarting == c.restarting && (c.restarting ==> c' == c)
      && (forall s :: s in c.rows ==> s in c'.rows && c'.rows[s].start == c.rows[s].start)
      && (forall s :: s in c'.rows && s != env.sender ==> s in c.rows)
      && (!c.restarting ==> env.sender in c'.rows && (env.sender !in c.rows ==> c'.rows[env.sender].start == env.sn))
  {
  }

  lemma {:induction false} FirstSnConcat(q: seq<Env>, more: seq<Env>, e: Env)
    requires e in q
    ensures FirstSn(q + more, e.receiver, e.sender) == FirstSn(q, e.receiver, e.sender)
  {
    if !(q[0].receiver == e.receiver && q[0].sender == e.sender) {
      assert (q + more)[1..] == q[1..] + more;
      FirstSnConcat(q[1..], more, e);
    }
  }

  /** Processing a message does not move the start of anyone's row. */
  lemma SameStart(d0: Desk, d: Desk, d': Desk, e: Env)
    requires Inv(d0, d) && d.sched != [] && Known(d, d.sched[0]) && Process(d, 0) == Done(d') && e in d.sched[1..] && e.receiver in d.chares
    ensures e.receiver in d'.chares && (InTurn(d', e) <==> InTurn(d, e))
  {
    var env, rest := d.sched[0], d.sched[1..];
    assert Consistent(d.chares[env.receiver]);
    hide Filter, Inv, Consistent;
    FilterRows(d.chares[env.receiver], env);
    FirstSnConcat(rest, d.parked, e);
    WhatProcessed(d, d');
    hide Process;
    var c := d.chares[e.receiver];
    if !c.restarting && e.sender !in c.rows {
      if e.receiver == env.receiver && e.sender == env.sender {
      } else {
        assert e.sender !in d'.chares[e.receiver].rows;
      }
    }
  }

  lemma WhatProcessed(d: Desk, d': Desk)
    requires d.sched != [] && Known(d, d.sched[0]) && Process(d, 0) == Done(d')
    ensures var (env, rest) := (d.sched[0], d.sched[1..]);
      var c' := d'.chares[env.receiver];
      && (d'.sched == rest || d'.sched == rest + d.parked)
      && d'.chares == d.chares[env.receiver := c'] && Filter(d.chares[env.receiver], env).Done?
      && (!d.chares[env.receiver].restarting ==> c'.rows == Filter(d.chares[env.receiver], env).value.chare.rows)
      && (d.chares[env.receiver].restarting ==> c' == d.chares[env.receiver])
      && (!d.chares[env.receiver].restarting ==> c'.restarting == Filter(d.chares[env.receiver], env).value.chare.restarting)
  {
    assert Drop(d.sched, 0) == d.sched[1..];
  }

  lemma ParkedInTurn(d0: Desk, d: Desk, d': Desk, e: Env)
    requires Inv(d0, d) && d.sched != [] && Known(d, d.sched[0]) && Process(d, 0) == Done(d') && e in d.parked
    ensures InTurn(d', e)
  {
    var env := d.sched[0];
    assert Known(d, e) && TicketIn(d, e) > 0 && Consistent(d.chares[env.receiver]);
    assert e.sender in d.chares[e.receiver].rows && d.chares[e.receiver].rows[e.sender].start <= e.sn by { assert Consistent(d.chares[e.receiver]); }
    hide Filter, Inv, Consistent;
    FilterRows(d.chares[env.receiver], env);
    var t := Filter(d.chares[env.receiver], env).value;
    match t.verdict
    case Execute =>
    case Discard =>
    case Park =>
    case Delay =>
  }

  lemma OrderlyNext(d0: Desk, d: Desk, d': Desk)
    requires Inv(d0, d) && d.sched != [] && Known(d, d.sched[0]) && Process(d, 0) == Done(d')
    ensures Orderly(d') <==> Orderly(d)
  {
    var env, rest := d.sched[0], d.sched[1..];
    assert Drop(d.sched, 0) == rest && d.sched == [env] + rest;
    assert d'.sched == rest || d'.sched == rest + d.parked;
    assert InTurn(d, env) by { FilterAborts(d.chares[env.receiver], env); }
    forall e | e in rest
      ensures InTurn(d', e) <==> InTurn(d, e)
    {
      assert e in d.sched;
      SchedKnown(d0, d, e);
      SameStart(d0, d, d', e);
    }
    forall e | e in d.parked
      ensures InTurn(d', e)
    {
      ParkedInTurn(d0, d, d', e);
    }
    hide InTurn, Inv, Process;
  }

  lemma SchedKnown(d0: Desk, d: Desk, e: Env)
    requires Inv(d0, d) && e in d.sched
    ensures Known(d, e)
  {
    var i :| 0 <= i < |d.sched| && d.sched[i] == e;
    ScheduledIsKnown(d0, d, i);
  }

  /** Draining succeeds if and only if the messages waiting are in order. */
  lemma {:induction false} DrainsIff(d0: Desk, d: Desk)
    requires Inv(d0, d) && Drainable(d)
    ensures Drain(d).Done? <==> Orderly(d)
    decreases |d.arrived| - |d.ran|, |d.sched|
  {
    if d.sched != [] {
      ProcessDrains(d);
      var env := d.sched[0];
      FilterAborts(d.chares[env.receiver], env);
      if Process(d, 0).Abort? {
        assert env in d.sched && !InTurn(d, env);
      } else {
        var d' := Process(d, 0).value;
        assert Next(d, d');
        OrderlyNext(d0, d, d');
        NextKeeps(d0, d, d');
        ProcessConserves(d, 0, d');
        hide Inv, Orderly;
        DrainsIff(d0, d');
      }
    }
  }

  /** Replay completes: once every message whose ticket was in the table at the start has
      arrived again, draining the scheduler leaves the object with no ticket unexecuted.  It gets
      there if and only if the messages waiting are in order. */
  lemma CatchesUp(run: seq<Desk>, o: ObjId)
    requires Run(run) && Initial(run[0]) && o in run[0].chares && !run[0].chares[o].restarting
    requires var d0, d := run[0], run[|run| - 1];
      forall s, n :: TicketOf(d0.chares[o], s, n) > d0.chares[o].tProcessed ==> Env(s, o, n) in d.arrived
    ensures Drainable(run[|run| - 1]) && (Drain(run[|run| - 1]).Done? <==> Orderly(run[|run| - 1]))
    ensures Orderly(run[|run| - 1]) ==>
      var d' := Drain(run[|run| - 1]).value; o in d'.chares && d'.chares[o].tProcessed == d'.chares[o].tCount
  {
    var d0, d := run[0], run[|run| - 1];
    RunKeeps(run);
    DrainsIff(d0, d);
    hide Orderly;
    if Drain(d).Done? {
      DrainKeeps(d0, d);
      var d' := Drain(d).value;
      var c := d'.chares[o];
      if c.tProcessed < c.tCount {
        var tn := c.tProcessed + 1;
        assert Held(c, tn);
        var s, n :| TicketOf(c, s, n) == tn;
        var e := Env(s, o, n);
        assert TicketIn(d', e) == tn;
        if TicketIn(d0, e) != 0 {
          assert TicketOf(d0.chares[o], s, n) == tn;
        }
        IdleMeansMissing(d0, d', e);
      }
    }
  }

  // ---------------------------------------------------------------- a run that fails

  function Fresh(): Chare { Chare(0, 0, map[], false, 0, []) }

  /** Object 1 after the message with SN 5 of sender 7. */
  function AfterFive(): Chare { Chare(1, 1, map[7 := Row(5, map[5 := 1])], false, 0, []) }

  function FailingRun(): seq<Desk> {
    var five, three := Env(7, 1, 5), Env(7, 1, 3);
    [Desk(map[1 := Fresh()], [], [], [], [], [], []),
     Desk(map[1 := Fresh()], [five], [], [], [five], [], []),
     Desk(map[1 := AfterFive()], [], [], [], [five], [five], []),
     Desk(map[1 := AfterFive()], [three], [], [], [five, three], [five], [])]
  }

  lemma FiveRuns()
    ensures Process(FailingRun()[1], 0) == Done(FailingRun()[2])
  {
    var five, d := Env(7, 1, 5), FailingRun()[1];
    var t := Ticketed(AfterFive().(tProcessed := 0), 1, true, Execute);
    assert Filter(Fresh(), five) == Done(t);
    assert d.sched[0] == five && d.chares[1] == Fresh() && Finish(t.chare) == AfterFive();
    hide Filter, Fresh, AfterFive;
    assert Drop(d.sched, 0) + d.parked == [] && d.ran + [five] == [five];
    assert d.chares[1 := AfterFive()] == map[1 := AfterFive()];
  }

  lemma FreshStart()
    ensures Initial(FailingRun()[0])
  {
    assert Consistent(Fresh());
  }

  lemma ArrivalsNext()
    ensures Next(FailingRun()[0], FailingRun()[1]) && Next(FailingRun()[2], FailingRun()[3])
  {
    hide Process, Fresh, AfterFive;
    var run, five, three := FailingRun(), Env(7, 1, 5), Env(7, 1, 3);
    assert Known(run[0], five) && run[1] == Arrive(run[0], five);
    assert Known(run[2], three) && run[3] == Arrive(run[2], three);
  }

  /** Two messages of one sender arrive, the later one first: the earlier one trips the ticket
      table's assertion. */
  lemma LaterFirstFails()
    ensures Run(FailingRun()) && Initial(FailingRun()[0]) && Process(FailingRun()[3], 0).Abort?
  {
    FiveRuns();
    FreshStart();
    ArrivalsNext();
    var run := FailingRun();
    assert Process(run[3], 0).Abort?;
    assert |run| == 4 && 1 in run[1].chares && run[1].sched == [Env(7, 1, 5)];
    hide Process, FailingRun, Initial;
    assert Next(run[1], run[2]) by { assert run[1].sched[0].receiver in run[1].chares; }
    hide Next;
  }
}
