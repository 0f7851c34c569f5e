/** Recovery of a failed processor, over every run of the logging protocol.
 */
module MlogRecovery {
  import opened Tickets
  import opened Determinants
  import opened MlogSystem
  import opened MlogWatermark
  import opened Restart
  import TR = TicketRuns

  // ---------------------------------------------------------------- logs and tickets

  /** An object's part of its processor's log is exactly the tickets it gave out since the
      checkpoint, in order. */
  ghost predicate Logged(s: Sys, o: ObjId)
    requires Shape(s) && o in s.place
  {
    var dets := OfReceiver(s.pes[s.place[o]].win.log, o);
    Matches(s.saved[o], s.chares[o], dets, o)
  }

  ghost predicate Matches(c0: Chare, c: Chare, dets: seq<Det>, o: ObjId) {
    && Consistent(c0) && Consistent(c) && Keeps(c0, c)
    && c0.tCount == c0.tProcessed && !c.restarting && !c0.restarting
    && c.tCount == c0.tCount + |dets| && Consecutive(c0, dets, o)
    && (forall k :: 0 <= k < |dets| ==> TicketOf(c, dets[k].sender, dets[k].sn) == dets[k].tn)
  }

  lemma MatchesAfter(c0: Chare, c: Chare, dets: seq<Det>, env: Env)
    requires Matches(c0, c, dets, env.receiver) && env.sn > 0 && Filter(c, env).Done?
    ensures var t := Filter(c, env).value;
      Matches(c0, After(t), if t.isNew then dets + [Det(env.sender, env.receiver, env.sn, t.tn)] else dets, env.receiver)
  {
    var t := Filter(c, env).value;
    FilterKeeps(c, env);
    hide Consistent;
    if t.verdict == Execute { FinishKeeps(t.chare); }
    assert Keeps(t.chare, After(t)) && Consistent(After(t)) && After(t).tCount == t.chare.tCount;
    KeepsTrans(c0, c, t.chare);
    KeepsTrans(c0, t.chare, After(t));
    KeepsTrans(c, t.chare, After(t));
    var dets' := if t.isNew then dets + [Det(env.sender, env.receiver, env.sn, t.tn)] else dets;
    hide Filter, Keeps;
    TicketsAfter(c, After(t), dets, dets');
  }

  lemma TicketsAfter(c: Chare, c': Chare, dets: seq<Det>, dets': seq<Det>)
    requires Keeps(c, c') && (dets' == dets || (dets' != [] && dets'[..|dets'| - 1] == dets))
    requires forall k :: 0 <= k < |dets| ==> dets[k].tn > 0 && TicketOf(c, dets[k].sender, dets[k].sn) == dets[k].tn
    requires dets' != dets ==> var d := dets'[|dets'| - 1]; TicketOf(c', d.sender, d.sn) == d.tn
    ensures forall k :: 0 <= k < |dets'| ==> TicketOf(c', dets'[k].sender, dets'[k].sn) == dets'[k].tn
  {
    forall k | 0 <= k < |dets'|
      ensures TicketOf(c', dets'[k].sender, dets'[k].sn) == dets'[k].tn
    {
      if k < |dets| { assert dets'[k] == dets[k] && TicketOf(c, dets[k].sender, dets[k].sn) == dets[k].tn; }
    }
  }

  lemma KeepsTrans(a: Chare, b: Chare, c: Chare)
    requires Keeps(a, b) && Keeps(b, c)
    ensures Keeps(a, c)
  {
  }

  lemma LoggedReceive(s: Sys, env: Env, o: ObjId)
    requires Shape(s) && o in s.place && Logged(s, o) && Enabled(s, Receive(env)) && Shape(OnReceive(s, env))
    ensures Logged(OnReceive(s, env), o)
  {
    assert env.sn > 0 && Filter(s.chares[env.receiver], env).Done?;
    hide Matches, Filter, Enabled;
    var p := s.place[o];
    var t := Filter(s.chares[env.receiver], env).value;
    if t.isNew { OfReceiverAppend(s.pes[p].win.log, Det(env.sender, env.receiver, env.sn, t.tn), o); }
    if env.receiver == o { MatchesAfter(s.saved[o], s.chares[o], OfReceiver(s.pes[p].win.log, o), env); }
  }

  lemma LoggedKeeps(s: Sys, e: Event, s': Sys, o: ObjId)
    requires Shape(s) && o in s.place && Logged(s, o) && Enabled(s, e) && Step(s, e) == Done(s')
    ensures Shape(s') && o in s'.place && Logged(s', o)
  {
    StepShape(s, e, s');
    hide Consistent, Matches;
    var p := s.place[o];
    match e
    case Receive(env) => LoggedReceive(s, env, o);
    case Send(_, _) =>
    case Deliver(a, b) =>
      assert s'.pes[p].win.log == s.pes[p].win.log;
    case Collect =>
      MatchesFresh(s.saved[o], s.chares[o], OfReceiver(s.pes[p].win.log, o), o);
    case Fail(_, _) =>
  }

  lemma MatchesFresh(c0: Chare, c: Chare, dets: seq<Det>, o: ObjId)
    requires Matches(c0, c, dets, o) && c.tCount == c.tProcessed
    ensures Matches(c, c, [], o)
  {
  }

  // ---------------------------------------------------------------- replies

  /** A reply is still what its sender would answer now. */
  ghost predicate Answered(s: Sys, q: nat)
    requires Shape(s)
  {
    q in s.replies && s.failed >= 0 ==> q < |s.pes| && q != s.failed && s.replies[q] == Reply(s, s.failed, q)
  }

  /** A step changes what q keeps for an object of p only by delivering a store from p to q. */
  lemma KeptSame(s: Sys, e: Event, s': Sys, p: nat, q: nat, o: ObjId)
    requires Shape(s) && Home(s) && Enabled(s, e) && Step(s, e) == Done(s')
    requires p < |s.pes| && q < |s.pes| && p != q && o in s.place && s.place[o] == p
    requires s.net[p][q] == [] && s.failed == p
    ensures q < |s'.pes| && At(s'.pes[q].remote, o) == At(s.pes[q].remote, o)
  {
    StepShape(s, e, s');
    hide Filter;
    if e.Deliver? && e.dst == q && s.net[e.src][q][0].Store? {
      var dets := s.net[e.src][q][0].dets;
      assert CarriesOwn(s, e.src, q);
      StoreAllAt(s.pes[q].remote, dets, o);
      assert forall d :: d in dets ==> Owns(s, e.src, d);
      OfReceiverNone(dets, o);
    }
  }

  lemma AnsweredKeeps(s: Sys, e: Event, s': Sys, q: nat)
    requires Inv(s) && Enabled(s, e) && Step(s, e) == Done(s') && Answered(s, q)
    ensures Shape(s') && Answered(s', q)
  {
    StepShape(s, e, s');
    hide Filter, Watermark, Marked;
    if q in s'.replies && s'.failed >= 0 {
      var p := s.failed;
      if q in s.replies {
        assert LinkOk(s, p, q);
        assert s'.replies[q] == s.replies[q] && s'.saved == s.saved by {
          if e.Deliver? { assert LinkOk(s, e.src, e.dst); }
        }
        forall o | o in s.place && s.place[o] == p
          ensures At(s'.pes[q].remote, o) == At(s.pes[q].remote, o)
        {
          KeptSame(s, e, s', p, q, o);
        }
        assert Reply(s', p, q) == Reply(s, p, q);
      } else {
        assert LinkOk(s, e.src, q);
      }
    }
  }

  /** Determinants are filed under their receiver. */
  ghost predicate Filed(remote: map<ObjId, seq<Det>>) {
    forall o, d :: d in At(remote, o) ==> d.receiver == o
  }

  lemma StoreAllFiled(remote: map<ObjId, seq<Det>>, dets: seq<Det>)
    requires Filed(remote)
    ensures Filed(StoreAll(remote, dets))
  {
    forall o, d | d in At(StoreAll(remote, dets), o)
      ensures d.receiver == o
    {
      StoreAllAt(remote, dets, o);
      OfReceiverMember(dets, o);
    }
  }

  lemma FiledKeeps(s: Sys, e: Event, s': Sys, q: nat)
    requires Shape(s) && Enabled(s, e) && Step(s, e) == Done(s') && q < |s.pes| && Filed(s.pes[q].remote)
    ensures q < |s'.pes| && Filed(s'.pes[q].remote)
  {
    hide Filter;
    if e.Deliver? && s.net[e.src][e.dst][0].Store? {
      StoreAllFiled(s.pes[q].remote, s.net[e.src][e.dst][0].dets);
    }
  }

  // ---------------------------------------------------------------- every run

  ghost predicate Init(s: Sys) {
    && Shape(s) && s.failed == -1 && s.replies == map[] && s.saved == s.chares
    && (forall p :: 0 <= p < |s.pes| ==> s.pes[p] == Pe(Window([], 0, 0), map[]) && s.heard[p] == 0)
    && (forall p, q :: 0 <= p < |s.pes| && 0 <= q < |s.pes| ==> s.net[p][q] == [])
    && (forall o :: o in s.chares ==> s.chares[o] == Chare(0, 0, map[], false, 0, []))
  }

  ghost predicate Good(s: Sys) {
    && Inv(s)
    && (forall o :: o in s.place ==> Logged(s, o))
    && (forall q :: q in s.replies ==> Answered(s, q))
    && (forall q :: 0 <= q < |s.pes| ==> Filed(s.pes[q].remote))
  }

  ghost predicate Next(s: Sys, s': Sys) {
    Shape(s) && exists e :: Enabled(s, e) && Step(s, e) == Done(s')
  }

  ghost predicate Run(run: seq<Sys>) {
    |run| > 0 && Init(run[0]) && forall k :: 0 <= k < |run| - 1 ==> Next(run[k], run[k + 1])
  }

  lemma InitGood(s: Sys)
    requires Init(s)
    ensures Good(s)
  {
    forall p | 0 <= p < |s.pes|
      ensures Marked(s, p)
    {
      assert forall d :: !Stored(s, p, d);
      assert Watermark(s, p, 0);
    }
  }

  lemma NextGood(s: Sys, s': Sys)
    requires Good(s) && Next(s, s')
    ensures Good(s')
  {
    hide Inv, Logged, Answered, Step, Enabled, Filed;
    var e :| Enabled(s, e) && Step(s, e) == Done(s');
    StepKeeps(s, e, s');
    StepShape(s, e, s');
    forall o | o in s'.place
      ensures Logged(s', o)
    {
      LoggedKeeps(s, e, s', o);
    }
    forall q | q in s'.replies
      ensures Answered(s', q)
    {
      if q !in s.replies { Unanswered(s, q); }
      AnsweredKeeps(s, e, s', q);
    }
    forall q | 0 <= q < |s'.pes|
      ensures Filed(s'.pes[q].remote)
    {
      FiledKeeps(s, e, s', q);
    }
  }

  lemma Unanswered(s: Sys, q: nat)
    requires Shape(s) && q !in s.replies
    ensures Answered(s, q)
  {
  }

  lemma {:induction false} RunGood(run: seq<Sys>)
    requires Run(run)
    ensures Good(run[|run| - 1])
  {
    if |run| == 1 {
      InitGood(run[0]);
    } else {
      RunGood(run[..|run| - 1]);
      NextGood(run[|run| - 2], run[|run| - 1]);
    }
  }

  /** In every run, while nobody or only p has failed: what the other processors keep of p's
      determinants is its log up to some point w; w is at least everything p no longer
      resends, and at least everything a delivered message of p depends on; and a message
      of p still under way depends on no more than w, or follows a store that reaches far
      enough on the same channel. */
  lemma StoredIsPrefix(run: seq<Sys>, p: nat) returns (w: nat)
    requires Run(run)
    requires var s := run[|run| - 1]; p < |s.pes| && (s.failed < 0 || s.failed == p)
    ensures var s := run[|run| - 1];
      var win := s.pes[p].win;
      && Shape(s) && |win.log| - win.num <= w <= |win.log| && s.heard[p] <= w
      && (forall d :: Owns(s, p, d) ==> (Stored(s, p, d) <==> d in win.log[..w]))
      && (forall q, j :: 0 <= q < |s.pes| && q != p && 0 <= j < |s.net[p][q]| && s.net[p][q][j].App? ==>
            s.net[p][q][j].index <= w || Covered(s.net[p][q], j, s.net[p][q][j].index))
  {
    RunGood(run);
    var s := run[|run| - 1];
    assert Marked(s, p);
    w :| Watermark(s, p, w);
    forall q, j | 0 <= q < |s.pes| && q != p && 0 <= j < |s.net[p][q]| && s.net[p][q][j].App?
      ensures s.net[p][q][j].index <= w || Covered(s.net[p][q], j, s.net[p][q][j].index)
    {
      assert FromOk(s.net[p][q], s.pes[p].win, w);
    }
  }

  // ---------------------------------------------------------------- no packet is ahead of its log

  /** Of this phase or an earlier one, and in this phase not beyond the log. */
  ghost predicate Within(win: Window, phase: nat, index: nat) {
    phase <= win.phase && (phase == win.phase ==> index <= |win.log|)
  }

  ghost predicate PacketOk(from: Window, to: Window, k: Packet) {
    && (k.Store? ==> Within(from, k.phase, k.index))
    && (k.Ack? ==> Within(to, k.phase, k.index))
  }

  ghost predicate ChannelOk(s: Sys, p: nat, q: nat)
    requires Shape(s) && p < |s.pes| && q < |s.pes|
  {
    forall k :: k in s.net[p][q] ==> PacketOk(s.pes[p].win, s.pes[q].win, k)
  }

  ghost predicate Bounded(s: Sys) {
    Shape(s) && forall p, q :: 0 <= p < |s.pes| && 0 <= q < |s.pes| ==> ChannelOk(s, p, q)
  }

  ghost predicate Later(win: Window, win': Window) {
    win.phase < win'.phase || (win.phase == win'.phase && |win.log| <= |win'.log|)
  }

  lemma WindowsGrow(s: Sys, e: Event, s': Sys, p: nat)
    requires Shape(s) && Enabled(s, e) && Step(s, e) == Done(s') && p < |s.pes| && |s'.pes| == |s.pes|
    ensures Later(s.pes[p].win, s'.pes[p].win)
  {
    hide Filter;
    match e
    case Receive(_) =>
    case Send(_, _) =>
    case Deliver(a, b) => if s.net[a][b][0].Ack? { } else { }
    case Collect =>
    case Fail(_, _) =>
  }

  lemma DeliveredFrom(s: Sys, a: nat, b: nat, s': Sys, p: nat, q: nat, k: Packet)
    requires Shape(s) && Shape(s') && Enabled(s, Deliver(a, b)) && OnDeliver(s, a, b) == Done(s') && |s'.pes| == |s.pes|
    requires p < |s.pes| && q < |s.pes| && k in s'.net[p][q]
    ensures k in s.net[p][q] || (s.net[q][p] != [] && s.net[q][p][0].Store? && k == Ack(s.net[q][p][0].phase, s.net[q][p][0].index))
  {
    hide StoreAll, OnAck;
    match s.net[a][b][0]
    case Store(_, _, _) =>
    case Ack(_, _) =>
    case App(_) =>
    case Request =>
  }

  /** A packet was on its channel before, or is a store of the whole window, or acknowledges the
      store just delivered. */
  lemma WhereFrom(s: Sys, e: Event, s': Sys, p: nat, q: nat, k: Packet)
    requires Shape(s) && Shape(s') && Enabled(s, e) && Step(s, e) == Done(s') && |s'.pes| == |s.pes|
    requires p < |s.pes| && q < |s.pes| && k in s'.net[p][q]
    ensures
      || k in s.net[p][q] || k.App? || k.Request?
      || (k.Store? && k.phase == s.pes[p].win.phase && k.index == |s.pes[p].win.log|)
      || (s.net[q][p] != [] && s.net[q][p][0].Store? && k == Ack(s.net[q][p][0].phase, s.net[q][p][0].index))
  {
    hide Filter, OnDeliver;
    match e
    case Receive(_) =>
    case Send(_, _) =>
    case Deliver(a, b) => DeliveredFrom(s, a, b, s', p, q, k);
    case Collect =>
    case Fail(_, _) =>
  }

  lemma StepBounded(s: Sys, e: Event, s': Sys)
    requires Bounded(s) && Enabled(s, e) && Step(s, e) == Done(s')
    ensures Bounded(s')
  {
    StepShape(s, e, s');
    hide Step, Enabled;
    forall p: nat, q: nat | p < |s'.pes| && q < |s'.pes|
      ensures ChannelOk(s', p, q)
    {
      assert ChannelOk(s, p, q) && ChannelOk(s, q, p);
      WindowsGrow(s, e, s', p);
      WindowsGrow(s, e, s', q);
      forall k | k in s'.net[p][q]
        ensures PacketOk(s'.pes[p].win, s'.pes[q].win, k)
      {
        WhereFrom(s, e, s', p, q, k);
        if k !in s.net[p][q] && k.Ack? { assert PacketOk(s.pes[q].win, s.pes[p].win, s.net[q][p][0]); }
      }
    }
  }

  lemma {:induction false} RunBounded(run: seq<Sys>)
    requires Run(run)
    ensures Bounded(run[|run| - 1])
  {
    hide Step, Enabled;
    var n := |run| - 1;
    if n > 0 {
      assert Next(run[n - 1], run[n]);
      RunBounded(run[..n]);
      var e :| Enabled(run[n - 1], e) && Step(run[n - 1], e) == Done(run[n]);
      hide Bounded;
      StepBounded(run[n - 1], e, run[n]);
    }
  }

  /** In every run, whether or not a processor has failed, no packet handler trips its assertion. */
  lemma HandlersNeverAbort(run: seq<Sys>, e: Event)
    requires Run(run) && Shape(run[|run| - 1]) && Enabled(run[|run| - 1], e)
    ensures Step(run[|run| - 1], e).Done?
  {
    RunBounded(run);
    var s := run[|run| - 1];
    if e.Deliver? && s.net[e.src][e.dst][0].Ack? {
      assert ChannelOk(s, e.src, e.dst);
      assert PacketOk(s.pes[e.src].win, s.pes[e.dst].win, s.net[e.src][e.dst][0]);
    }
  }

  // ---------------------------------------------------------------- recovery

  /** Replies are handled in some order of the survivors, each once. */
  ghost predicate SurvivorOrder(s: Sys, order: seq<nat>) {
    && |order| == |s.pes| - 1
    && (forall q :: q in order <==> q < |s.pes| && q != s.failed)
    && (forall q :: q in order ==> q in s.replies)
  }

  function ListsFor(s: Sys, order: seq<nat>, o: ObjId): (lists: seq<seq<Det>>)
    requires forall q :: q in order ==> q in s.replies && o in s.replies[q]
    ensures |lists| == |order| && forall i :: 0 <= i < |order| ==> lists[i] == s.replies[order[i]][o]
  {
    seq(|order|, i requires 0 <= i < |order| => assert order[i] in order; s.replies[order[i]][o])
  }

  lemma {:induction false} ConcatMember(lists: seq<seq<Det>>, d: Det)
    ensures d in Concat(lists) <==> exists i :: 0 <= i < |lists| && d in lists[i]
  {
    if lists != [] {
      var front := lists[..|lists| - 1];
      ConcatMember(front, d);
      assert forall i :: 0 <= i < |front| ==> front[i] == lists[i];
      if d in Concat(front) {
        var i :| 0 <= i < |front| && d in front[i];
        assert d in lists[i];
      }
    }
  }

  lemma {:induction false} SelectAll(dets: seq<Det>, tProcessed: nat)
    requires forall i :: 0 <= i < |dets| ==> dets[i].tn > tProcessed
    ensures Select(dets, tProcessed) == dets
  {
    if dets != [] { SelectAll(dets[..|dets| - 1], tProcessed); }
  }

  /** The replies together hold exactly the object's part of the stored prefix. */
  lemma RepliesHoldPrefix(s: Sys, o: ObjId, order: seq<nat>, w: nat)
    requires Good(s) && s.failed >= 0 && o in s.place && s.place[o] == s.failed
    requires SurvivorOrder(s, order) && Watermark(s, s.failed, w)
    ensures forall q :: q in order ==> q in s.replies && o in s.replies[q]
    ensures forall d :: d in Concat(ListsFor(s, order, o)) <==> d in OfReceiver(s.pes[s.failed].win.log[..w], o)
  {
    var p := s.failed;
    var log := s.pes[p].win.log;
    var c0 := s.saved[o];
    forall q | q in order
      ensures q in s.replies && o in s.replies[q] && s.replies[q][o] == At(s.pes[q].remote, o)
    {
      assert Answered(s, q);
      KeptIsRecent(s, o, q, w);
      SelectAll(At(s.pes[q].remote, o), c0.tProcessed);
    }
    var lists := ListsFor(s, order, o);
    forall d
      ensures d in Concat(lists) <==> d in OfReceiver(log[..w], o)
    {
      ConcatMember(lists, d);
      OfReceiverMember(log[..w], o);
      if d.receiver == o {
        assert Owns(s, p, d);
        assert Stored(s, p, d) <==> d in log[..w];
        if Stored(s, p, d) {
          var q :| 0 <= q < |s.pes| && q != p && d in At(s.pes[q].remote, o);
          assert q in order;
          var i :| 0 <= i < |order| && order[i] == q;
          assert d in lists[i];
        }
        if d in Concat(lists) {
          var i :| 0 <= i < |lists| && d in lists[i];
          assert order[i] in order;
        }
      } else if d in Concat(lists) {
        var i :| 0 <= i < |lists| && d in lists[i];
        assert order[i] in order;
        KeptIsRecent(s, o, order[i], w);
      }
    }
  }

  /** What a survivor keeps for an object is about that object and past the checkpoint. */
  lemma KeptIsRecent(s: Sys, o: ObjId, q: nat, w: nat)
    requires Good(s) && s.failed >= 0 && o in s.place && s.place[o] == s.failed
    requires q < |s.pes| && q != s.failed && Watermark(s, s.failed, w)
    ensures forall i :: 0 <= i < |At(s.pes[q].remote, o)| ==>
      At(s.pes[q].remote, o)[i].receiver == o && At(s.pes[q].remote, o)[i].tn > s.saved[o].tProcessed
  {
    var p := s.failed;
    var log := s.pes[p].win.log;
    var kept := At(s.pes[q].remote, o);
    assert Filed(s.pes[q].remote) && Logged(s, o);
    forall i | 0 <= i < |kept|
      ensures kept[i].receiver == o && kept[i].tn > s.saved[o].tProcessed
    {
      var d := kept[i];
      assert d in At(s.pes[q].remote, o) && d.receiver == o;
      assert Stored(s, p, d) && Owns(s, p, d);
      assert d in log[..w] && d in log;
      OfReceiverMember(log, o);
      var k :| 0 <= k < |OfReceiver(log, o)| && OfReceiver(log, o)[k] == d;
    }
  }

  lemma PrefixConsecutive(c0: Chare, dets: seq<Det>, kept: seq<Det>, o: ObjId)
    requires Consecutive(c0, dets, o) && kept <= dets
    ensures Consecutive(c0, kept, o)
  {
  }

  lemma ConsecutiveAgrees(c0: Chare, kept: seq<Det>, dets: seq<Det>, o: ObjId)
    requires Consecutive(c0, kept, o) && forall d :: d in dets <==> d in kept
    ensures Agreeing(c0, dets) && forall d :: d in dets ==> d.receiver == o && d.tn > 0
  {
    forall d, d' | d in dets && d' in dets && d.sender == d'.sender && d.sn == d'.sn
      ensures d.tn == d'.tn
    {
      var i :| 0 <= i < |kept| && kept[i] == d;
      var j :| 0 <= j < |kept| && kept[j] == d';
      assert i == j;
    }
  }

  /** Two objects with the same table and counters are equally consistent. */
  lemma SameTable(a: Chare, b: Chare)
    requires a.rows == b.rows && a.tCount == b.tCount && a.tProcessed == b.tProcessed && Consistent(a)
    ensures Consistent(b) && forall s, n :: TicketOf(a, s, n) == TicketOf(b, s, n)
  {
    assert forall s, n :: TicketOf(a, s, n) == TicketOf(b, s, n);
    forall tn | 1 <= tn <= b.tCount
      ensures Held(b, tn)
    {
      assert Held(a, tn);
    }
  }

  /** What one object has after all replies, given that they hold exactly `kept`. */
  ghost predicate RestoredTo(c0: Chare, before: Chare, kept: seq<Det>, c: Chare) {
    && Consistent(c) && !c.restarting && Keeps(c, before)
    && c.tProcessed == c0.tProcessed && c.tCount == c0.tCount + |kept|
    && (forall k :: 0 <= k < |kept| ==> TicketOf(c, kept[k].sender, kept[k].sn) == kept[k].tn == c0.tCount + k + 1)
  }

  lemma RestoredAgrees(c0: Chare, before: Chare, all: seq<Det>, kept: seq<Det>, dets: seq<Det>, o: ObjId, c: Chare)
    requires Matches(c0, before, all, o) && kept <= all && (forall d :: d in dets <==> d in kept) && Keeps(c0, c)
    requires forall s, n :: TicketOf(c, s, n) != 0 && TicketOf(c0, s, n) == 0 ==> Det(s, o, n, TicketOf(c, s, n)) in dets
    ensures Keeps(c, before)
  {
    hide Consistent;
    forall s, n | TicketOf(c, s, n) != 0
      ensures TicketOf(before, s, n) == TicketOf(c, s, n)
    {
      if TicketOf(c0, s, n) == 0 {
        var d := Det(s, o, n, TicketOf(c, s, n));
        assert d in kept;
        var k :| 0 <= k < |kept| && kept[k] == d;
        assert all[k] == d;
      }
    }
  }

  lemma RestoreDone(c0: Chare, before: Chare, all: seq<Det>, kept: seq<Det>, o: ObjId, dets: seq<Det>, c: Chare)
    requires Matches(c0, before, all, o) && kept <= all && (forall d :: d in dets <==> d in kept)
    requires RestoreDets(c0, dets).Done?
    requires c == c0.(rows := RestoreDets(c0, dets).value.rows, restarting := false, replies := 0, received := [],
                      tCount := if dets == [] then c0.tCount else MaxTn(Tns(dets)))
    ensures RestoredTo(c0, before, kept, c)
  {
    PrefixConsecutive(c0, all, kept, o);
    var c1 := RestoreDets(c0, dets).value;
    var c2 := c1.(tCount := c.tCount, restarting := false);
    RestoredRest(c0, dets);
    assert forall d :: d in dets ==> d.receiver == o && d.tn > 0;
    RestoredTable(c0, dets, o);
    RestoredAgrees(c0, before, all, kept, dets, o, c1);
    RestoredConsistent(c0, dets, kept, o);
    hide Consistent, RestoreDets, TicketOf;
    SameTable(c2, c);
    SameTickets(c1, c);
  }

  lemma RestoreObject(c0: Chare, before: Chare, all: seq<Det>, kept: seq<Det>, o: ObjId, lists: seq<seq<Det>>, numPes: nat)
    requires Matches(c0, before, all, o) && kept <= all
    requires numPes >= 2 && |lists| == numPes - 1 && forall d :: d in Concat(lists) <==> d in kept
    ensures var r := OnReplies(Begin(c0), lists, numPes);
      && (r.Abort? <==> Misordered(c0, Concat(lists)))
      && (r.Done? ==> RestoredTo(c0, before, kept, r.value))
  {
    var dets := Concat(lists);
    PrefixConsecutive(c0, all, kept, o);
    ConsecutiveAgrees(c0, kept, dets, o);
    hide Consistent, Consecutive, RestoreDets, Misordered, OnReplies, Agreeing, RestoredTo, Matches, Concat;
    RestoreAbortsWhen(c0, dets, o);
    RepliesAsOne(c0, lists, numPes);
    if RestoreDets(c0, dets).Done? {
      RestoreDone(c0, before, all, kept, o, dets, OnReplies(Begin(c0), lists, numPes).value);
    }
  }

  lemma SameTickets(a: Chare, b: Chare)
    requires a.rows == b.rows
    ensures forall s, n :: TicketOf(b, s, n) == TicketOf(a, s, n)
  {
  }

  lemma {:induction false} RestoredRest(c0: Chare, dets: seq<Det>)
    requires RestoreDets(c0, dets).Done?
    ensures RestoreDets(c0, dets).value == c0.(rows := RestoreDets(c0, dets).value.rows)
  {
    if dets != [] { RestoredRest(c0, dets[..|dets| - 1]); }
  }

  /** After a failure, once every survivor has answered and whatever order the answers are
      handled in: an object of the failed processor either trips the ticket table's assertion,
      exactly when a sender's determinants arrive misordered, or resumes with the tickets of a
      prefix of its log that covers everything a delivered message depended on - contiguous
      from the checkpoint on, each with the pair that held it before the failure. */
  lemma RecoveryRestores(run: seq<Sys>, o: ObjId, order: seq<nat>) returns (w: nat)
    requires Run(run)
    requires var s := run[|run| - 1];
      s.failed >= 0 && o in s.place && s.place[o] == s.failed && SurvivorOrder(s, order) && |s.pes| >= 2
    ensures var s := run[|run| - 1];
      && Shape(s) && s.heard[s.failed] <= w <= |s.pes[s.failed].win.log|
      && (forall q :: q in order ==> q in s.replies && o in s.replies[q])
    ensures var s := run[|run| - 1];
      var kept := OfReceiver(s.pes[s.failed].win.log[..w], o);
      var lists := ListsFor(s, order, o);
      var r := OnReplies(Begin(s.saved[o]), lists, |s.pes|);
      && (r.Abort? <==> Misordered(s.saved[o], Concat(lists)))
      && (r.Done? ==> RestoredTo(s.saved[o], s.chares[o], kept, r.value))
  {
    RunGood(run);
    var s := run[|run| - 1];
    var p := s.failed;
    assert Marked(s, p);
    w :| Watermark(s, p, w);
    RepliesHoldPrefix(s, o, order, w);
    var log := s.pes[p].win.log;
    OfReceiverPrefix(log, w, o);
    assert Logged(s, o);
    hide Watermark, Good, Matches, RestoredTo, Misordered;
    RestoreObject(s.saved[o], s.chares[o], OfReceiver(log, o), OfReceiver(log[..w], o), o,
                  ListsFor(s, order, o), |s.pes|);
  }

  /** A restored object that sees its messages again - in any order, any number of times -
      executes first those whose determinants were kept, in the order of the log. */
  lemma ReplayFollowsKept(c0: Chare, before: Chare, kept: seq<Det>, c: Chare, o: ObjId, desks: seq<TR.Desk>, k: nat)
    requires RestoredTo(c0, before, kept, c) && c0.tCount == c0.tProcessed
    requires TR.Run(desks) && TR.Initial(desks[0]) && o in desks[0].chares && desks[0].chares[o] == c
    requires var d := desks[|desks| - 1]; k < |kept| && k < |TR.RunsOf(d.ran, o)|
    ensures var e := TR.RunsOf(desks[|desks| - 1].ran, o)[k];
      e == Env(kept[k].sender, o, kept[k].sn)
  {
    var d := desks[|desks| - 1];
    TR.ExecutesTicketsInOrder(desks, o);
    TR.TicketIsForever(desks, 0, o);
    var runs := TR.RunsOf(d.ran, o);
    var e := runs[k];
    TR.RunsOfMember(d.ran, o);
    assert e in runs && e.receiver == o;
    assert TR.TicketIn(d, e) == c0.tCount + k + 1;
    assert TicketOf(d.chares[o], kept[k].sender, kept[k].sn) == kept[k].tn;
  }

  /** Two runs of an object, before the failure from the checkpoint on (`pre`) and after its restart
      (`post`): as far as determinants were kept, it executes the same messages in the same order. */
  lemma ReplayRepeatsOrder(c0: Chare, before: Chare, kept: seq<Det>, c: Chare, o: ObjId,
                           pre: seq<TR.Desk>, post: seq<TR.Desk>, k: nat)
    requires RestoredTo(c0, before, kept, c) && c0.tCount == c0.tProcessed
    requires TR.Run(pre) && TR.Initial(pre[0]) && o in pre[0].chares && pre[0].chares[o] == c0
    requires o in pre[|pre| - 1].chares && pre[|pre| - 1].chares[o] == before
    requires TR.Run(post) && TR.Initial(post[0]) && o in post[0].chares && post[0].chares[o] == c
    requires k < |kept| && k < |TR.RunsOf(pre[|pre| - 1].ran, o)| && k < |TR.RunsOf(post[|post| - 1].ran, o)|
    ensures TR.RunsOf(post[|post| - 1].ran, o)[k] == TR.RunsOf(pre[|pre| - 1].ran, o)[k]
  {
    var d := pre[|pre| - 1];
    ReplayFollowsKept(c0, before, kept, c, o, post, k);
    TR.ExecutesTicketsInOrder(pre, o);
    TR.RunsOfMember(d.ran, o);
    var e := TR.RunsOf(d.ran, o)[k];
    assert e in TR.RunsOf(d.ran, o) && TR.TicketIn(d, e) == c0.tCount + k + 1;
    assert TicketOf(before, kept[k].sender, kept[k].sn) == kept[k].tn;
  }
}
