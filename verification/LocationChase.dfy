/** Which messages catch up with an element that has moved: exactly those for which the chain of
    beliefs leads there.  Location updates carry no age, so a late one can close a circle, in which
    a message is passed on for ever.
 */
module LocationChase {
  import opened Seqs
  import opened Options
  import opened Location
  import opened LocationSystem
  import opened LocationRuns
  import opened LocationPaths

  /** Where k beliefs lead, starting with those of q. */
  ghost function Way(s: Sys, id: Id, q: Pe, k: nat): Pe {
    if k == 0 then q
    else
      var r := Way(s, id, q, k - 1);
      if r < |s.locs| && id in s.locs[r].id2pe then s.locs[r].id2pe[id] else r
  }

  /** The element a message is for is on processor r. */
  ghost predicate Lives(s: Sys, id: Id, mgr: Mgr, r: Pe) {
    r < |s.locs| && id in s.locs[r].hash && mgr < s.locs[r].managers && mgr in s.locs[r].hash[id].elts
  }

  /** Everybody has a belief, and it is a processor. */
  ghost predicate AllBelieve(s: Sys, id: Id) {
    forall r :: 0 <= r < |s.locs| ==> id in s.locs[r].id2pe && s.locs[r].id2pe[id] < |s.locs|
  }

  /** The record, if on r, has the element. */
  ghost predicate Whole(s: Sys, id: Id, mgr: Mgr) {
    forall r :: 0 <= r < |s.locs| && id in s.locs[r].hash ==> Lives(s, id, mgr, r)
  }

  /** The first mail under way is delivered, again and again. */
  ghost predicate Deliveries(cfg: Config, states: seq<Sys>) {
    states != [] && forall i :: 0 <= i < |states| - 1 ==>
      Enabled(cfg, states[i], Deliver(0)) && states[i + 1] == Step(cfg, states[i], Deliver(0))
  }

  ghost function UnderWay(s: Sys, id: Id, q: Pe, x: Parcel, k: nat): Sys {
    s.(net := [Mail(Way(s, id, q, k), Data(Parcel(x.msg, x.hops + k), id))])
  }

  lemma {:induction false} WayInside(s: Sys, id: Id, q: Pe, k: nat)
    requires AllBelieve(s, id) && q < |s.locs|
    ensures Way(s, id, q, k) < |s.locs|
  {
    if k > 0 { WayInside(s, id, q, k - 1); }
  }

  lemma PassedOn(cfg: Config, s: Sys, id: Id, q: Pe, x: Parcel, k: nat)
    requires AllBelieve(s, id) && Shape(cfg, s) && q < |s.locs|
    requires Way(s, id, q, k) < |s.locs| && id !in s.locs[Way(s, id, q, k)].hash
    ensures Enabled(cfg, UnderWay(s, id, q, x, k), Deliver(0))
    ensures Step(cfg, UnderWay(s, id, q, x, k), Deliver(0)) == UnderWay(s, id, q, x, k + 1)
  {
    var r, t := Way(s, id, q, k), UnderWay(s, id, q, x, k);
    var y := Parcel(x.msg, x.hops + k);
    assert OnPacket(cfg, s.locs[r], Data(y, id)) == Some(Effect(s.locs[r], [Mail(s.locs[r].id2pe[id], Data(Hop(y), id))], []));
    assert Way(s, id, q, k + 1) == s.locs[r].id2pe[id];
    hide OnPacket, Way;
    assert s.locs[r := s.locs[r]] == s.locs;
    assert Drop(t.net, 0) == [];
  }

  lemma Executed(cfg: Config, s: Sys, id: Id, q: Pe, x: Parcel, k: nat)
    requires Shape(cfg, s) && Lives(s, id, x.msg.mgr, Way(s, id, q, k))
    ensures Enabled(cfg, UnderWay(s, id, q, x, k), Deliver(0))
    ensures Step(cfg, UnderWay(s, id, q, x, k), Deliver(0)).ran == s.ran + [x.msg]
  {
    ExecutedHere(cfg, s.locs[Way(s, id, q, k)], Parcel(x.msg, x.hops + k), id);
    hide OnPacket, Way;
  }

  /** As long as the chain has not led to the element, the message is passed along it and nothing
      else happens. */
  lemma {:induction false} FollowsBeliefs(cfg: Config, states: seq<Sys>, s: Sys, id: Id, q: Pe, x: Parcel, n: nat)
    requires Deliveries(cfg, states) && n < |states| && Shape(cfg, s) && AllBelieve(s, id) && Whole(s, id, x.msg.mgr) && q < |s.locs|
    requires states[0] == s.(net := [Mail(q, Data(x, id))])
    requires forall k :: 0 <= k < n ==> !Lives(s, id, x.msg.mgr, Way(s, id, q, k))
    ensures states[n] == UnderWay(s, id, q, x, n)
  {
    if n > 0 {
      hide Lives, Step, Enabled, Way;
      FollowsBeliefs(cfg, states, s, id, q, x, n - 1);
      WayInside(s, id, q, n - 1);
      assert !Lives(s, id, x.msg.mgr, Way(s, id, q, n - 1));
      PassedOn(cfg, s, id, q, x, n - 1);
    }
  }

  /** The exact condition: with nothing else going on, a message is executed at its n-th delivery
      if and only if n beliefs lead to the element and fewer do not. */
  lemma CaughtUpIff(cfg: Config, states: seq<Sys>, s: Sys, id: Id, q: Pe, x: Parcel, n: nat)
    requires Deliveries(cfg, states) && |states| == n + 2 && Shape(cfg, s) && AllBelieve(s, id) && Whole(s, id, x.msg.mgr) && q < |s.locs|
    requires states[0] == s.(net := [Mail(q, Data(x, id))])
    requires forall k :: 0 <= k < n ==> !Lives(s, id, x.msg.mgr, Way(s, id, q, k))
    ensures states[n].ran == s.ran
    ensures states[n + 1].ran == s.ran + [x.msg] <==> Lives(s, id, x.msg.mgr, Way(s, id, q, n))
  {
    FollowsBeliefs(cfg, states, s, id, q, x, n);
    assert states[n + 1] == Step(cfg, states[n], Deliver(0));
    hide Deliveries, Step, Enabled, Way;
    if Lives(s, id, x.msg.mgr, Way(s, id, q, n)) {
      Executed(cfg, s, id, q, x, n);
    } else {
      WayInside(s, id, q, n);
      hide Lives;
      PassedOn(cfg, s, id, q, x, n);
      assert |s.ran| < |s.ran + [x.msg]|;
    }
  }

  // ---------------------------------------------------------------- a circle

  /** Three processors with a compressor; every index has its home on processor 2. */
  function Three(): Config { Config(3, true, (i: Idx) => 2, (i: Idx) => i, (i: Id) => i) }

  /** A processor that believes the element to be on `pe`, if any, and has it or not. */
  function Simple(me: Pe, pe: map<Id, Pe>, here: bool): Loc {
    Loc(me, 1, map[], pe, if here then map[5 := Rec(5, {0})] else map[], Held(map[], map[], map[], map[]), map[], 0)
  }

  function Think(pe: Pe): map<Id, Pe> { map[5 := pe] }

  function Early(): Msg { Msg(0, 1, 5, 0, false) }

  function Carried(): Packet { Migrate(5, 5, 1, {0}) }

  lemma InformSimply(l: Loc, pe: Pe)
    requires l.held == Held(map[], map[], map[], map[]) && l.requests == map[] && l.id2pe.Keys <= {5}
    ensures InformIdx(Three(), l, 5, 5, pe) == Effect(l.(id2pe := Think(pe)), [], [])
    ensures OnUpdateIdx(Three(), l, 5, 5, pe) == Effect(l.(id2pe := Think(pe)), [], [])
    ensures OnUpdateId(l, 5, pe) == Effect(l.(id2pe := Think(pe)), [], [])
  {
    var none: Buffer := map[];
    assert none - {5} == none && l.requests - {5} == map[];
    assert l.id2pe[5 := pe] == Think(pe);
  }

  lemma Creates()
    ensures AddElement(Three(), Simple(0, map[], false), 5, 0) == Some(Effect(Simple(0, Think(0), true), [Mail(2, UpdateIdx(5, 5, 0))], []))
    ensures NewId(Three(), Simple(0, map[], false), 5).1 == 5
  {
    var l := Simple(0, map[], false);
    assert l.hash[5 := Rec(5, {0})] == map[5 := Rec(5, {0})];
    InformSimply(l.(hash := map[5 := Rec(5, {0})]), 0);
    hide InformIdx;
    assert [] + [Mail(2, UpdateIdx(5, 5, 0))] == [Mail(2, UpdateIdx(5, 5, 0))];
  }

  lemma Leaves(me: Pe, to: Pe)
    requires me != 2 && to != me
    ensures 5 in Simple(me, Think(me), true).hash
    ensures Emigrate(Three(), Simple(me, Think(me), true), 5, to) ==
      Effect(Simple(me, Think(to), false), [Mail(to, Carried())] + (if to == 2 then [] else [Mail(2, UpdateIdx(5, 5, to))]), [])
  {
    var l := Simple(me, Think(me), true);
    assert l.hash - {5} == map[];
    InformSimply(l.(hash := l.hash - {5}), to);
  }

  lemma Arrives(me: Pe, pe: Pe)
    ensures OnPacket(Three(), Simple(me, Think(pe), false), Carried()) == Some(Effect(Simple(me, Think(me), true), [], []))
  {
    var l := Simple(me, Think(pe), false);
    InformSimply(l.(hash := l.hash[5 := Rec(5, {0})]), me);
  }

  lemma Hears(me: Pe, was: map<Id, Pe>, here: bool, pe: Pe)
    requires was.Keys <= {5}
    ensures OnPacket(Three(), Simple(me, was, here), UpdateIdx(5, 5, pe)) == Some(Effect(Simple(me, Think(pe), here), [], []))
    ensures OnPacket(Three(), Simple(me, was, here), UpdateId(5, pe)) == Some(Effect(Simple(me, Think(pe), here), [], []))
  {
    InformSimply(Simple(me, was, here), pe);
  }

  lemma Sends()
    ensures SendMsg(Three(), Simple(1, map[], false), Early(), true) ==
      Effect(Simple(1, Think(2), false), [Mail(2, Data(Parcel(Early(), 1), 5))], [])
  {
    var none: map<Id, Pe> := map[];
    assert none[5 := 2] == Think(2);
  }

  lemma Passes()
    ensures OnPacket(Three(), Simple(2, Think(0), false), Data(Parcel(Early(), 1), 5)) ==
      Some(Effect(Simple(2, Think(0), false), [Mail(0, Data(Parcel(Early(), 2), 5))], []))
    ensures OnPacket(Three(), Simple(0, Think(0), true), Data(Parcel(Early(), 2), 5)) ==
      Some(Effect(Simple(0, Think(0), true), [Mail(1, UpdateId(5, 0))], [Early()]))
  {
  }

  function Scene(a: Loc, b: Loc, c: Loc, net: seq<Mail>, sent: set<Msg>, ran: seq<Msg>): Sys {
    Sys([a, b, c], net, sent, ran, map[5 := 5])
  }

  /** Told late that the element is on 0. */
  function Stale(): Mail { Mail(1, UpdateId(5, 0)) }

  function Notice(): Mail { Mail(2, UpdateIdx(5, 5, 1)) }

  function ChaseEvents(): seq<Event> {
    [Create(0, 5, 0), Deliver(0), Send(1, Early(), true), Deliver(0), Deliver(0), Move(0, 5, 1), Deliver(1),
     Move(1, 5, 2), Deliver(2), Deliver(1), Deliver(0)]
  }

  function Ended(): Sys {
    Scene(Simple(0, Think(1), false), Simple(1, Think(0), false), Simple(2, Think(1), true), [], {Early()}, [Early()])
  }

  function ChaseStates(): seq<Sys> {
    var none: map<Id, Pe> := map[];
    var (m, x, y) := (Early(), Mail(2, Data(Parcel(Early(), 1), 5)), Mail(0, Data(Parcel(Early(), 2), 5)));
    [Sys([Simple(0, none, false), Simple(1, none, false), Simple(2, none, false)], [], {}, [], map[]),
     Scene(Simple(0, Think(0), true), Simple(1, none, false), Simple(2, none, false), [Mail(2, UpdateIdx(5, 5, 0))], {}, []),
     Scene(Simple(0, Think(0), true), Simple(1, none, false), Simple(2, Think(0), false), [], {}, []),
     Scene(Simple(0, Think(0), true), Simple(1, Think(2), false), Simple(2, Think(0), false), [x], {m}, []),
     Scene(Simple(0, Think(0), true), Simple(1, Think(2), false), Simple(2, Think(0), false), [y], {m}, []),
     Scene(Simple(0, Think(0), true), Simple(1, Think(2), false), Simple(2, Think(0), false), [Stale()], {m}, [m]),
     Scene(Simple(0, Think(1), false), Simple(1, Think(2), false), Simple(2, Think(0), false), [Stale(), Mail(1, Carried()), Notice()], {m}, [m]),
     Scene(Simple(0, Think(1), false), Simple(1, Think(1), true), Simple(2, Think(0), false), [Stale(), Notice()], {m}, [m]),
     Scene(Simple(0, Think(1), false), Simple(1, Think(2), false), Simple(2, Think(0), false), [Stale(), Notice(), Mail(2, Carried())], {m}, [m]),
     Scene(Simple(0, Think(1), false), Simple(1, Think(2), false), Simple(2, Think(2), true), [Stale(), Notice()], {m}, [m]),
     Scene(Simple(0, Think(1), false), Simple(1, Think(2), false), Simple(2, Think(1), true), [Stale()], {m}, [m]),
     Ended()]
  }

  ghost predicate Follows(s: Sys, e: Event, s': Sys) {
    Enabled(Three(), s, e) && s' == Step(Three(), s, e)
  }

  lemma Chase0()
    ensures Follows(ChaseStates()[0], ChaseEvents()[0], ChaseStates()[1])
  {
    Creates();
    hide AddElement, NewId, Think;
  }

  lemma Chase1()
    ensures Follows(ChaseStates()[1], ChaseEvents()[1], ChaseStates()[2])
  {
    Hears(2, map[], false, 0);
    hide OnPacket, Simple, Think;
  }

  lemma Chase2()
    ensures Follows(ChaseStates()[2], ChaseEvents()[2], ChaseStates()[3])
  {
    Sends();
    hide SendMsg, Simple, Think;
  }

  lemma Chase3()
    ensures Follows(ChaseStates()[3], ChaseEvents()[3], ChaseStates()[4])
    ensures Follows(ChaseStates()[4], ChaseEvents()[4], ChaseStates()[5])
  {
    Passes();
    hide OnPacket, Simple, Think;
  }

  lemma Chase5()
    ensures Follows(ChaseStates()[5], ChaseEvents()[5], ChaseStates()[6])
  {
    Leaves(0, 1);
    hide Emigrate, Simple, Think;
  }

  lemma Chase6()
    ensures Follows(ChaseStates()[6], ChaseEvents()[6], ChaseStates()[7])
  {
    Arrives(1, 2);
    hide OnPacket, Simple, Think;
  }

  lemma Chase7()
    ensures Follows(ChaseStates()[7], ChaseEvents()[7], ChaseStates()[8])
  {
    Leaves(1, 2);
    hide Emigrate, Simple, Think;
  }

  lemma Chase8()
    ensures Follows(ChaseStates()[8], ChaseEvents()[8], ChaseStates()[9])
  {
    Arrives(2, 0);
    hide OnPacket, Simple, Think;
  }

  lemma Chase9()
    ensures Follows(ChaseStates()[9], ChaseEvents()[9], ChaseStates()[10])
    ensures Follows(ChaseStates()[10], ChaseEvents()[10], ChaseStates()[11])
  {
    Hears(2, Think(2), true, 1);
    Hears(1, Think(2), false, 0);
    hide OnPacket, Simple, Think;
  }

  lemma ChaseStart()
    ensures Initial(Three(), ChaseStates()[0])
  {
  }

  lemma ChaseIsRun()
    ensures Run(Three(), ChaseStates(), ChaseEvents())
  {
    ChaseStart();
    var states, events := ChaseStates(), ChaseEvents();
    assert |states| == 12 && |events| == 11;
    hide Step, Enabled, Initial, ChaseStates, ChaseEvents, Three;
    forall k | 0 <= k < |events|
      ensures Enabled(Three(), states[k], events[k]) && states[k + 1] == Step(Three(), states[k], events[k])
    {
      if k == 0 { Chase0(); }
      if k == 1 { Chase1(); }
      if k == 2 { Chase2(); }
      if k == 3 || k == 4 { Chase3(); }
      if k == 5 { Chase5(); }
      if k == 6 { Chase6(); }
      if k == 7 { Chase7(); }
      if k == 8 { Chase8(); }
      if k == 9 || k == 10 { Chase9(); }
    }
  }

  lemma {:induction false} Circles(k: nat)
    ensures Way(Ended(), 5, 0, k) == k % 2
  {
    if k > 0 { Circles(k - 1); }
  }

  /** A run that ends at rest with the element on processor 2, and processors 0 and 1 each believing
      it to be with the other: any message that reaches one of them is passed on for ever. */
  lemma ChaseRun(states: seq<Sys>, x: Parcel, n: nat)
    requires Deliveries(Three(), states) && n < |states| && x.msg.mgr == 0
    requires states[0] == Ended().(net := [Mail(0, Data(x, 5))])
    ensures Run(Three(), ChaseStates(), ChaseEvents()) && ChaseStates()[|ChaseEvents()|] == Ended() && Ended().net == []
    ensures Lives(Ended(), 5, 0, 2)
    ensures states[n] == Ended().(net := [Mail(n % 2, Data(Parcel(x.msg, x.hops + n), 5))])
  {
    ChaseIsRun();
    EndsBadly();
    var s := Ended();
    hide Deliveries, Run, ChaseStates, ChaseEvents, Way, Lives, Ended, Whole, AllBelieve, Shape;
    forall k | 0 <= k < n
      ensures !Lives(s, 5, 0, Way(s, 5, 0, k))
    {
      Circles(k);
    }
    Circles(n);
    FollowsBeliefs(Three(), states, s, 5, 0, x, n);
  }

  lemma EndsBadly()
    ensures var s := Ended();
      && AllBelieve(s, 5) && Whole(s, 5, 0) && Shape(Three(), s) && |s.locs| == 3 && s.net == []
      && Lives(s, 5, 0, 2) && !Lives(s, 5, 0, 0) && !Lives(s, 5, 0, 1) && ChaseStates()[|ChaseEvents()|] == s
  {
  }
}
