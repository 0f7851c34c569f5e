/** Every run of the location managers: elements live in one place, messages are in one place,
    run where their element is, and whoever waits for an ID or a location has asked for it.
 */
module LocationRuns {
  import opened Seqs
  import opened Options
  import opened Location
  import opened LocationConserve
  import opened LocationSystem
  import opened LocationSane
  import opened LocationServe

  ghost predicate Shape(cfg: Config, s: Sys) {
    |s.locs| == cfg.numPes && forall p :: 0 <= p < |s.locs| ==> s.locs[p].me == p
  }

  ghost predicate LocSane(cfg: Config, names: map<Idx, Id>, l: Loc) {
    Sane(cfg, names, l, None) && CreatorOk(cfg, names, l.me, l.idCounter, l.id2pe)
  }

  ghost predicate AllSane(cfg: Config, s: Sys) {
    && NamesOk(cfg, s.names) && AllMailOk(cfg, s.names, s.net)
    && forall p :: 0 <= p < |s.locs| ==> LocSane(cfg, s.names, s.locs[p])
  }

  /** Messages held at p for an index without an ID: home has been asked, has noted the request,
      or has answered. */
  ghost predicate IndexWaits(cfg: Config, s: Sys, p: Pe, idx: Idx)
    requires Shape(cfg, s) && ConfigOk(cfg)
  {
    var home := cfg.home(idx);
    home == p || Mail(home, RequestIdx(idx, p)) in s.net || Recorded(s.locs[home], idx, p) || HasUpdate(s.net, p, idx)
  }

  /** Messages held at p for the location of an ID: asked, or answered. */
  ghost predicate RemoteWaits(s: Sys, p: Pe, id: Id) {
    HasAsk(s.net, id, p) || HasAnswer(s.net, p, id)
  }

  /** The home of an element that exists knows of it, or is about to. */
  ghost predicate HomeHears(cfg: Config, s: Sys, idx: Idx)
    requires Shape(cfg, s) && ConfigOk(cfg) && idx in s.names
  {
    Knows(cfg, s.locs[cfg.home(idx)], idx, s.names[idx]) || HasUpdate(s.net, cfg.home(idx), idx)
  }

  ghost predicate Served(cfg: Config, s: Sys)
    requires Shape(cfg, s) && ConfigOk(cfg)
  {
    && (forall p, idx :: 0 <= p < |s.locs| && idx in s.locs[p].held.index ==> IndexWaits(cfg, s, p, idx))
    && (forall p, id :: 0 <= p < |s.locs| && id in s.locs[p].held.remote ==> RemoteWaits(s, p, id))
    && (forall idx :: idx in s.names ==> HomeHears(cfg, s, idx))
  }

  ghost predicate Good(cfg: Config, s: Sys) {
    ConfigOk(cfg) && Shape(cfg, s) && AllSane(cfg, s) && Conserved(s) && Served(cfg, s)
  }

  // ---------------------------------------------------------------- sanity

  lemma ActSane(cfg: Config, s: Sys, e: Event)
    requires ConfigOk(cfg) && Shape(cfg, s) && AllSane(cfg, s) && Enabled(cfg, s, e)
    ensures NamesOk(cfg, Step(cfg, s, e).names) && SaneEffect(cfg, Step(cfg, s, e).names, Act(cfg, s, e))
  {
    hide Sane, CreatorOk, NamesOk, ConfigOk, SaneEffect, SendMsg, AddElement, Emigrate, OnPacket;
    var l := s.locs[Actor(s, e)];
    assert LocSane(cfg, s.names, l);
    match e
    case Send(p, m, direct) => SendSane(cfg, s.names, l, m, direct);
    case Deliver(i) => assert MailOk(cfg, s.names, s.net[i]); PacketSane(cfg, s.names, l, s.net[i].packet);
    case Create(_, idx, mgr) =>
      if idx in s.names {
        AddBoundSane(cfg, s.names, l, idx, mgr);
        assert s.names[idx := s.names[idx]] == s.names;
      } else {
        NewIdFresh(cfg, s.names, l, idx);
        AddNewSane(cfg, s.names, l, idx, mgr);
      }
    case Move(_, id, to) => EmigrateSane(cfg, s.names, l, id, to);
    case Register(_) => ManagerSane(cfg, s.names, l);
  }

  lemma ManagerSane(cfg: Config, names: map<Idx, Id>, l: Loc)
    requires LocSane(cfg, names, l)
    ensures SaneEffect(cfg, names, Effect(l.(managers := l.managers + 1), [], []))
  {
    hide IdsOk, PesOk, RecordsOk, IndexOk, RequestsOk, MsgsOk, HeldOk, CreatorOk;
  }

  /** Names only grow, by an ID the creator made. */
  lemma NamesGrow(cfg: Config, s: Sys, e: Event)
    requires ConfigOk(cfg) && Shape(cfg, s) && AllSane(cfg, s) && Enabled(cfg, s, e)
    ensures var names := Step(cfg, s, e).names;
      || names == s.names
      || (e.Create? && e.idx !in s.names && var id := NewId(cfg, s.locs[e.pe], e.idx).1;
            && names == s.names[e.idx := id] && id !in s.names.Values && id !in s.locs[e.pe].hash
            && (!cfg.packed ==> id / ID_BITS == e.pe))
  {
    hide Sane, CreatorOk, NamesOk, ConfigOk, AllMailOk, NewId;
    if e.Create? {
      var l := s.locs[e.pe];
      assert LocSane(cfg, s.names, l);
      if e.idx in s.names {
        BoundLookup(cfg, s.names, l, e.idx);
        assert s.names[e.idx := s.names[e.idx]] == s.names;
      } else {
        NewIdFresh(cfg, s.names, l, e.idx);
      }
    }
  }

  lemma OtherSane(cfg: Config, s: Sys, e: Event, p: Pe)
    requires ConfigOk(cfg) && Shape(cfg, s) && AllSane(cfg, s) && Enabled(cfg, s, e)
    requires p < |s.locs| && p != Actor(s, e)
    ensures LocSane(cfg, Step(cfg, s, e).names, s.locs[p])
  {
    hide Sane, CreatorOk, NamesOk, ConfigOk, AllMailOk, NewId;
    NamesGrow(cfg, s, e);
    assert LocSane(cfg, s.names, s.locs[p]);
    var names := Step(cfg, s, e).names;
    if names != s.names {
      var id := NewId(cfg, s.locs[e.pe], e.idx).1;
      SaneMono(cfg, s.names, s.locs[p], e.idx, id, None);
      CreatorMono(cfg, s.names, s.locs[p], e.idx, id);
    }
  }

  lemma NetSane(cfg: Config, s: Sys, e: Event, m: Mail)
    requires ConfigOk(cfg) && Shape(cfg, s) && AllSane(cfg, s) && Enabled(cfg, s, e) && MailOk(cfg, s.names, m)
    ensures MailOk(cfg, Step(cfg, s, e).names, m)
  {
    hide Sane, CreatorOk, NamesOk, ConfigOk, AllMailOk, NewId, MailOk;
    NamesGrow(cfg, s, e);
    var names := Step(cfg, s, e).names;
    if names != s.names { MailMono(cfg, s.names, m, e.idx, NewId(cfg, s.locs[e.pe], e.idx).1); }
  }

  lemma MailFrom(cfg: Config, s: Sys, e: Event, i: nat)
    requires Enabled(cfg, s, e) && i < |Step(cfg, s, e).net|
    ensures Step(cfg, s, e).net[i] in s.net || Step(cfg, s, e).net[i] in Act(cfg, s, e).out
  {
    hide Act;
  }

  lemma StepLocs(cfg: Config, s: Sys, e: Event, p: Pe)
    requires ConfigOk(cfg) && Shape(cfg, s) && AllSane(cfg, s) && Enabled(cfg, s, e) && p < |s.locs|
    ensures LocSane(cfg, Step(cfg, s, e).names, Step(cfg, s, e).locs[p])
  {
    ActSane(cfg, s, e);
    hide Sane, CreatorOk, NamesOk, ConfigOk, AllMailOk, Act, Enabled;
    if p != Actor(s, e) { OtherSane(cfg, s, e, p); }
  }

  lemma StepNet(cfg: Config, s: Sys, e: Event, i: nat)
    requires ConfigOk(cfg) && Shape(cfg, s) && AllSane(cfg, s) && Enabled(cfg, s, e) && i < |Step(cfg, s, e).net|
    ensures MailOk(cfg, Step(cfg, s, e).names, Step(cfg, s, e).net[i])
  {
    ActSane(cfg, s, e);
    MailFrom(cfg, s, e, i);
    var s', out := Step(cfg, s, e), Act(cfg, s, e).out;
    hide Sane, CreatorOk, NamesOk, ConfigOk, MailOk, Act, Enabled, Step;
    if s'.net[i] in s.net { NetSane(cfg, s, e, s'.net[i]); }
  }

  lemma StepSane(cfg: Config, s: Sys, e: Event)
    requires ConfigOk(cfg) && Shape(cfg, s) && AllSane(cfg, s) && Enabled(cfg, s, e)
    requires Act(cfg, s, e).loc.me == s.locs[Actor(s, e)].me
    ensures Shape(cfg, Step(cfg, s, e)) && AllSane(cfg, Step(cfg, s, e))
  {
    hide Act;
    var s' := Step(cfg, s, e);
    ActSane(cfg, s, e);
    assert Shape(cfg, s');
    hide LocSane, NamesOk, ConfigOk, MailOk, Step, Enabled;
    forall p | 0 <= p < |s'.locs|
      ensures LocSane(cfg, s'.names, s'.locs[p])
    {
      StepLocs(cfg, s, e, p);
    }
    forall i | 0 <= i < |s'.net|
      ensures MailOk(cfg, s'.names, s'.net[i])
    {
      StepNet(cfg, s, e, i);
    }
  }

  // ---------------------------------------------------------------- conservation

  /** What an event brings in is what it adds to the histories. */
  lemma GainExpected(cfg: Config, s: Sys, e: Event, k: Probe)
    requires ConfigOk(cfg) && Shape(cfg, s) && AllSane(cfg, s) && Enabled(cfg, s, e)
    ensures Expected(Step(cfg, s, e), k) == Expected(s, k) + Gain(cfg, s, e, k)
  {
    NamesGrow(cfg, s, e);
    if e.Create? && e.idx in s.names { Existing(cfg, s, e); }
    hide AllSane, ConfigOk, NewId, Act;
    if Step(cfg, s, e).names != s.names { KnownMono(cfg, s.names, e.idx, NewId(cfg, s.locs[e.pe], e.idx).1); }
  }

  lemma StepConserved(cfg: Config, s: Sys, e: Event)
    requires ConfigOk(cfg) && Shape(cfg, s) && AllSane(cfg, s) && Conserved(s) && Enabled(cfg, s, e)
    ensures Conserved(Step(cfg, s, e))
  {
    var s' := Step(cfg, s, e);
    hide AllSane, ConfigOk, Count, Step, Expected, Gain, Enabled, Shape;
    forall k
      ensures Count(s', k) == Expected(s', k)
    {
      StepCounts(cfg, s, e, k);
      GainExpected(cfg, s, e, k);
    }
  }

  lemma Existing(cfg: Config, s: Sys, e: Event)
    requires ConfigOk(cfg) && Shape(cfg, s) && AllSane(cfg, s) && Enabled(cfg, s, e) && e.Create? && e.idx in s.names
    ensures NewId(cfg, s.locs[e.pe], e.idx).1 in s.locs[e.pe].hash
  {
    hide Sane, CreatorOk, NamesOk, ConfigOk, AllMailOk, NewId;
    assert LocSane(cfg, s.names, s.locs[e.pe]);
    BoundLookup(cfg, s.names, s.locs[e.pe], e.idx);
  }

  // ---------------------------------------------------------------- whoever waits has asked

  lemma ActServes(cfg: Config, s: Sys, e: Event)
    requires Shape(cfg, s) && Enabled(cfg, s, e)
    ensures Serves(cfg, s.locs[Actor(s, e)], Act(cfg, s, e))
  {
    hide Serves, SendMsg, AddElement, Emigrate, OnPacket;
    var l := s.locs[Actor(s, e)];
    match e
    case Send(p, m, direct) => SendServes(cfg, l, m, direct);
    case Deliver(i) => PacketServes(cfg, l, s.net[i].packet);
    case Create(_, idx, mgr) => AddElementServes(cfg, l, idx, mgr);
    case Move(_, id, to) => EmigrateServes(cfg, l, id, to);
    case Register(_) => RegisterServes(cfg, l);
  }

  lemma RegisterServes(cfg: Config, l: Loc)
    ensures Serves(cfg, l, Effect(l.(managers := l.managers + 1), [], []))
  {
    hide HasUpdate, HasAsk;
  }

  /** Mail stays until it is delivered. */
  lemma MailStays(cfg: Config, s: Sys, e: Event)
    requires Enabled(cfg, s, e)
    ensures var s' := Step(cfg, s, e);
      && (forall m :: m in Act(cfg, s, e).out ==> m in s'.net)
      && (forall m :: m in s.net ==> m in s'.net || (e.Deliver? && m == s.net[e.i]))
  {
    hide Act;
    var s' := Step(cfg, s, e);
    forall m | m in s.net
      ensures m in s'.net || (e.Deliver? && m == s.net[e.i])
    {
      var j :| 0 <= j < |s.net| && s.net[j] == m;
      if e.Deliver? {
        if j < e.i { assert s'.net[j] == m; } else if j > e.i { assert s'.net[j - 1] == m; }
      } else {
        assert s'.net[j] == m;
      }
    }
  }

  lemma UpdateStays(cfg: Config, s: Sys, e: Event, p: Pe, idx: Idx)
    requires Enabled(cfg, s, e) && HasUpdate(s.net, p, idx)
    ensures HasUpdate(Step(cfg, s, e).net, p, idx) || (e.Deliver? && s.net[e.i].to == p && s.net[e.i].packet.UpdateIdx? && s.net[e.i].packet.idx == idx)
  {
    MailStays(cfg, s, e);
    hide Step, Enabled;
    var m :| m in s.net && m.to == p && m.packet.UpdateIdx? && m.packet.idx == idx;
  }

  lemma UpdateSent(cfg: Config, s: Sys, e: Event, p: Pe, idx: Idx)
    requires Enabled(cfg, s, e) && HasUpdate(Act(cfg, s, e).out, p, idx)
    ensures HasUpdate(Step(cfg, s, e).net, p, idx)
  {
    MailStays(cfg, s, e);
    hide Step, Act, Enabled;
  }

  lemma StepIndexWaits(cfg: Config, s: Sys, e: Event, p: Pe, idx: Idx)
    requires ConfigOk(cfg) && Shape(cfg, s) && AllMailOk(cfg, s.names, s.net) && Enabled(cfg, s, e)
    requires Shape(cfg, Step(cfg, s, e)) && p < |s.locs|
    requires idx in Step(cfg, s, e).locs[p].held.index
    requires idx in s.locs[p].held.index ==> IndexWaits(cfg, s, p, idx)
    ensures IndexWaits(cfg, Step(cfg, s, e), p, idx)
  {
    var s', a, home := Step(cfg, s, e), Actor(s, e), cfg.home(idx);
    var l, eff := s.locs[a], Act(cfg, s, e);
    ActServes(cfg, s, e);
    MailStays(cfg, s, e);
    if e.Deliver? { PacketSettles(cfg, l, s.net[e.i].packet); assert MailOk(cfg, s.names, s.net[e.i]); }
    assert e.Deliver? ==> eff == OnPacket(cfg, l, s.net[e.i].packet).value;
    assert s'.locs == s.locs[a := eff.loc] && IndexServed(cfg, l, eff) && RequestsServed(l, eff);
    hide Act, ConfigOk, HasUpdate, OnPacket, Knows, HasAnswer;
    if home != p {
      if idx !in s.locs[p].held.index {
      } else if Mail(home, RequestIdx(idx, p)) in s.net {
        if Mail(home, RequestIdx(idx, p)) !in s'.net {
          if HasUpdate(eff.out, p, idx) { UpdateSent(cfg, s, e, p, idx); }
        }
      } else if Recorded(s.locs[home], idx, p) {
        if home == a && HasUpdate(eff.out, p, idx) { UpdateSent(cfg, s, e, p, idx); }
      } else {
        UpdateStays(cfg, s, e, p, idx);
      }
    }
  }

  ghost predicate Answers(m: Mail, p: Pe, id: Id) {
    m.to == p && (m.packet.UpdateIdx? || m.packet.UpdateId?) && m.packet.id == id
  }

  lemma AskStays(cfg: Config, s: Sys, e: Event, p: Pe, id: Id)
    requires Enabled(cfg, s, e)
    ensures HasAsk(s.net, id, p) ==> HasAsk(Step(cfg, s, e).net, id, p) || (e.Deliver? && s.net[e.i].packet == RequestId(id, p))
    ensures HasAnswer(s.net, p, id) ==> HasAnswer(Step(cfg, s, e).net, p, id) || (e.Deliver? && Answers(s.net[e.i], p, id))
    ensures HasAsk(Act(cfg, s, e).out, id, p) ==> HasAsk(Step(cfg, s, e).net, id, p)
    ensures HasAnswer(Act(cfg, s, e).out, p, id) ==> HasAnswer(Step(cfg, s, e).net, p, id)
  {
    MailStays(cfg, s, e);
    hide Step, Act, Enabled;
  }

  lemma StepRemoteWaits(cfg: Config, s: Sys, e: Event, p: Pe, id: Id)
    requires Shape(cfg, s) && AllMailOk(cfg, s.names, s.net) && Enabled(cfg, s, e) && p < |s.locs|
    requires id in Step(cfg, s, e).locs[p].held.remote
    requires id in s.locs[p].held.remote ==> RemoteWaits(s, p, id)
    ensures RemoteWaits(Step(cfg, s, e), p, id)
  {
    var s', a := Step(cfg, s, e), Actor(s, e);
    var l, eff := s.locs[a], Act(cfg, s, e);
    ActServes(cfg, s, e);
    AskStays(cfg, s, e, p, id);
    if e.Deliver? { PacketSettles(cfg, l, s.net[e.i].packet); assert MailOk(cfg, s.names, s.net[e.i]); }
    assert e.Deliver? ==> eff == OnPacket(cfg, l, s.net[e.i].packet).value;
    assert s'.locs == s.locs[a := eff.loc] && RemoteServed(l, eff);
    hide Act, HasUpdate, OnPacket, Knows, HasAnswer, HasAsk;
  }

  lemma NewHomeHears(cfg: Config, s: Sys, e: Event)
    requires ConfigOk(cfg) && Shape(cfg, s) && Enabled(cfg, s, e) && e.Create?
    requires Shape(cfg, Step(cfg, s, e)) && NewId(cfg, s.locs[e.pe], e.idx).1 !in s.locs[e.pe].hash
    ensures HomeHears(cfg, Step(cfg, s, e), e.idx)
  {
    AddElementServes(cfg, s.locs[e.pe], e.idx, e.mgr);
    hide AddElement, NewId, Serves, HasUpdate, ConfigOk;
    if cfg.home(e.idx) != e.pe { UpdateSent(cfg, s, e, cfg.home(e.idx), e.idx); }
  }

  lemma StepHomeHears(cfg: Config, s: Sys, e: Event, idx: Idx)
    requires ConfigOk(cfg) && Shape(cfg, s) && AllSane(cfg, s) && Enabled(cfg, s, e)
    requires Shape(cfg, Step(cfg, s, e)) && idx in Step(cfg, s, e).names
    requires idx in s.names ==> HomeHears(cfg, s, idx)
    ensures HomeHears(cfg, Step(cfg, s, e), idx)
  {
    var s', a, home := Step(cfg, s, e), Actor(s, e), cfg.home(idx);
    var l, eff := s.locs[a], Act(cfg, s, e);
    NamesGrow(cfg, s, e);
    if idx !in s.names {
      hide Step, AllSane, ConfigOk, Shape;
      NewHomeHears(cfg, s, e);
    } else {
      ActServes(cfg, s, e);
      if e.Deliver? { PacketSettles(cfg, l, s.net[e.i].packet); assert MailOk(cfg, s.names, s.net[e.i]); }
      assert e.Deliver? ==> eff == OnPacket(cfg, l, s.net[e.i].packet).value;
      assert s'.locs == s.locs[a := eff.loc] && Grown(l, eff.loc);
      hide Act, ConfigOk, HasUpdate, OnPacket, HasAnswer, AllSane, Serves;
      if !Knows(cfg, s.locs[home], idx, s.names[idx]) { UpdateStays(cfg, s, e, home, idx); }
    }
  }

  lemma StepServedIndices(cfg: Config, s: Sys, e: Event, p: nat, idx: Idx)
    requires Good(cfg, s) && Enabled(cfg, s, e) && Shape(cfg, Step(cfg, s, e))
    requires p < |Step(cfg, s, e).locs| && idx in Step(cfg, s, e).locs[p].held.index
    ensures IndexWaits(cfg, Step(cfg, s, e), p, idx)
  {
    assert |Step(cfg, s, e).locs| == |s.locs|;
    hide Step, Act, Conserved, Enabled, IndexWaits, RemoteWaits, HomeHears, NamesOk, LocSane;
    StepIndexWaits(cfg, s, e, p, idx);
  }

  lemma StepServedLocations(cfg: Config, s: Sys, e: Event, p: nat, id: Id)
    requires Good(cfg, s) && Enabled(cfg, s, e)
    requires p < |Step(cfg, s, e).locs| && id in Step(cfg, s, e).locs[p].held.remote
    ensures RemoteWaits(Step(cfg, s, e), p, id)
  {
    assert |Step(cfg, s, e).locs| == |s.locs|;
    hide Step, Act, Conserved, Enabled, IndexWaits, RemoteWaits, HomeHears, NamesOk, LocSane;
    StepRemoteWaits(cfg, s, e, p, id);
  }

  lemma StepServedHomes(cfg: Config, s: Sys, e: Event, idx: Idx)
    requires Good(cfg, s) && Enabled(cfg, s, e) && Shape(cfg, Step(cfg, s, e)) && idx in Step(cfg, s, e).names
    ensures HomeHears(cfg, Step(cfg, s, e), idx)
  {
    hide Step, Act, Conserved, Enabled, IndexWaits, RemoteWaits, HomeHears, NamesOk, LocSane;
    StepHomeHears(cfg, s, e, idx);
  }

  lemma StepServed(cfg: Config, s: Sys, e: Event)
    requires Good(cfg, s) && Enabled(cfg, s, e) && Shape(cfg, Step(cfg, s, e))
    ensures Served(cfg, Step(cfg, s, e))
  {
    var s' := Step(cfg, s, e);
    assert ConfigOk(cfg);
    hide Good, Step, Act, Enabled, IndexWaits, RemoteWaits, HomeHears, ConfigOk;
    forall idx | idx in s'.names
      ensures HomeHears(cfg, s', idx)
    {
      StepServedHomes(cfg, s, e, idx);
    }
    forall p, idx | 0 <= p < |s'.locs| && idx in s'.locs[p].held.index
      ensures IndexWaits(cfg, s', p, idx)
    {
      StepServedIndices(cfg, s, e, p, idx);
    }
    forall p, id | 0 <= p < |s'.locs| && id in s'.locs[p].held.remote
      ensures RemoteWaits(s', p, id)
    {
      StepServedLocations(cfg, s, e, p, id);
    }
  }

  // ---------------------------------------------------------------- runs

  ghost predicate Initial(cfg: Config, s: Sys) {
    && ConfigOk(cfg) && |s.locs| == cfg.numPes && s.net == [] && s.sent == {} && s.ran == [] && s.names == map[]
    && forall p :: 0 <= p < |s.locs| ==>
         s.locs[p] == Loc(p, s.locs[p].managers, map[], map[], map[], Held(map[], map[], map[], map[]), map[], 0)
  }

  /** A run: `states[0]` is initial and each state follows from the one before by an event. */
  ghost predicate Run(cfg: Config, states: seq<Sys>, events: seq<Event>) {
    && |states| == |events| + 1 && Initial(cfg, states[0])
    && forall i :: 0 <= i < |events| ==> Enabled(cfg, states[i], events[i]) && states[i + 1] == Step(cfg, states[i], events[i])
  }

  lemma StepGood(cfg: Config, s: Sys, e: Event)
    requires Good(cfg, s) && Enabled(cfg, s, e)
    ensures Good(cfg, Step(cfg, s, e))
  {
    ActServes(cfg, s, e);
    hide Step, Act, ConfigOk, Conserved, Enabled, AllSane, Served;
    StepSane(cfg, s, e);
    StepConserved(cfg, s, e);
    StepServed(cfg, s, e);
  }

  lemma {:induction false} NothingYet(locs: seq<Loc>, k: Probe)
    requires forall p :: 0 <= p < |locs| ==> locs[p].held == Held(map[], map[], map[], map[]) && locs[p].hash == map[]
    ensures SumHas(locs, k) == 0
  {
    if locs != [] { NothingYet(locs[..|locs| - 1], k); }
  }

  lemma InitialGood(cfg: Config, s: Sys)
    requires Initial(cfg, s)
    ensures Good(cfg, s)
  {
    forall k
      ensures Count(s, k) == Expected(s, k)
    {
      NothingYet(s.locs, k);
    }
  }

  lemma {:induction false} RunGood(cfg: Config, states: seq<Sys>, events: seq<Event>, i: nat)
    requires Run(cfg, states, events) && i < |states|
    ensures Good(cfg, states[i])
  {
    hide Good, Step, Enabled, Initial;
    if i == 0 {
      InitialGood(cfg, states[0]);
    } else {
      RunGood(cfg, states, events, i - 1);
      StepGood(cfg, states[i - 1], events[i - 1]);
    }
  }

  // ---------------------------------------------------------------- main results

  ghost predicate Migrating(net: seq<Mail>, i: nat, id: Id) {
    i < |net| && net[i].packet.Migrate? && net[i].packet.id == id
  }

  ghost predicate Resides(s: Sys, p: Pe, id: Id) {
    p < |s.locs| && id in s.locs[p].hash
  }

  lemma {:induction false} SumTwo(locs: seq<Loc>, p: nat, q: nat, k: Probe)
    requires p < q < |locs|
    ensures Has(locs[p], k) + Has(locs[q], k) <= SumHas(locs, k)
  {
    hide Has;
    if q == |locs| - 1 { SumAtLeast(locs[..q], p, k); } else { SumTwo(locs[..|locs| - 1], p, q, k); }
  }

  lemma {:induction false} SumSome(locs: seq<Loc>, k: Probe) returns (p: nat)
    requires SumHas(locs, k) > 0
    ensures p < |locs| && Has(locs[p], k) > 0
  {
    hide Has;
    p := |locs| - 1;
    if Has(locs[p], k) == 0 { p := SumSome(locs[..p], k); }
  }

  lemma {:induction false} MailSome(net: seq<Mail>, k: Probe) returns (i: nat)
    requires MailBag(net, k) > 0
    ensures i < |net| && Inside(net[i].packet, k) > 0
  {
    hide Inside;
    i := |net| - 1;
    if Inside(net[i].packet, k) == 0 { i := MailSome(net[..i], k); }
  }

  lemma MailTwo(net: seq<Mail>, i: nat, j: nat, k: Probe)
    requires i < j < |net|
    ensures Inside(net[i].packet, k) + Inside(net[j].packet, k) <= MailBag(net, k)
  {
    hide Inside, MailBag;
    TakeMail(net, j, k);
    assert Drop(net, j)[i] == net[i];
    TakeMail(Drop(net, j), i, k);
  }

  lemma {:induction false} BagNoId(xs: seq<Parcel>, id: Id)
    ensures Bag(xs, OfId(id)) == 0
  {
    if xs != [] { BagNoId(xs[..|xs| - 1], id); }
  }

  lemma {:induction false} FlatNoId(b: Buffer, id: Id)
    ensures Flat(b, OfId(id)) == 0
    decreases |b|
  {
    if b != map[] {
      var key :| key in b && Flat(b, OfId(id)) == Bag(b[key], OfId(id)) + Flat(b - {key}, OfId(id));
      BagNoId(b[key], id);
      FlatNoId(b - {key}, id);
    }
  }

  lemma HasResident(l: Loc, id: Id)
    ensures Has(l, OfId(id)) == if id in l.hash then 1 else 0
  {
    hide Flat;
    FlatNoId(l.held.msgs, id);
    FlatNoId(l.held.remote, id);
    FlatNoId(l.held.shadow, id);
    FlatNoId(l.held.index, id);
  }

  lemma {:induction false} RanNoId(ran: seq<Msg>, id: Id)
    ensures Ran(ran, OfId(id)) == 0
  {
    if ran != [] { RanNoId(ran[..|ran| - 1], id); }
  }

  lemma OneRecord(s: Sys, id: Id, p: Pe, q: Pe)
    requires SumHas(s.locs, OfId(id)) <= 1 && Resides(s, p, id) && Resides(s, q, id)
    ensures p == q
  {
    HasResident(s.locs[p], id);
    HasResident(s.locs[q], id);
    hide Has, SumHas;
    if p < q { SumTwo(s.locs, p, q, OfId(id)); } else if q < p { SumTwo(s.locs, q, p, OfId(id)); }
  }

  lemma OnePacket(net: seq<Mail>, id: Id, i: nat, j: nat)
    requires MailBag(net, OfId(id)) <= 1 && Migrating(net, i, id) && Migrating(net, j, id)
    ensures i == j
  {
    hide MailBag;
    if i < j { MailTwo(net, i, j, OfId(id)); } else if j < i { MailTwo(net, j, i, OfId(id)); }
  }

  lemma SomeRecord(s: Sys, id: Id)
    ensures (exists p: Pe :: Resides(s, p, id)) <==> SumHas(s.locs, OfId(id)) > 0
  {
    hide Has, SumHas;
    if SumHas(s.locs, OfId(id)) > 0 {
      var p := SumSome(s.locs, OfId(id));
      HasResident(s.locs[p], id);
      assert Resides(s, p, id);
    }
    forall p: Pe | Resides(s, p, id)
      ensures SumHas(s.locs, OfId(id)) > 0
    {
      HasResident(s.locs[p], id);
      SumAtLeast(s.locs, p, OfId(id));
    }
  }

  lemma SomePacket(net: seq<Mail>, id: Id)
    ensures (exists i: nat :: Migrating(net, i, id)) <==> MailBag(net, OfId(id)) > 0
  {
    hide MailBag;
    if MailBag(net, OfId(id)) > 0 {
      var i := MailSome(net, OfId(id));
      assert Migrating(net, i, id);
    }
    forall i: nat | Migrating(net, i, id)
      ensures MailBag(net, OfId(id)) > 0
    {
      TakeMail(net, i, OfId(id));
    }
  }

  ghost predicate OnlyHolder(s: Sys, id: Id) {
    && (forall p: Pe, q: Pe :: Resides(s, p, id) && Resides(s, q, id) ==> p == q)
    && (forall i: nat, j: nat :: Migrating(s.net, i, id) && Migrating(s.net, j, id) ==> i == j)
    && ((exists p: Pe :: Resides(s, p, id)) <==> !exists i: nat :: Migrating(s.net, i, id))
  }

  lemma OneHolder(s: Sys, id: Id)
    requires SumHas(s.locs, OfId(id)) + MailBag(s.net, OfId(id)) == 1
    ensures OnlyHolder(s, id)
  {
    hide SumHas, MailBag, Resides, Migrating;
    forall p: Pe, q: Pe | Resides(s, p, id) && Resides(s, q, id)
      ensures p == q
    {
      OneRecord(s, id, p, q);
    }
    forall i: nat, j: nat | Migrating(s.net, i, id) && Migrating(s.net, j, id)
      ensures i == j
    {
      OnePacket(s.net, id, i, j);
    }
    SomeRecord(s, id);
    SomePacket(s.net, id);
  }

  lemma ConservedHolder(cfg: Config, s: Sys, id: Id)
    requires Good(cfg, s) && id in s.names.Values
    ensures OnlyHolder(s, id)
  {
    hide SumHas, MailBag, Ran, OnlyHolder, AllSane, Served, ConfigOk;
    RanNoId(s.ran, id);
    assert Count(s, OfId(id)) == Expected(s, OfId(id));
    hide Good;
    OneHolder(s, id);
  }

  /** Single residence: at every moment of every run an element that exists is in exactly one
      processor's records or exactly one migrating packet, never both, never neither. */
  lemma SingleResidence(cfg: Config, states: seq<Sys>, events: seq<Event>, n: nat, idx: Idx)
    requires Run(cfg, states, events) && n < |states| && idx in states[n].names
    ensures OnlyHolder(states[n], states[n].names[idx])
  {
    RunGood(cfg, states, events, n);
    assert states[n].names[idx] in states[n].names.Values;
    hide Run, Good;
    ConservedHolder(cfg, states[n], states[n].names[idx]);
  }

  /** Conservation: a message sent is, at every moment, once and only once in a packet, in one of
      the buffers of one processor, or among the executed; nothing else ever appears. */
  lemma MessageInOnePlace(cfg: Config, states: seq<Sys>, events: seq<Event>, n: nat, m: Msg)
    requires Run(cfg, states, events) && n < |states|
    ensures var s := states[n];
      SumHas(s.locs, OfMsg(m)) + MailBag(s.net, OfMsg(m)) + Ran(s.ran, OfMsg(m)) == if m in s.sent then 1 else 0
  {
    RunGood(cfg, states, events, n);
    assert Count(states[n], OfMsg(m)) == Expected(states[n], OfMsg(m));
  }

  lemma {:induction false} RanTwo(ran: seq<Msg>, i: nat, j: nat)
    requires i < j < |ran| && ran[i] == ran[j]
    ensures Ran(ran, OfMsg(ran[j])) >= 2
  {
    if j < |ran| - 1 { RanTwo(ran[..|ran| - 1], i, j); } else { RanOne(ran[..j], i); }
  }

  lemma {:induction false} RanOne(ran: seq<Msg>, i: nat)
    requires i < |ran|
    ensures Ran(ran, OfMsg(ran[i])) >= 1
  {
    if i < |ran| - 1 { RanOne(ran[..|ran| - 1], i); }
  }

  lemma ExecutedOnce(cfg: Config, states: seq<Sys>, events: seq<Event>, n: nat, i: nat, j: nat)
    requires Run(cfg, states, events) && n < |states| && i < j < |states[n].ran|
    ensures states[n].ran[i] != states[n].ran[j] && states[n].ran[i] in states[n].sent
  {
    MessageInOnePlace(cfg, states, events, n, states[n].ran[i]);
    hide Run;
    RanOne(states[n].ran, i);
    if states[n].ran[i] == states[n].ran[j] { RanTwo(states[n].ran, i, j); }
  }

  lemma RanWhere(cfg: Config, names: map<Idx, Id>, l: Loc, x: Parcel, id: Id, idx: Option<Idx>, direct: bool, m: Msg)
    requires NamesOk(cfg, names) && ConfigOk(cfg) && Sane(cfg, names, l, None) && Addressed(cfg, names, x.msg, id)
    requires m in DeliverMsg(cfg, l, x, id, idx, direct).ran
    ensures id in l.hash && l.hash[id].idx == m.idx && m.mgr in l.hash[id].elts && m.mgr < l.managers
  {
    assert RecordsOk(cfg, names, l.hash, l.idx2id, l.id2pe, None);
  }

  lemma SendRuns(cfg: Config, names: map<Idx, Id>, l: Loc, msg: Msg, direct: bool, m: Msg)
    requires NamesOk(cfg, names) && ConfigOk(cfg) && Sane(cfg, names, l, None) && msg.src < cfg.numPes
    requires m in SendMsg(cfg, l, msg, direct).ran
    ensures exists id :: id in l.hash && l.hash[id].idx == m.idx && m.mgr in l.hash[id].elts
  {
    var id := LookupId(cfg, l, msg.idx).value;
    assert Addressed(cfg, names, msg, id);
    hide NamesOk, ConfigOk, Sane, Addressed;
    assert m == msg;
    RanWhere(cfg, names, l, Parcel(msg, 0), id, Some(msg.idx), direct, m);
  }

  lemma PacketRuns(cfg: Config, names: map<Idx, Id>, l: Loc, p: Packet, m: Msg)
    requires NamesOk(cfg, names) && ConfigOk(cfg) && Sane(cfg, names, l, None) && MailOk(cfg, names, Mail(l.me, p))
    requires OnPacket(cfg, l, p).Some? && m in OnPacket(cfg, l, p).value.ran
    ensures exists id :: id in l.hash && l.hash[id].idx == m.idx && m.mgr in l.hash[id].elts
  {
    hide NamesOk, ConfigOk, Sane, Addressed, DeliverMsg, Forward, Replies;
    RanWhere(cfg, names, l, p.parcel, p.id, None, true, m);
  }

  /** A message runs only on the processor whose records hold the element it names. */
  lemma RunsWhereItLives(cfg: Config, states: seq<Sys>, events: seq<Event>, n: nat, m: Msg)
    requires Run(cfg, states, events) && n < |events| && m in Act(cfg, states[n], events[n]).ran
    ensures var l := states[n].locs[Actor(states[n], events[n])];
      exists id :: id in l.hash && l.hash[id].idx == m.idx && m.mgr in l.hash[id].elts
  {
    var s, e := states[n], events[n];
    RunGood(cfg, states, events, n);
    var l := s.locs[Actor(s, e)];
    assert LocSane(cfg, s.names, l);
    if e.Deliver? { assert MailOk(cfg, s.names, s.net[e.i]); }
    hide Run, Served, Conserved, SendMsg, OnPacket, Sane, CreatorOk, NamesOk, ConfigOk, CreateLocal, MailOk, AllMailOk, Forward, InformIdx;
    match e
    case Send(_, msg, direct) => SendRuns(cfg, s.names, l, msg, direct, m);
    case Deliver(i) => PacketRuns(cfg, s.names, l, s.net[i].packet, m);
    case Create(_, _, _) =>
    case Move(_, _, _) =>
    case Register(_) =>
  }

  /** Whoever waits has asked: for messages held for an index, a request is under way to home, or
      noted there, or answered; for messages held for a location, a request or an answer is under
      way. */
  lemma WaitersServed(cfg: Config, states: seq<Sys>, events: seq<Event>, n: nat, p: Pe)
    requires Run(cfg, states, events) && n < |states| && p < |states[n].locs|
    ensures |states[n].locs| == cfg.numPes && ConfigOk(cfg)
    ensures var (s, h) := (states[n], states[n].locs[p].held);
      && (forall idx :: idx in h.index && cfg.home(idx) != p ==>
            Mail(cfg.home(idx), RequestIdx(idx, p)) in s.net || Recorded(s.locs[cfg.home(idx)], idx, p) || HasUpdate(s.net, p, idx))
      && (forall id :: id in h.remote ==> HasAsk(s.net, id, p) || HasAnswer(s.net, p, id))
  {
    RunGood(cfg, states, events, n);
    var s := states[n];
    assert forall idx :: idx in s.locs[p].held.index ==> IndexWaits(cfg, s, p, idx);
    assert forall id :: id in s.locs[p].held.remote ==> RemoteWaits(s, p, id);
    hide Run, Conserved, AllSane, HasUpdate, HasAsk, HasAnswer, Recorded;
  }

  lemma AllKnown(cfg: Config, s: Sys, idx: Idx)
    requires Good(cfg, s) && s.net == [] && idx in s.names
    ensures Knows(cfg, s.locs[cfg.home(idx)], idx, s.names[idx])
  {
    hide Conserved, AllSane, Knows;
    assert HomeHears(cfg, s, idx);
  }

  lemma WaitsUnknown(cfg: Config, s: Sys, p: Pe, idx: Idx)
    requires Good(cfg, s) && s.net == [] && p < |s.locs| && idx in s.locs[p].held.index
    ensures !cfg.packed && idx !in s.locs[cfg.home(idx)].idx2id
  {
    hide Conserved;
    assert IndexWaits(cfg, s, p, idx);
    assert LocSane(cfg, s.names, s.locs[p]) && LocSane(cfg, s.names, s.locs[cfg.home(idx)]);
  }

  lemma HomeWaits(cfg: Config, s: Sys, p: Pe, id: Id, idx: Idx)
    requires Good(cfg, s) && p < |s.locs| && id in s.locs[p].held.msgs && idx in s.names && s.names[idx] == id
    ensures cfg.home(idx) == p && id !in s.locs[p].id2pe
  {
    hide Conserved, Served;
    assert LocSane(cfg, s.names, s.locs[p]);
  }

  /** When no mail is under way, no message waits for a location, and none waits by index or ID for
      an index that exists.  (Messages held beside a record are the subject of LocationShadow.) */
  lemma NoneWaitForKnown(cfg: Config, states: seq<Sys>, events: seq<Event>, n: nat, p: Pe)
    requires Run(cfg, states, events) && n < |states| && states[n].net == [] && p < |states[n].locs|
    ensures var (s, h) := (states[n], states[n].locs[p].held);
      && h.remote == map[]
      && (forall idx :: idx in h.index ==> idx !in s.names)
      && (forall idx :: idx in s.names ==> s.names[idx] !in h.msgs)
  {
    var s := states[n];
    RunGood(cfg, states, events, n);
    var h := s.locs[p].held;
    assert forall id :: id in h.remote ==> RemoteWaits(s, p, id);
    hide Run, Good;
    forall idx | idx in s.names
      ensures idx !in h.index && s.names[idx] !in h.msgs
    {
      AllKnown(cfg, s, idx);
      if idx in h.index { WaitsUnknown(cfg, s, p, idx); }
      if s.names[idx] in h.msgs { HomeWaits(cfg, s, p, s.names[idx], idx); }
    }
  }
}
