/** Locations over whole runs: what a processor believes, and what it is told, is a place where the
    element has been or, with a compressor, its home; the home itself believes only the former.  So
    an element that was never moved is found, from anywhere, in at most two hops.
 */
module LocationBeliefs {
  import opened Seqs
  import opened Options
  import opened Location
  import opened LocationConserve
  import opened LocationSystem
  import opened LocationSane
  import opened LocationServe
  import opened LocationPaths
  import opened LocationRuns
  import opened LocationShadow

  /** The record is with this processor, or on its way there. */
  ghost predicate IsAt(s: Sys, id: Id, pe: Pe) {
    || (pe < |s.locs| && id in s.locs[pe].hash)
    || exists i :: 0 <= i < |s.net| && s.net[i].to == pe && s.net[i].packet.Migrate? && s.net[i].packet.id == id
  }

  ghost predicate Been(states: seq<Sys>, id: Id, pe: Pe) {
    exists k :: 0 <= k < |states| && IsAt(states[k], id, pe)
  }

  /** What processor `at` may believe or be told. */
  ghost predicate Stated(cfg: Config, states: seq<Sys>, id: Id, at: Pe, pe: Pe) {
    Been(states, id, pe) || (cfg.packed && pe == cfg.home(cfg.unpack(id)) != at)
  }

  ghost predicate MailTold(cfg: Config, states: seq<Sys>, m: Mail) {
    match m.packet
    case UpdateIdx(_, id, pe) => Stated(cfg, states, id, m.to, pe)
    case UpdateId(id, pe) => Stated(cfg, states, id, m.to, pe)
    case RequestId(id, _) => cfg.packed ==> m.to == cfg.home(cfg.unpack(id))
    case _ => true
  }

  ghost predicate LocTold(cfg: Config, states: seq<Sys>, l: Loc) {
    forall id :: id in l.id2pe ==> Stated(cfg, states, id, l.me, l.id2pe[id])
  }

  ghost predicate OutTold(cfg: Config, states: seq<Sys>, out: seq<Mail>) {
    forall m :: m in out ==> MailTold(cfg, states, m)
  }

  ghost predicate Tells(cfg: Config, states: seq<Sys>, e: Effect) {
    LocTold(cfg, states, e.loc) && OutTold(cfg, states, e.out)
  }

  /** Without a compressor the home of an ID is its creator, where the element has been. */
  ghost predicate CreatorsBeen(cfg: Config, states: seq<Sys>, names: map<Idx, Id>) {
    !cfg.packed ==> forall id :: id in names.Values ==> Been(states, id, id / ID_BITS)
  }

  ghost predicate Told(cfg: Config, states: seq<Sys>)
    requires states != []
  {
    var s := states[|states| - 1];
    && (forall p :: 0 <= p < |s.locs| ==> LocTold(cfg, states, s.locs[p]))
    && OutTold(cfg, states, s.net) && CreatorsBeen(cfg, states, s.names)
  }

  // ---------------------------------------------------------------- entry points

  lemma {:induction false} ForwardTold(cfg: Config, states: seq<Sys>, l: Loc, id: Id, xs: seq<Parcel>)
    requires Settled(l, id)
    ensures OutTold(cfg, states, Forward(l, id, xs))
  {
    forall m | m in Forward(l, id, xs)
      ensures MailTold(cfg, states, m)
    {
      ForwardGoes(l, id, xs, m);
    }
  }

  lemma DeliverTold(cfg: Config, states: seq<Sys>, l: Loc, x: Parcel, id: Id, idx: Option<Idx>, direct: bool)
    requires LocTold(cfg, states, l) && (id in l.hash ==> Been(states, id, l.me))
    requires id !in l.hash && id !in l.id2pe ==>
      if cfg.packed then HomeFor(cfg, id, idx) == cfg.home(cfg.unpack(id)) else Been(states, id, HomeFor(cfg, id, idx))
    ensures Tells(cfg, states, DeliverMsg(cfg, l, x, id, idx, direct))
  {
    hide Been, HomeFor;
  }

  lemma InformIdTold(cfg: Config, states: seq<Sys>, l: Loc, id: Id, pe: Pe)
    requires LocTold(cfg, states, l) && Stated(cfg, states, id, l.me, pe)
    ensures Tells(cfg, states, InformId(l, id, pe)) && Tells(cfg, states, OnUpdateId(l, id, pe))
  {
    var e := InformId(l, id, pe);
    ForwardTold(cfg, states, l.(id2pe := l.id2pe[id := pe]), id, At(l.held.msgs, id));
    ForwardTold(cfg, states, e.loc, id, At(e.loc.held.remote, id));
    hide Forward, MailTold, Stated;
  }

  lemma InformIdxTold(cfg: Config, states: seq<Sys>, l: Loc, idx: Idx, id: Id, pe: Pe)
    requires LocTold(cfg, states, l) && Stated(cfg, states, id, l.me, pe) && (cfg.packed ==> l.requests == map[])
    ensures Tells(cfg, states, InformIdx(cfg, l, idx, id, pe)) && Tells(cfg, states, OnUpdateIdx(cfg, l, idx, id, pe))
  {
    var e := OnUpdateIdx(cfg, l, idx, id, pe);
    assert e.loc.id2pe == l.id2pe[id := pe] && e.loc.me == l.me;
    forall m | m in e.out
      ensures MailTold(cfg, states, m)
    {
      UpdateSends(cfg, l, idx, id, pe, m);
    }
    assert forall m :: m in InformIdx(cfg, l, idx, id, pe).out ==> m in e.out;
    hide Forward, Replies, MailTold, Stated;
  }

  lemma CreateTold(cfg: Config, states: seq<Sys>, l: Loc, idx: Idx, id: Id, elts: set<Mgr>, notify: bool)
    requires LocTold(cfg, states, l) && Been(states, id, l.me) && (cfg.packed ==> l.requests == map[])
    ensures Tells(cfg, states, CreateLocal(cfg, l, idx, id, elts, notify))
  {
    hide Been, InformIdx;
    InformIdxTold(cfg, states, l.(hash := l.hash[id := Rec(idx, elts)]), idx, id, l.me);
  }

  lemma AddElementTold(cfg: Config, states: seq<Sys>, l: Loc, idx: Idx, mgr: Mgr)
    requires AddElement(cfg, l, idx, mgr).Some? && LocTold(cfg, states, l) && (cfg.packed ==> l.requests == map[])
    requires Been(states, NewId(cfg, l, idx).1, l.me)
    ensures Tells(cfg, states, AddElement(cfg, l, idx, mgr).value)
  {
    hide Been, CreateLocal, Forward, MailTold;
    var (l1, id) := NewId(cfg, l, idx);
    assert l1.id2pe == l.id2pe && l1.me == l.me && l1.requests == l.requests;
    hide Stated;
    if id !in l1.hash { CreateTold(cfg, states, l1, idx, id, {mgr}, true); } else { ForwardTold(cfg, states, l1, id, At(l1.held.shadow, id)); }
  }

  lemma EmigrateTold(cfg: Config, states: seq<Sys>, l: Loc, id: Id, to: Pe)
    requires id in l.hash && LocTold(cfg, states, l) && Been(states, id, to) && (cfg.packed ==> l.requests == map[])
    ensures Tells(cfg, states, Emigrate(cfg, l, id, to))
  {
    hide Been, InformIdx;
    if to != l.me { InformIdxTold(cfg, states, l.(hash := l.hash - {id}), l.hash[id].idx, id, to); }
  }

  /** A request is answered with a place the asker may be told. */
  lemma RequestTold(cfg: Config, states: seq<Sys>, names: map<Idx, Id>, l: Loc, p: Packet)
    requires (p.RequestIdx? || p.RequestId?) && LocTold(cfg, states, l) && Sane(cfg, names, l, None)
    requires MailOk(cfg, names, Mail(l.me, p)) && MailTold(cfg, states, Mail(l.me, p)) && CreatorsBeen(cfg, states, names)
    ensures Tells(cfg, states, OnPacket(cfg, l, p).value)
  {
    hide Been;
  }

  // ---------------------------------------------------------------- steps

  lemma BeenMore(states: seq<Sys>, s: Sys, id: Id, pe: Pe)
    ensures Been(states, id, pe) ==> Been(states + [s], id, pe)
    ensures IsAt(s, id, pe) ==> Been(states + [s], id, pe)
  {
    var more := states + [s];
    if Been(states, id, pe) {
      var k :| 0 <= k < |states| && IsAt(states[k], id, pe);
      assert IsAt(more[k], id, pe);
    }
    if IsAt(s, id, pe) { assert IsAt(more[|states|], id, pe); }
  }

  lemma ToldMore(cfg: Config, states: seq<Sys>, s: Sys)
    requires states != [] && Told(cfg, states)
    ensures var last := states[|states| - 1];
      && (forall p :: 0 <= p < |last.locs| ==> LocTold(cfg, states + [s], last.locs[p]))
      && OutTold(cfg, states + [s], last.net) && CreatorsBeen(cfg, states + [s], last.names)
  {
    forall id, pe
      ensures Been(states, id, pe) ==> Been(states + [s], id, pe)
    {
      BeenMore(states, s, id, pe);
    }
    hide Been;
  }

  lemma HereBeen(states: seq<Sys>, s': Sys, id: Id, pe: Pe)
    requires states != [] && (IsAt(states[|states| - 1], id, pe) || IsAt(s', id, pe))
    ensures Been(states + [s'], id, pe)
  {
    assert (states + [s'])[|states| - 1] == states[|states| - 1];
    BeenMore(states, s', id, pe);
  }

  lemma SendTold(cfg: Config, states: seq<Sys>, names: map<Idx, Id>, l: Loc, m: Msg, direct: bool)
    requires ConfigOk(cfg) && LocTold(cfg, states, l) && Sane(cfg, names, l, None)
    requires forall id :: id in l.hash ==> Been(states, id, l.me)
    ensures Tells(cfg, states, SendMsg(cfg, l, m, direct))
  {
    match LookupId(cfg, l, m.idx)
    case Some(id) =>
      hide Been, DeliverMsg;
      DeliverTold(cfg, states, l, Parcel(m, 0), id, Some(m.idx), direct);
    case None =>
      hide Been;
  }

  lemma PacketTold(cfg: Config, states: seq<Sys>, names: map<Idx, Id>, l: Loc, p: Packet)
    requires ConfigOk(cfg) && LocTold(cfg, states, l) && Sane(cfg, names, l, None) && OnPacket(cfg, l, p).Some?
    requires MailOk(cfg, names, Mail(l.me, p)) && MailTold(cfg, states, Mail(l.me, p)) && CreatorsBeen(cfg, states, names)
    requires (forall id :: id in l.hash ==> Been(states, id, l.me)) && (p.Migrate? ==> Been(states, p.id, l.me))
    ensures Tells(cfg, states, OnPacket(cfg, l, p).value)
  {
    assert cfg.packed ==> l.requests == map[];
    hide Been, DeliverMsg, OnUpdateIdx, OnUpdateId, CreateLocal;
    match p
    case Data(x, id) => DeliverTold(cfg, states, l, x, id, None, true);
    case RequestIdx(_, _) => RequestTold(cfg, states, names, l, p);
    case RequestId(_, _) => RequestTold(cfg, states, names, l, p);
    case UpdateIdx(idx, id, pe) => InformIdxTold(cfg, states, l, idx, id, pe);
    case UpdateId(id, pe) => InformIdTold(cfg, states, l, id, pe);
    case Migrate(idx, id, n, elts) =>
      if n == l.managers { CreateTold(cfg, states, InsertId(cfg, l, idx, id), idx, id, elts, false); }
  }

  /** Where an element created or moved is, after the step. */
  lemma NewPlace(cfg: Config, s: Sys, e: Event)
    requires Enabled(cfg, s, e)
    ensures e.Create? ==> IsAt(Step(cfg, s, e), NewId(cfg, s.locs[e.pe], e.idx).1, e.pe)
    ensures e.Move? && e.to != s.locs[e.pe].me ==> IsAt(Step(cfg, s, e), e.id, e.to)
  {
    var s', a := Step(cfg, s, e), Actor(s, e);
    ActHash(cfg, s, e);
    hide NewId, AddElement, InformIdx;
    if e.Create? {
      assert s'.locs[a].hash == HashAfter(cfg, s, e);
    } else if e.Move? && e.to != s.locs[e.pe].me {
      assert s'.net[|s.net|] == Act(cfg, s, e).out[0];
    }
  }

  lemma ActTold(cfg: Config, states: seq<Sys>, s: Sys, e: Event)
    requires states != [] && s == states[|states| - 1] && Told(cfg, states) && Good(cfg, s) && Enabled(cfg, s, e)
    ensures Tells(cfg, states + [Step(cfg, s, e)], Act(cfg, s, e))
  {
    var s', a := Step(cfg, s, e), Actor(s, e);
    var hist, l := states + [s'], s.locs[a];
    ToldMore(cfg, states, s');
    NewPlace(cfg, s, e);
    assert l.me == a && LocSane(cfg, s.names, l);
    assert cfg.packed ==> l.requests == map[];
    hide Been, Step, Served, Conserved, Told, SendMsg, OnPacket, AddElement, Emigrate, NewId, Sane, CreatorOk, NamesOk, MailTold, Stated, MailOk;
    forall id | id in l.hash
      ensures Been(hist, id, a)
    {
      HereBeen(states, s', id, a);
    }
    match e
    case Send(_, m, direct) => SendTold(cfg, hist, s.names, l, m, direct);
    case Deliver(i) =>
      var p := s.net[i].packet;
      assert s.net[i] == Mail(l.me, p) && s.net[i] in s.net;
      if p.Migrate? { HereBeen(states, s', p.id, a); }
      PacketTold(cfg, hist, s.names, l, p);
    case Create(_, idx, mgr) =>
      HereBeen(states, s', NewId(cfg, l, idx).1, a);
      AddElementTold(cfg, hist, l, idx, mgr);
    case Move(_, id, to) =>
      HereBeen(states, s', id, to);
      EmigrateTold(cfg, hist, l, id, to);
    case Register(_) =>
  }

  lemma CreatorsStep(cfg: Config, states: seq<Sys>, s: Sys, e: Event)
    requires states != [] && s == states[|states| - 1] && Told(cfg, states) && Good(cfg, s) && Enabled(cfg, s, e)
    ensures CreatorsBeen(cfg, states + [Step(cfg, s, e)], Step(cfg, s, e).names)
  {
    var s' := Step(cfg, s, e);
    ToldMore(cfg, states, s');
    NamesGrow(cfg, s, e);
    NewPlace(cfg, s, e);
    hide Step, Told, Been, NewId, Good, Enabled;
    if s'.names != s.names {
      HereBeen(states, s', NewId(cfg, s.locs[e.pe], e.idx).1, e.pe);
    }
  }

  lemma StepTold(cfg: Config, states: seq<Sys>, s: Sys, e: Event)
    requires states != [] && s == states[|states| - 1] && Told(cfg, states) && Good(cfg, s) && Enabled(cfg, s, e)
    ensures Told(cfg, states + [Step(cfg, s, e)])
  {
    var s' := Step(cfg, s, e);
    hide Act, Step, Good, MailTold, LocTold, CreatorsBeen, Enabled, Told;
    StepParts(cfg, s, e);
    CreatorsStep(cfg, states, s, e);
    ActTold(cfg, states, s, e);
    ToldMore(cfg, states, s');
    ToldNow(cfg, states, s, Actor(s, e), Act(cfg, s, e), s');
  }

  lemma ToldNow(cfg: Config, states: seq<Sys>, s: Sys, a: Pe, e: Effect, s': Sys)
    requires a < |s.locs| && s'.locs == s.locs[a := e.loc] && forall m :: m in s'.net ==> m in s.net || m in e.out
    requires var hist := states + [s'];
      && (forall p :: 0 <= p < |s.locs| ==> LocTold(cfg, hist, s.locs[p])) && OutTold(cfg, hist, s.net)
      && Tells(cfg, hist, e) && CreatorsBeen(cfg, hist, s'.names)
    ensures Told(cfg, states + [s'])
  {
    hide MailTold, LocTold, CreatorsBeen;
    assert (states + [s'])[|states|] == s';
  }

  lemma {:induction false} RunTold(cfg: Config, states: seq<Sys>, events: seq<Event>, n: nat)
    requires Run(cfg, states, events) && n < |states|
    ensures Told(cfg, states[..n + 1])
  {
    hide Step, Enabled, Told, Initial;
    if n == 0 {
      NothingTold(cfg, states[..1]);
    } else {
      var s, e := states[n - 1], events[n - 1];
      assert Enabled(cfg, s, e) && states[n] == Step(cfg, s, e);
      RunTold(cfg, states, events, n - 1);
      RunGood(cfg, states, events, n - 1);
      hide Run, Good;
      StepTold(cfg, states[..n], s, e);
      assert states[..n] + [states[n]] == states[..n + 1];
    }
  }

  lemma NothingTold(cfg: Config, states: seq<Sys>)
    requires |states| == 1 && Initial(cfg, states[0])
    ensures Told(cfg, states)
  {
  }

  /** No location is invented: in every run, what a processor believes of an element, and what any
      mail under way tells, is a place where the element has been or was sent, or, with a
      compressor and anywhere but at the home itself, its home. */
  lemma NoPlaceInvented(cfg: Config, states: seq<Sys>, events: seq<Event>, n: nat, id: Id)
    requires Run(cfg, states, events) && n < |states|
    ensures forall p :: 0 <= p < |states[n].locs| && id in states[n].locs[p].id2pe ==>
      Stated(cfg, states[..n + 1], id, p, states[n].locs[p].id2pe[id])
    ensures forall m :: m in states[n].net && (m.packet.UpdateIdx? || m.packet.UpdateId?) && m.packet.id == id ==>
      Stated(cfg, states[..n + 1], id, m.to, m.packet.pe)
  {
    RunTold(cfg, states, events, n);
    RunGood(cfg, states, events, n);
    var so := states[..n + 1];
    assert so[|so| - 1] == states[n];
    hide Run, Stated, Served, AllSane, Conserved, CreatorsBeen;
    forall p | 0 <= p < |states[n].locs| && id in states[n].locs[p].id2pe
      ensures Stated(cfg, so, id, p, states[n].locs[p].id2pe[id])
    {
      assert LocTold(cfg, so, states[n].locs[p]) && states[n].locs[p].me == p;
    }
    forall m | m in states[n].net && (m.packet.UpdateIdx? || m.packet.UpdateId?) && m.packet.id == id
      ensures Stated(cfg, so, id, m.to, m.packet.pe)
    {
      assert MailTold(cfg, so, m);
    }
  }

  // ---------------------------------------------------------------- elements that were never moved

  ghost predicate Unmoved(events: seq<Event>, id: Id, n: nat)
    requires n <= |events|
  {
    forall k :: 0 <= k < n ==> events[k].Move? ==> events[k].id != id
  }

  lemma RecordStays(cfg: Config, s: Sys, e: Event, id: Id, q: Pe)
    requires Enabled(cfg, s, e) && (e.Move? ==> e.id != id) && q < |s.locs| && id in s.locs[q].hash
    ensures IsAt(Step(cfg, s, e), id, q)
  {
    ActHash(cfg, s, e);
    hide Act, NewId, OnPacket, AddElement;
    assert id in Step(cfg, s, e).locs[q].hash;
  }

  lemma MigrantStays(cfg: Config, s: Sys, e: Event, id: Id, i: nat)
    requires Shape(cfg, s) && Enabled(cfg, s, e) && i < |s.net| && s.net[i].packet.Migrate? && s.net[i].packet.id == id
    ensures IsAt(Step(cfg, s, e), id, s.net[i].to)
  {
    var s', q := Step(cfg, s, e), s.net[i].to;
    ActHash(cfg, s, e);
    hide NewId, AddElement, SendMsg, Emigrate, CreateLocal;
    if e == Deliver(i) {
      var p, l := s.net[i].packet, s.locs[q];
      if p.nManagers == l.managers {
        assert id in s'.locs[q].hash;
      } else {
        assert s'.net[|s'.net| - 1] == Mail(q, p);
      }
    } else if e.Deliver? {
      var j := if i < e.i then i else i - 1;
      assert s'.net[j] == s.net[i];
    } else {
      assert s'.net[i] == s.net[i];
    }
  }

  /** Without a move an element stays where it is. */
  lemma {:induction false} PlaceStays(cfg: Config, states: seq<Sys>, events: seq<Event>, k: nat, n: nat, id: Id, q: Pe)
    requires Run(cfg, states, events) && k <= n < |states| && IsAt(states[k], id, q) && Unmoved(events, id, n)
    ensures IsAt(states[n], id, q)
    decreases n - k
  {
    hide Step, Enabled, Initial, IsAt;
    if k < n {
      var s, e := states[k], events[k];
      assert Enabled(cfg, s, e) && states[k + 1] == Step(cfg, s, e);
      RunGood(cfg, states, events, k);
      assert IsAt(states[k + 1], id, q) by {
        if q < |s.locs| && id in s.locs[q].hash {
          RecordStays(cfg, s, e, id, q);
        } else {
          var i := MigrantOf(s, id, q);
          MigrantStays(cfg, s, e, id, i);
        }
      }
      PlaceStays(cfg, states, events, k + 1, n, id, q);
    }
  }

  lemma MigrantOf(s: Sys, id: Id, q: Pe) returns (i: nat)
    requires IsAt(s, id, q) && !(q < |s.locs| && id in s.locs[q].hash)
    ensures i < |s.net| && s.net[i].to == q && s.net[i].packet.Migrate? && s.net[i].packet.id == id
  {
    i :| 0 <= i < |s.net| && s.net[i].to == q && s.net[i].packet.Migrate? && s.net[i].packet.id == id;
  }

  lemma OnlyBeenHere(cfg: Config, states: seq<Sys>, events: seq<Event>, n: nat, id: Id, p: Pe, q: Pe)
    requires Run(cfg, states, events) && n < |states| && Unmoved(events, id, n) && states[n].net == []
    requires Resides(states[n], p, id) && id in states[n].names.Values && Been(states[..n + 1], id, q)
    ensures q == p
  {
    var k :| 0 <= k < |states[..n + 1]| && IsAt(states[..n + 1][k], id, q);
    PlaceStays(cfg, states, events, k, n, id, q);
    RunGood(cfg, states, events, n);
    hide Run, Good, Unmoved;
    assert Resides(states[n], q, id);
    ConservedHolder(cfg, states[n], id);
  }

  /** What a record, and the naming of indices, say of each other. */
  lemma RecordNamed(cfg: Config, s: Sys, p: Pe, id: Id)
    requires Good(cfg, s) && p < |s.locs| && id in s.locs[p].hash
    ensures var idx := s.locs[p].hash[id].idx;
      && Named(s.names, idx, id) && id in s.names.Values && cfg.home(idx) < |s.locs| && s.locs[p].me == p
      && (cfg.packed ==> cfg.pack(idx) == id && cfg.unpack(id) == idx)
  {
    hide Served, Conserved, CreatorOk, IdsOk, PesOk, IndexOk, RequestsOk, MsgsOk, HeldOk, AllMailOk;
    assert LocSane(cfg, s.names, s.locs[p]);
  }

  lemma BelievesRight(cfg: Config, states: seq<Sys>, events: seq<Event>, n: nat, id: Id, p: Pe, q: Pe)
    requires Run(cfg, states, events) && n < |states| && Unmoved(events, id, n) && states[n].net == []
    requires p < |states[n].locs| && id in states[n].locs[p].hash && q < |states[n].locs| && id in states[n].locs[q].id2pe
    ensures var (v, home) := (states[n].locs[q].id2pe[id], cfg.home(states[n].locs[p].hash[id].idx));
      v == p || (cfg.packed && q != home && v == home)
  {
    var v := states[n].locs[q].id2pe[id];
    RunGood(cfg, states, events, n);
    NoPlaceInvented(cfg, states, events, n, id);
    hide Run, Unmoved, Been, Good;
    assert Stated(cfg, states[..n + 1], id, q, v);
    RecordNamed(cfg, states[n], p, id);
    if Been(states[..n + 1], id, v) {
      assert Resides(states[n], p, id);
      OnlyBeenHere(cfg, states, events, n, id, p, v);
    }
  }

  lemma HomeKnows(cfg: Config, s: Sys, idx: Idx)
    requires Good(cfg, s) && idx in s.names && s.net == []
    ensures var home := cfg.home(idx);
      home < |s.locs| && s.names[idx] in s.locs[home].id2pe && LookupId(cfg, s.locs[home], idx) == Some(s.names[idx])
  {
    assert HomeHears(cfg, s, idx);
    hide Served, Conserved, CreatorOk, RecordsOk, PesOk, IndexOk, RequestsOk, MsgsOk, HeldOk, AllMailOk;
    assert LocSane(cfg, s.names, s.locs[cfg.home(idx)]);
  }

  /** At rest, everybody is right about an element that was never moved: its home knows where it is,
      and others believe that, or, with a compressor, that it is at home. */
  lemma HomeIsRight(cfg: Config, states: seq<Sys>, events: seq<Event>, n: nat, id: Id, p: Pe)
    requires Run(cfg, states, events) && n < |states| && Unmoved(events, id, n) && states[n].net == []
    requires p < |states[n].locs| && id in states[n].locs[p].hash
    ensures var (s, home) := (states[n], cfg.home(states[n].locs[p].hash[id].idx));
      && home < |s.locs| && id in s.locs[home].id2pe && s.locs[home].id2pe[id] == p
      && LookupId(cfg, s.locs[home], s.locs[p].hash[id].idx) == Some(id)
      && forall q :: 0 <= q < |s.locs| && id in s.locs[q].id2pe ==>
           s.locs[q].id2pe[id] == p || (cfg.packed && q != home && s.locs[q].id2pe[id] == home)
  {
    var s, idx := states[n], states[n].locs[p].hash[id].idx;
    RunGood(cfg, states, events, n);
    RecordNamed(cfg, s, p, id);
    HomeKnows(cfg, s, idx);
    hide Run, Good, Unmoved, Named;
    forall q | 0 <= q < |s.locs| && id in s.locs[q].id2pe
      ensures s.locs[q].id2pe[id] == p || (cfg.packed && q != cfg.home(idx) && s.locs[q].id2pe[id] == cfg.home(idx))
    {
      BelievesRight(cfg, states, events, n, id, p, q);
    }
  }

  /** The message leaves l for p at once. */
  ghost predicate GoesThere(cfg: Config, l: Loc, id: Id, m: Msg, p: Pe) {
    var e := SendMsg(cfg, l, m, true);
    e.ran == [] && e.out == [Mail(p, Data(Parcel(m, 1), id))]
  }

  /** The message leaves l for the home h, which passes it on to p. */
  ghost predicate GoesByHome(cfg: Config, l: Loc, h: Loc, id: Id, m: Msg, p: Pe) {
    && GoesThere(cfg, l, id, m, h.me)
    && OnPacket(cfg, h, Data(Parcel(m, 1), id)) == Some(Effect(h, [Mail(p, Data(Parcel(m, 2), id))], []))
  }

  /** The message waits while l asks the home h, by index or, for a big one, by ID; the home answers
      p, and with the answer the message leaves for p. */
  ghost predicate GoesOnceAnswered(cfg: Config, l: Loc, h: Loc, id: Id, m: Msg, p: Pe) {
    var e := SendMsg(cfg, l, m, true);
    && e.ran == []
    && if LookupId(cfg, l, m.idx).None? then
         && e.out == [Mail(h.me, RequestIdx(m.idx, l.me))]
         && OnPacket(cfg, h, RequestIdx(m.idx, l.me)) == Some(Effect(h, [Mail(l.me, UpdateIdx(m.idx, id, p))], []))
         && Mail(p, Data(Parcel(m, 1), id)) in OnUpdateIdx(cfg, e.loc, m.idx, id, p).out
       else
         && m.big && e.out == [Mail(h.me, RequestId(id, l.me))]
         && OnPacket(cfg, h, RequestId(id, l.me)) == Some(Effect(h, [Mail(l.me, UpdateId(id, p))], []))
         && Mail(p, Data(Parcel(m, 1), id)) in OnUpdateId(e.loc, id, p).out
  }

  lemma KnownGoes(cfg: Config, l: Loc, h: Loc, id: Id, m: Msg, p: Pe)
    requires LookupId(cfg, l, m.idx) == Some(id) && id !in l.hash && id in l.id2pe
    requires l.id2pe[id] == p || (l.id2pe[id] == h.me && id !in h.hash && id in h.id2pe && h.id2pe[id] == p)
    ensures GoesThere(cfg, l, id, m, p) || GoesByHome(cfg, l, h, id, m, p)
  {
  }

  lemma UnknownGoes(cfg: Config, l: Loc, h: Loc, id: Id, m: Msg, p: Pe)
    requires LookupId(cfg, l, m.idx) == Some(id) && id !in l.hash && id !in l.id2pe && id !in l.held.remote
    requires h.me == cfg.home(m.idx) != l.me && id in h.id2pe && h.id2pe[id] == p && (id in h.hash ==> p == h.me)
    ensures GoesThere(cfg, l, id, m, p) || GoesByHome(cfg, l, h, id, m, p) || GoesOnceAnswered(cfg, l, h, id, m, p)
  {
    if m.big {
      BigThroughHome(cfg, l, h, Parcel(m, 0), id, Some(m.idx), true);
      hide OnUpdateId, OnPacket, DeliverMsg;
    } else {
      ThroughHome(cfg, l, h, Parcel(m, 0), id, Some(m.idx), true);
      hide OnPacket, DeliverMsg;
    }
  }

  lemma UnheardGoes(cfg: Config, l: Loc, h: Loc, id: Id, m: Msg, p: Pe)
    requires LookupId(cfg, l, m.idx).None? && id !in l.hash && m.idx !in l.held.index
    requires h.me == cfg.home(m.idx) != l.me && LookupId(cfg, h, m.idx) == Some(id) && id in h.id2pe && h.id2pe[id] == p
    ensures GoesOnceAnswered(cfg, l, h, id, m, p)
  {
    var e := SendMsg(cfg, l, m, true);
    assert At(e.loc.held.index, m.idx) == [Parcel(m, 0)];
    RequestAnswered(cfg, h, m.idx, l.me);
    UpdateReleases(cfg, e.loc, m.idx, id, p, Parcel(m, 0));
    hide OnUpdateIdx, OnPacket;
  }

  /** At rest, a message sent from anywhere to an element that was never moved finds it: it leaves
      for there, or by way of the home, or once the home has answered; and there it is executed. */
  lemma FoundIfUnmoved(cfg: Config, states: seq<Sys>, events: seq<Event>, n: nat, id: Id, p: Pe, q: Pe, m: Msg, hops: nat)
    requires Run(cfg, states, events) && n < |states| && Unmoved(events, id, n) && states[n].net == []
    requires p < |states[n].locs| && id in states[n].locs[p].hash && m.idx == states[n].locs[p].hash[id].idx
    requires m.mgr < states[n].locs[p].managers && m.mgr in states[n].locs[p].hash[id].elts
    requires q < |states[n].locs| && q != p
    ensures cfg.home(m.idx) < |states[n].locs|
    ensures var (l, h) := (states[n].locs[q], states[n].locs[cfg.home(m.idx)]);
      GoesThere(cfg, l, id, m, p) || GoesByHome(cfg, l, h, id, m, p) || GoesOnceAnswered(cfg, l, h, id, m, p)
    ensures OnPacket(cfg, states[n].locs[p], Data(Parcel(m, hops), id)).value.ran == [m]
  {
    var s := states[n];
    HomeIsRight(cfg, states, events, n, id, p);
    NoneWaitForKnown(cfg, states, events, n, q);
    RunGood(cfg, states, events, n);
    RecordNamed(cfg, s, p, id);
    ExecutedHere(cfg, s.locs[p], Parcel(m, hops), id);
    var l, h := s.locs[q], s.locs[cfg.home(m.idx)];
    Elsewhere(cfg, s, id, p, q);
    Elsewhere(cfg, s, id, p, cfg.home(m.idx));
    LooksUp(cfg, s, q, m.idx);
    hide Run, Good, Unmoved, OnPacket, GoesThere, GoesByHome, GoesOnceAnswered;
    if LookupId(cfg, l, m.idx).None? {
      UnheardGoes(cfg, l, h, id, m, p);
    } else if id in l.id2pe {
      KnownGoes(cfg, l, h, id, m, p);
    } else {
      UnknownGoes(cfg, l, h, id, m, p);
    }
  }

  lemma Elsewhere(cfg: Config, s: Sys, id: Id, p: Pe, q: Pe)
    requires Good(cfg, s) && p < |s.locs| && q < |s.locs| && id in s.locs[p].hash && id in s.names.Values
    ensures q != p ==> id !in s.locs[q].hash
    ensures s.locs[q].me == q
  {
    ConservedHolder(cfg, s, id);
    assert Resides(s, p, id);
    if q != p { assert !Resides(s, q, id); }
  }

  lemma LooksUp(cfg: Config, s: Sys, q: Pe, idx: Idx)
    requires Good(cfg, s) && q < |s.locs| && idx in s.names
    ensures LookupId(cfg, s.locs[q], idx).Some? ==> LookupId(cfg, s.locs[q], idx) == Some(s.names[idx])
  {
    hide Served, Conserved, CreatorOk, RecordsOk, PesOk, IndexOk, RequestsOk, MsgsOk, HeldOk, AllMailOk;
    assert LocSane(cfg, s.names, s.locs[q]);
  }
}
