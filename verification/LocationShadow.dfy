/** Messages for an element of a bound array that does not exist yet, held beside the record of
    its index.  They wait correctly exactly as long as no record leaves such messages behind; a
    run in which one does strands a message.
 */
module LocationShadow {
  import opened Options
  import opened Seqs
  import opened Location
  import opened LocationConserve
  import opened LocationSystem
  import opened LocationSane
  import opened LocationPaths
  import opened LocationRuns

  // ---------------------------------------------------------------- one processor

  predicate Waits(hash: map<Id, Rec>, id: Id, mgr: Mgr) {
    id in hash && mgr !in hash[id].elts
  }

  /** What is held beside a record is for arrays that have no element there. */
  ghost predicate ShadowOk(l: Loc) {
    forall id, i :: id in l.held.shadow && 0 <= i < |l.held.shadow[id]| ==>
      Waits(l.hash, id, l.held.shadow[id][i].msg.mgr)
  }

  /** Elements are of arrays registered here. */
  ghost predicate EltsOk(l: Loc) {
    forall id, e :: id in l.hash && e in l.hash[id].elts ==> e < l.managers
  }

  lemma DeliverShadow(cfg: Config, l: Loc, x: Parcel, id: Id, idx: Option<Idx>, direct: bool)
    requires ShadowOk(l) && EltsOk(l)
    ensures var l' := DeliverMsg(cfg, l, x, id, idx, direct).loc;
      ShadowOk(l') && l'.hash == l.hash && l'.managers == l.managers
  {
    if id !in l.hash || !direct {
      hide HomeFor;
    }
  }

  lemma SendShadow(cfg: Config, l: Loc, m: Msg, direct: bool)
    requires ShadowOk(l) && EltsOk(l)
    ensures var l' := SendMsg(cfg, l, m, direct).loc;
      ShadowOk(l') && l'.hash == l.hash && l'.managers == l.managers
  {
    hide DeliverMsg;
    match LookupId(cfg, l, m.idx)
    case Some(id) => DeliverShadow(cfg, l, Parcel(m, 0), id, Some(m.idx), direct);
    case None =>
  }

  lemma CreateShadow(cfg: Config, l: Loc, idx: Idx, id: Id, elts: set<Mgr>, notify: bool)
    requires ShadowOk(l) && id !in l.hash
    ensures var l' := CreateLocal(cfg, l, idx, id, elts, notify).loc;
      ShadowOk(l') && l'.hash == l.hash[id := Rec(idx, elts)] && l'.managers == l.managers
  {
    hide Forward, Replies, HomeNotice;
  }

  lemma AddElementShadow(cfg: Config, l: Loc, idx: Idx, mgr: Mgr)
    requires ShadowOk(l) && AddElement(cfg, l, idx, mgr).Some?
    ensures var (l', id) := (AddElement(cfg, l, idx, mgr).value.loc, NewId(cfg, l, idx).1);
      && ShadowOk(l') && l'.managers == l.managers
      && l'.hash == l.hash[id := if id in l.hash then l.hash[id].(elts := l.hash[id].elts + {mgr}) else Rec(idx, {mgr})]
  {
    hide Forward, CreateLocal;
    var (l1, id) := NewId(cfg, l, idx);
    assert l1.hash == l.hash && l1.held == l.held && l1.managers == l.managers;
    if id !in l1.hash { CreateShadow(cfg, l1, idx, id, {mgr}, true); }
  }

  /** Handling a packet keeps them waiting correctly, whatever the packet. */
  lemma PacketShadow(cfg: Config, l: Loc, p: Packet)
    requires ShadowOk(l) && EltsOk(l) && OnPacket(cfg, l, p).Some? && (p.Migrate? ==> p.id !in l.hash)
    ensures var l' := OnPacket(cfg, l, p).value.loc;
      && ShadowOk(l') && l'.managers == l.managers
      && l'.hash == if p.Migrate? && p.nManagers == l.managers then l.hash[p.id := Rec(p.idx, p.elts)] else l.hash
  {
    hide Forward, Replies, DeliverMsg, CreateLocal;
    match p
    case Data(x, id) => DeliverShadow(cfg, l, x, id, None, true);
    case RequestIdx(_, _) =>
    case RequestId(_, _) =>
    case UpdateIdx(_, _, _) =>
    case UpdateId(_, _) =>
    case Migrate(idx, id, n, elts) =>
      if n == l.managers { CreateShadow(cfg, InsertId(cfg, l, idx, id), idx, id, elts, false); }
  }

  /** Emigration keeps them waiting correctly if and only if it leaves none behind. */
  lemma EmigrateShadowIff(cfg: Config, l: Loc, id: Id, to: Pe)
    requires ShadowOk(l) && id in l.hash && to != l.me
    ensures ShadowOk(Emigrate(cfg, l, id, to).loc) <==> At(l.held.shadow, id) == []
    ensures Emigrate(cfg, l, id, to).loc.hash == l.hash - {id} && Emigrate(cfg, l, id, to).loc.managers == l.managers
  {
    hide Forward, Replies, HomeNotice;
    var l' := Emigrate(cfg, l, id, to).loc;
    assert l'.held.shadow == l.held.shadow && l'.hash == l.hash - {id};
    hide Emigrate;
    if At(l.held.shadow, id) != [] {
      assert !Waits(l'.hash, id, l.held.shadow[id][0].msg.mgr);
    }
  }

  // ---------------------------------------------------------------- who carries elements

  ghost predicate Plain(out: seq<Mail>) {
    forall m :: m in out ==> !m.packet.Migrate?
  }

  lemma ForwardPlain(l: Loc, id: Id, xs: seq<Parcel>)
    requires Settled(l, id)
    ensures Plain(Forward(l, id, xs))
  {
    forall m | m in Forward(l, id, xs)
      ensures !m.packet.Migrate?
    {
      ForwardGoes(l, id, xs, m);
    }
  }

  lemma InformIdxPlain(cfg: Config, l: Loc, idx: Idx, id: Id, pe: Pe)
    ensures Plain(InformIdx(cfg, l, idx, id, pe).out) && Settled(InformIdx(cfg, l, idx, id, pe).loc, id)
    ensures Plain(OnUpdateIdx(cfg, l, idx, id, pe).out)
  {
    forall m | m in OnUpdateIdx(cfg, l, idx, id, pe).out
      ensures !m.packet.Migrate?
    {
      UpdateSends(cfg, l, idx, id, pe, m);
    }
    assert forall m :: m in InformIdx(cfg, l, idx, id, pe).out ==> m in OnUpdateIdx(cfg, l, idx, id, pe).out;
  }

  lemma CreatePlain(cfg: Config, l: Loc, idx: Idx, id: Id, elts: set<Mgr>, notify: bool)
    ensures Plain(CreateLocal(cfg, l, idx, id, elts, notify).out)
  {
    InformIdxPlain(cfg, l.(hash := l.hash[id := Rec(idx, elts)]), idx, id, l.me);
    hide InformIdx;
  }

  lemma AddElementPlain(cfg: Config, l: Loc, idx: Idx, mgr: Mgr)
    requires AddElement(cfg, l, idx, mgr).Some?
    ensures Plain(AddElement(cfg, l, idx, mgr).value.out)
  {
    var (l1, id) := NewId(cfg, l, idx);
    hide CreateLocal, Forward;
    if id !in l1.hash { CreatePlain(cfg, l1, idx, id, {mgr}, true); } else { ForwardPlain(l1, id, At(l1.held.shadow, id)); }
  }

  lemma UpdateIdPlain(l: Loc, id: Id, pe: Pe)
    ensures Plain(OnUpdateId(l, id, pe).out)
  {
    var e := InformId(l, id, pe);
    ForwardPlain(l.(id2pe := l.id2pe[id := pe]), id, At(l.held.msgs, id));
    ForwardPlain(e.loc, id, At(e.loc.held.remote, id));
    hide Forward;
  }

  lemma PacketPlain(cfg: Config, l: Loc, p: Packet, m: Mail)
    requires OnPacket(cfg, l, p).Some? && m in OnPacket(cfg, l, p).value.out && m.packet.Migrate?
    ensures m.packet == p && p.nManagers > l.managers
  {
    hide CreateLocal, OnUpdateIdx, OnUpdateId;
    match p
    case Data(x, id) =>
    case RequestIdx(_, _) =>
    case RequestId(_, _) =>
    case UpdateIdx(idx, id, pe) => InformIdxPlain(cfg, l, idx, id, pe);
    case UpdateId(id, pe) => UpdateIdPlain(l, id, pe);
    case Migrate(idx, id, n, elts) =>
      if n == l.managers { CreatePlain(cfg, InsertId(cfg, l, idx, id), idx, id, elts, false); }
  }

  lemma EmigratePlain(cfg: Config, l: Loc, id: Id, to: Pe, m: Mail)
    requires id in l.hash && m in Emigrate(cfg, l, id, to).out && m.packet.Migrate?
    ensures m.packet == Migrate(l.hash[id].idx, id, l.managers, l.hash[id].elts)
  {
    hide InformIdx;
    if to != l.me { InformIdxPlain(cfg, l.(hash := l.hash - {id}), l.hash[id].idx, id, to); }
  }

  // ---------------------------------------------------------------- elements made

  predicate Makes(e: Event, idx: Idx, mgr: Mgr) {
    e.Create? && e.idx == idx && e.mgr == mgr
  }

  /** The history says that this array's element at this index was created. */
  ghost predicate Made(events: seq<Event>, idx: Idx, mgr: Mgr) {
    exists k :: 0 <= k < |events| && Makes(events[k], idx, mgr)
  }

  lemma MadeNext(events: seq<Event>, e: Event, idx: Idx, mgr: Mgr)
    ensures Made(events + [e], idx, mgr) <==> Made(events, idx, mgr) || Makes(e, idx, mgr)
  {
    var after := events + [e];
    if Made(events, idx, mgr) {
      var k :| 0 <= k < |events| && Makes(events[k], idx, mgr);
      assert Makes(after[k], idx, mgr);
    }
    if Makes(e, idx, mgr) { assert Makes(after[|events|], idx, mgr); }
  }

  ghost predicate TrueTo(events: seq<Event>, idx: Idx, elts: set<Mgr>, managers: nat) {
    forall mgr: Mgr :: (mgr in elts <==> Made(events, idx, mgr)) && (mgr in elts ==> mgr < managers)
  }

  ghost predicate RecordTrue(events: seq<Event>, l: Loc, id: Id)
    requires id in l.hash
  {
    TrueTo(events, l.hash[id].idx, l.hash[id].elts, l.managers)
  }

  ghost predicate PacketTrue(events: seq<Event>, p: Packet) {
    p.Migrate? ==> TrueTo(events, p.idx, p.elts, p.nManagers)
  }

  ghost predicate NamedIfMade(events: seq<Event>, names: map<Idx, Id>) {
    forall idx, mgr :: Made(events, idx, mgr) ==> idx in names
  }

  /** Records and migrating packets list exactly the elements made; what ran was for one of them. */
  ghost predicate True(s: Sys, events: seq<Event>) {
    && (forall p, id :: 0 <= p < |s.locs| && id in s.locs[p].hash ==> RecordTrue(events, s.locs[p], id))
    && (forall m :: m in s.net ==> PacketTrue(events, m.packet))
    && NamedIfMade(events, s.names)
    && (forall m :: m in s.ran ==> Made(events, m.idx, m.mgr))
  }

  // ---------------------------------------------------------------- what a step does to records

  lemma SendHash(cfg: Config, l: Loc, m: Msg, direct: bool)
    ensures var l' := SendMsg(cfg, l, m, direct).loc; l'.hash == l.hash && l'.managers == l.managers
  {
  }

  lemma PacketHash(cfg: Config, l: Loc, p: Packet)
    requires OnPacket(cfg, l, p).Some?
    ensures var l' := OnPacket(cfg, l, p).value.loc;
      && l'.managers == l.managers
      && l'.hash == if p.Migrate? && p.nManagers == l.managers then l.hash[p.id := Rec(p.idx, p.elts)] else l.hash
  {
    hide Forward, Replies;
  }

  lemma AddElementHash(cfg: Config, l: Loc, idx: Idx, mgr: Mgr)
    requires AddElement(cfg, l, idx, mgr).Some?
    ensures var (l', id) := (AddElement(cfg, l, idx, mgr).value.loc, NewId(cfg, l, idx).1);
      && l'.managers == l.managers
      && l'.hash == l.hash[id := if id in l.hash then l.hash[id].(elts := l.hash[id].elts + {mgr}) else Rec(idx, {mgr})]
  {
    hide Forward, Replies;
  }

  ghost function HashAfter(cfg: Config, s: Sys, e: Event): map<Id, Rec>
    requires Enabled(cfg, s, e)
  {
    var l := s.locs[Actor(s, e)];
    match e
    case Send(_, _, _) => l.hash
    case Deliver(i) =>
      var p := s.net[i].packet;
      if p.Migrate? && p.nManagers == l.managers then l.hash[p.id := Rec(p.idx, p.elts)] else l.hash
    case Create(_, idx, mgr) =>
      var id := NewId(cfg, l, idx).1;
      l.hash[id := if id in l.hash then l.hash[id].(elts := l.hash[id].elts + {mgr}) else Rec(idx, {mgr})]
    case Move(_, id, to) => if to == l.me then l.hash else l.hash - {id}
    case Register(_) => l.hash
  }

  lemma ActHash(cfg: Config, s: Sys, e: Event)
    requires Enabled(cfg, s, e)
    ensures var (l, l') := (s.locs[Actor(s, e)], Act(cfg, s, e).loc);
      l'.hash == HashAfter(cfg, s, e) && l'.managers == l.managers + if e.Register? then 1 else 0
  {
    hide SendMsg, OnPacket, AddElement, InformIdx, NewId;
    var l := s.locs[Actor(s, e)];
    match e
    case Send(_, m, direct) => SendHash(cfg, l, m, direct);
    case Deliver(i) => PacketHash(cfg, l, s.net[i].packet);
    case Create(_, idx, mgr) => AddElementHash(cfg, l, idx, mgr);
    case Move(_, id, to) => EmigrateHash(cfg, l, id, to);
    case Register(_) =>
  }

  lemma EmigrateHash(cfg: Config, l: Loc, id: Id, to: Pe)
    requires id in l.hash
    ensures var l' := Emigrate(cfg, l, id, to).loc; l'.hash == (if to == l.me then l.hash else l.hash - {id}) && l'.managers == l.managers
  {
    hide Forward, Replies, HomeNotice;
  }

  /** Only a move and a bounced arrival put an element on the network. */
  lemma ActCarries(cfg: Config, s: Sys, e: Event, m: Mail)
    requires Enabled(cfg, s, e) && m in Act(cfg, s, e).out && m.packet.Migrate?
    ensures var l := s.locs[Actor(s, e)];
      || (e.Deliver? && m.packet == s.net[e.i].packet)
      || (e.Move? && m.packet == Migrate(l.hash[e.id].idx, e.id, l.managers, l.hash[e.id].elts))
  {
    hide OnPacket, AddElement, Emigrate;
    var l := s.locs[Actor(s, e)];
    match e
    case Send(_, msg, direct) =>
    case Deliver(i) => PacketPlain(cfg, l, s.net[i].packet, m);
    case Create(_, idx, mgr) => AddElementPlain(cfg, l, idx, mgr);
    case Move(_, id, to) => EmigratePlain(cfg, l, id, to, m);
    case Register(_) =>
  }

  // ---------------------------------------------------------------- the history stays true

  lemma SameTrue(events: seq<Event>, e: Event, idx: Idx, elts: set<Mgr>, managers: nat, more: nat)
    requires TrueTo(events, idx, elts, managers) && !(e.Create? && e.idx == idx) && managers <= more
    ensures TrueTo(events + [e], idx, elts, more)
  {
    forall mgr: Mgr
      ensures (mgr in elts <==> Made(events + [e], idx, mgr)) && (mgr in elts ==> mgr < more)
    {
      MadeNext(events, e, idx, mgr);
    }
    hide Made;
  }

  lemma HeldOnce(cfg: Config, s: Sys, at: Pe, id: Id)
    requires Good(cfg, s) && Resides(s, at, id) && id in s.names.Values
    ensures (forall p: Pe :: Resides(s, p, id) ==> p == at) && (forall i: nat :: !Migrating(s.net, i, id))
  {
    hide Good, Resides, Migrating;
    ConservedHolder(cfg, s, id);
  }

  /** An index that is new, or resident at `at`, is held nowhere else. */
  lemma NotElsewhere(cfg: Config, s: Sys, idx: Idx, at: Pe, p: Pe, id: Id)
    requires Good(cfg, s) && at < |s.locs| && (idx !in s.names || s.names[idx] in s.locs[at].hash)
    requires p < |s.locs| && p != at && id in s.locs[p].hash
    ensures s.locs[p].hash[id].idx != idx
  {
    NamedRecord(cfg, s, p, id);
    hide Good;
    if s.locs[p].hash[id].idx == idx {
      assert s.names[idx] in s.names.Values;
      assert Resides(s, p, id) && Resides(s, at, id);
      HeldOnce(cfg, s, at, id);
    }
  }

  lemma NotUnderWay(cfg: Config, s: Sys, idx: Idx, at: Pe, m: Mail)
    requires Good(cfg, s) && at < |s.locs| && (idx !in s.names || s.names[idx] in s.locs[at].hash)
    requires m in s.net && m.packet.Migrate?
    ensures m.packet.idx != idx
  {
    NamedPacket(cfg, s, m);
    hide Good;
    if m.packet.idx == idx {
      assert s.names[idx] in s.names.Values;
      var i :| 0 <= i < |s.net| && s.net[i] == m;
      assert Migrating(s.net, i, m.packet.id) && Resides(s, at, m.packet.id);
      HeldOnce(cfg, s, at, m.packet.id);
    }
  }

  lemma NamedRecord(cfg: Config, s: Sys, p: Pe, id: Id)
    requires Good(cfg, s) && p < |s.locs| && id in s.locs[p].hash
    ensures Named(s.names, s.locs[p].hash[id].idx, id)
  {
    hide Conserved, Served;
    assert LocSane(cfg, s.names, s.locs[p]);
  }

  lemma NamedPacket(cfg: Config, s: Sys, m: Mail)
    requires Good(cfg, s) && m in s.net && m.packet.Migrate?
    ensures Named(s.names, m.packet.idx, m.packet.id)
  {
    hide Conserved, Served;
    var i :| 0 <= i < |s.net| && s.net[i] == m;
    assert MailOk(cfg, s.names, s.net[i]);
  }

  /** What the event's processor holds afterwards is true to the history. */
  lemma ActorTrue(cfg: Config, s: Sys, e: Event, events: seq<Event>, id: Id)
    requires Good(cfg, s) && True(s, events) && Enabled(cfg, s, e) && id in HashAfter(cfg, s, e)
    ensures var l := s.locs[Actor(s, e)];
      var rec := HashAfter(cfg, s, e)[id];
      TrueTo(events + [e], rec.idx, rec.elts, l.managers + if e.Register? then 1 else 0)
  {
    hide AddElement, OnPacket, NewId, Conserved, Served, AllSane, ConfigOk, TrueTo, NamedIfMade, Made;
    var p := Actor(s, e);
    var l := s.locs[p];
    assert id in l.hash ==> RecordTrue(events, l, id);
    match e
    case Send(_, _, _) => SameTrue(events, e, l.hash[id].idx, l.hash[id].elts, l.managers, l.managers);
    case Register(_) => SameTrue(events, e, l.hash[id].idx, l.hash[id].elts, l.managers, l.managers + 1);
    case Move(_, _, _) => SameTrue(events, e, l.hash[id].idx, l.hash[id].elts, l.managers, l.managers);
    case Deliver(i) =>
      var k := s.net[i].packet;
      assert PacketTrue(events, k);
      var rec := HashAfter(cfg, s, e)[id];
      SameTrue(events, e, rec.idx, rec.elts, l.managers, l.managers);
    case Create(_, idx, mgr) => CreatedTrue(cfg, s, e, events, id);
  }

  lemma CreatedTrue(cfg: Config, s: Sys, e: Event, events: seq<Event>, id: Id)
    requires Good(cfg, s) && True(s, events) && Enabled(cfg, s, e) && e.Create? && id in HashAfter(cfg, s, e)
    ensures var rec := HashAfter(cfg, s, e)[id]; TrueTo(events + [e], rec.idx, rec.elts, s.locs[e.pe].managers)
  {
    hide AddElement, OnPacket, NewId, Conserved, Served, AllSane, ConfigOk, Made, TrueTo;
    var l := s.locs[e.pe];
    var nid := NewId(cfg, l, e.idx).1;
    CreatedName(cfg, s, e);
    if id in l.hash {
      NamedRecord(cfg, s, e.pe, id);
      if id == nid { OneIndex(cfg, s, l.hash[id].idx, e.idx); }
      assert RecordTrue(events, l, id);
    }
    assert NamedIfMade(events, s.names) && e.mgr < l.managers;
    hide Good, True, Enabled;
    if id != nid {
      SameTrue(events, e, l.hash[id].idx, l.hash[id].elts, l.managers, l.managers);
    } else {
      var elts := if nid in l.hash then l.hash[nid].elts else {};
      if nid !in l.hash { NothingMade(events, s.names, e.idx, l.managers); }
      MoreTrue(events, e, elts, l.managers);
      assert {} + {e.mgr} == {e.mgr};
    }
  }

  lemma OneIndex(cfg: Config, s: Sys, i: Idx, j: Idx)
    requires Good(cfg, s) && i in s.names && j in s.names && s.names[i] == s.names[j]
    ensures i == j
  {
  }

  lemma NothingMade(events: seq<Event>, names: map<Idx, Id>, idx: Idx, managers: nat)
    requires NamedIfMade(events, names) && idx !in names
    ensures TrueTo(events, idx, {}, managers)
  {
  }

  lemma MoreTrue(events: seq<Event>, e: Event, elts: set<Mgr>, managers: nat)
    requires e.Create? && TrueTo(events, e.idx, elts, managers) && e.mgr < managers
    ensures TrueTo(events + [e], e.idx, elts + {e.mgr}, managers)
  {
    forall mgr: Mgr
      ensures (mgr in elts + {e.mgr} <==> Made(events + [e], e.idx, mgr)) && (mgr in elts + {e.mgr} ==> mgr < managers)
    {
      MadeNext(events, e, e.idx, mgr);
    }
  }

  /** The ID a creation uses is the index's, and an index without a record here was never made. */
  lemma CreatedName(cfg: Config, s: Sys, e: Event)
    requires Good(cfg, s) && Enabled(cfg, s, e) && e.Create?
    ensures var id := NewId(cfg, s.locs[e.pe], e.idx).1;
      && (id in s.locs[e.pe].hash <==> e.idx in s.names) && (e.idx in s.names ==> s.names[e.idx] == id)
  {
    hide Conserved, Served, Sane, CreatorOk, NamesOk, ConfigOk, AllMailOk, NewId, AddElement;
    var l := s.locs[e.pe];
    assert LocSane(cfg, s.names, l);
    if e.idx in s.names { BoundLookup(cfg, s.names, l, e.idx); } else { NewIdFresh(cfg, s.names, l, e.idx); }
  }

  lemma OtherTrue(cfg: Config, s: Sys, e: Event, events: seq<Event>, p: Pe, id: Id)
    requires Good(cfg, s) && True(s, events) && Enabled(cfg, s, e) && p < |s.locs| && p != Actor(s, e) && id in s.locs[p].hash
    ensures RecordTrue(events + [e], s.locs[p], id)
  {
    hide AddElement, OnPacket, NewId, Conserved, Served, AllSane, ConfigOk, TrueTo, NamedIfMade, Made;
    assert RecordTrue(events, s.locs[p], id);
    if e.Create? { NotElsewhere(cfg, s, e.idx, e.pe, p, id); }
    var rec := s.locs[p].hash[id];
    SameTrue(events, e, rec.idx, rec.elts, s.locs[p].managers, s.locs[p].managers);
  }

  lemma UnderWayTrue(cfg: Config, s: Sys, e: Event, events: seq<Event>, m: Mail)
    requires Good(cfg, s) && True(s, events) && Enabled(cfg, s, e) && m in s.net
    ensures PacketTrue(events + [e], m.packet)
  {
    hide AddElement, OnPacket, NewId, Conserved, Served, AllSane, ConfigOk, TrueTo, NamedIfMade, Made;
    if m.packet.Migrate? {
      assert PacketTrue(events, m.packet);
      if e.Create? { NotUnderWay(cfg, s, e.idx, e.pe, m); }
      SameTrue(events, e, m.packet.idx, m.packet.elts, m.packet.nManagers, m.packet.nManagers);
    }
  }

  lemma SentTrue(cfg: Config, s: Sys, e: Event, events: seq<Event>, m: Mail)
    requires Good(cfg, s) && True(s, events) && Enabled(cfg, s, e) && m in Act(cfg, s, e).out
    ensures PacketTrue(events + [e], m.packet)
  {
    hide Act, AddElement, OnPacket, NewId, Conserved, Served, AllSane, ConfigOk, TrueTo, NamedIfMade, Made;
    if m.packet.Migrate? {
      ActCarries(cfg, s, e, m);
      if e.Deliver? {
        UnderWayTrue(cfg, s, e, events, s.net[e.i]);
      } else {
        var l := s.locs[e.pe];
        assert RecordTrue(events, l, e.id);
        SameTrue(events, e, l.hash[e.id].idx, l.hash[e.id].elts, l.managers, l.managers);
      }
    }
  }

  lemma NamesTrue(cfg: Config, s: Sys, e: Event, events: seq<Event>)
    requires Good(cfg, s) && NamedIfMade(events, s.names) && Enabled(cfg, s, e)
    ensures NamedIfMade(events + [e], Step(cfg, s, e).names)
  {
    hide Act, AddElement, OnPacket, NewId, Good, Enabled;
    forall idx, mgr | Made(events + [e], idx, mgr)
      ensures idx in Step(cfg, s, e).names
    {
      MadeNext(events, e, idx, mgr);
    }
  }

  ghost predicate Lives(l: Loc, m: Msg) {
    exists id :: id in l.hash && l.hash[id].idx == m.idx && m.mgr in l.hash[id].elts
  }

  lemma RanTrue(cfg: Config, s: Sys, e: Event, events: seq<Event>, m: Msg)
    requires True(s, events) && Enabled(cfg, s, e) && Lives(s.locs[Actor(s, e)], m)
    ensures Made(events + [e], m.idx, m.mgr)
  {
    hide AddElement, OnPacket, NamedIfMade, Made;
    var l := s.locs[Actor(s, e)];
    var id :| id in l.hash && l.hash[id].idx == m.idx && m.mgr in l.hash[id].elts;
    assert RecordTrue(events, l, id);
    MadeNext(events, e, m.idx, m.mgr);
  }

  lemma StepTrue(cfg: Config, s: Sys, e: Event, events: seq<Event>)
    requires Good(cfg, s) && True(s, events) && Enabled(cfg, s, e)
    requires forall m :: m in Act(cfg, s, e).ran ==> Lives(s.locs[Actor(s, e)], m)
    ensures True(Step(cfg, s, e), events + [e])
  {
    hide Act, AddElement, OnPacket, NewId, Good, Made, NamedIfMade, TrueTo, HashAfter, Lives;
    var s', a := Step(cfg, s, e), Actor(s, e);
    var l' := Act(cfg, s, e).loc;
    assert |s'.locs| == |s.locs| && forall p :: 0 <= p < |s.locs| ==> s'.locs[p] == if p == a then l' else s.locs[p];
    assert forall m :: m in s'.net ==> m in s.net || m in Act(cfg, s, e).out;
    assert s'.ran == s.ran + Act(cfg, s, e).ran;
    ActHash(cfg, s, e);
    NamesTrue(cfg, s, e, events);
    forall p, id | 0 <= p < |s'.locs| && id in s'.locs[p].hash
      ensures RecordTrue(events + [e], s'.locs[p], id)
    {
      if p == a { ActorTrue(cfg, s, e, events, id); } else { OtherTrue(cfg, s, e, events, p, id); }
    }
    forall m | m in s'.net
      ensures PacketTrue(events + [e], m.packet)
    {
      if m in s.net { UnderWayTrue(cfg, s, e, events, m); } else { SentTrue(cfg, s, e, events, m); }
    }
    forall m | m in s'.ran
      ensures Made(events + [e], m.idx, m.mgr)
    {
      if m in s.ran { MadeNext(events, e, m.idx, m.mgr); } else { RanTrue(cfg, s, e, events, m); }
    }
  }

  lemma RanLives(cfg: Config, states: seq<Sys>, events: seq<Event>, n: nat)
    requires Run(cfg, states, events) && n < |events|
    ensures forall m :: m in Act(cfg, states[n], events[n]).ran ==> Lives(states[n].locs[Actor(states[n], events[n])], m)
  {
    hide Step, Act, Initial;
    forall m | m in Act(cfg, states[n], events[n]).ran
      ensures Lives(states[n].locs[Actor(states[n], events[n])], m)
    {
      RunsWhereItLives(cfg, states, events, n, m);
    }
  }

  lemma NothingMadeYet(cfg: Config, s: Sys)
    requires Initial(cfg, s)
    ensures True(s, [])
  {
  }

  lemma {:induction false} RunTrue(cfg: Config, states: seq<Sys>, events: seq<Event>, n: nat)
    requires Run(cfg, states, events) && n < |states|
    ensures True(states[n], events[..n])
  {
    hide Step, Enabled, Act, True, Lives, Good, Initial, Actor;
    if n == 0 {
      NothingMadeYet(cfg, states[0]);
      assert events[..0] == [];
    } else {
      var s, e := states[n - 1], events[n - 1];
      assert Enabled(cfg, s, e) && states[n] == Step(cfg, s, e);
      assert events[..n - 1] + [e] == events[..n];
      RunTrue(cfg, states, events, n - 1);
      RunGood(cfg, states, events, n - 1);
      RanLives(cfg, states, events, n - 1);
      hide Run;
      StepTrue(cfg, s, e, events[..n - 1]);
    }
  }

  // ---------------------------------------------------------------- which runs strand messages

  /** A record does not leave while messages are held beside it. */
  ghost predicate Careful(s: Sys, e: Event) {
    e.Move? && e.pe < |s.locs| && e.to != e.pe ==> At(s.locs[e.pe].held.shadow, e.id) == []
  }

  ghost predicate AllShadow(s: Sys) {
    forall p :: 0 <= p < |s.locs| ==> ShadowOk(s.locs[p])
  }

  lemma TrueElts(s: Sys, events: seq<Event>, p: Pe)
    requires True(s, events) && p < |s.locs|
    ensures EltsOk(s.locs[p])
  {
    hide Made, NamedIfMade;
    forall id, e | id in s.locs[p].hash && e in s.locs[p].hash[id].elts
      ensures e < s.locs[p].managers
    {
      assert RecordTrue(events, s.locs[p], id);
    }
  }

  lemma ActShadowIff(cfg: Config, s: Sys, e: Event, events: seq<Event>)
    requires Good(cfg, s) && True(s, events) && AllShadow(s) && Enabled(cfg, s, e)
    ensures ShadowOk(Act(cfg, s, e).loc) <==> Careful(s, e)
  {
    hide SendMsg, OnPacket, AddElement, Emigrate, AllSane, Served, ConfigOk, Conserved, True, EltsOk;
    var p := Actor(s, e);
    var l := s.locs[p];
    assert ShadowOk(l) && l.me == p;
    TrueElts(s, events, p);
    match e
    case Send(_, m, direct) => SendShadow(cfg, l, m, direct);
    case Deliver(i) =>
      if s.net[i].packet.Migrate? { MigrantNotHere(s, i, p); }
      PacketShadow(cfg, l, s.net[i].packet);
    case Create(_, idx, mgr) => AddElementShadow(cfg, l, idx, mgr);
    case Move(_, id, to) => if to != p { EmigrateShadowIff(cfg, l, id, to); } else { StaysPut(cfg, l, id); }
    case Register(_) =>
  }

  lemma StaysPut(cfg: Config, l: Loc, id: Id)
    requires id in l.hash
    ensures Emigrate(cfg, l, id, l.me) == Effect(l, [], [])
  {
  }

  /** A step keeps all held messages waiting correctly if and only if it is careful. */
  lemma StepShadowIff(cfg: Config, s: Sys, e: Event, events: seq<Event>)
    requires Good(cfg, s) && True(s, events) && AllShadow(s) && Enabled(cfg, s, e)
    ensures AllShadow(Step(cfg, s, e)) <==> Careful(s, e)
  {
    hide Act, Good, True, ShadowOk, Careful, Step, Enabled, Actor;
    ActShadowIff(cfg, s, e, events);
    StepParts(cfg, s, e);
    var s', a := Step(cfg, s, e), Actor(s, e);
    assert s'.locs[a] == Act(cfg, s, e).loc;
  }

  ghost predicate CarefulUpTo(states: seq<Sys>, events: seq<Event>, n: nat)
    requires n < |states| == |events| + 1
  {
    forall k :: 0 <= k < n ==> Careful(states[k], events[k])
  }

  ghost predicate WaitUpTo(states: seq<Sys>, n: nat)
    requires n < |states|
  {
    forall k :: 0 <= k <= n ==> AllShadow(states[k])
  }

  /** The exact condition, over every run: what is held beside records waits correctly all along
      if and only if no record ever left such messages behind. */
  lemma {:induction false} WaitIffCareful(cfg: Config, states: seq<Sys>, events: seq<Event>, n: nat)
    requires Run(cfg, states, events) && n < |states|
    ensures WaitUpTo(states, n) <==> CarefulUpTo(states, events, n)
  {
    hide Step, Enabled, AllShadow, Careful;
    if n == 0 {
      NothingHeldYet(cfg, states[0]);
    } else {
      var s, e := states[n - 1], events[n - 1];
      assert Enabled(cfg, s, e) && states[n] == Step(cfg, s, e);
      WaitIffCareful(cfg, states, events, n - 1);
      RunGood(cfg, states, events, n - 1);
      RunTrue(cfg, states, events, n - 1);
      hide Run, Good, True;
      if AllShadow(s) { StepShadowIff(cfg, s, e, events[..n - 1]); }
      assert WaitUpTo(states, n) <==> WaitUpTo(states, n - 1) && AllShadow(states[n]);
      assert CarefulUpTo(states, events, n) <==> CarefulUpTo(states, events, n - 1) && Careful(s, e);
    }
  }

  lemma NothingHeldYet(cfg: Config, s: Sys)
    requires Initial(cfg, s)
    ensures AllShadow(s)
  {
  }

  // ---------------------------------------------------------------- at rest

  ghost predicate HeldIn(b: Buffer, key: nat, m: Msg) {
    key in b && exists i :: 0 <= i < |b[key]| && b[key][i].msg == m
  }

  lemma {:induction false} BagSome(xs: seq<Parcel>, m: Msg) returns (i: nat)
    requires Bag(xs, OfMsg(m)) > 0
    ensures i < |xs| && xs[i].msg == m
  {
    i := |xs| - 1;
    if xs[i].msg != m { i := BagSome(xs[..i], m); }
  }

  lemma {:induction false} FlatSome(b: Buffer, m: Msg) returns (key: nat)
    requires Flat(b, OfMsg(m)) > 0
    ensures HeldIn(b, key, m)
    decreases |b|
  {
    key :| key in b && Flat(b, OfMsg(m)) == Bag(b[key], OfMsg(m)) + Flat(b - {key}, OfMsg(m));
    if Bag(b[key], OfMsg(m)) > 0 {
      var i := BagSome(b[key], m);
    } else {
      key := FlatSome(b - {key}, m);
    }
  }

  lemma {:induction false} NotRan(ran: seq<Msg>, m: Msg)
    requires m !in ran
    ensures Ran(ran, OfMsg(m)) == 0
  {
    if ran != [] { NotRan(ran[..|ran| - 1], m); }
  }

  /** A message sent, not executed and not under way is in a buffer. */
  lemma HeldSomewhere(cfg: Config, states: seq<Sys>, events: seq<Event>, n: nat, m: Msg) returns (p: Pe, key: nat)
    requires Run(cfg, states, events) && n < |states| && states[n].net == []
    requires m in states[n].sent && m !in states[n].ran
    ensures p < |states[n].locs|
    ensures var h := states[n].locs[p].held;
      HeldIn(h.msgs, key, m) || HeldIn(h.remote, key, m) || HeldIn(h.shadow, key, m) || HeldIn(h.index, key, m)
  {
    var k := OfMsg(m);
    MessageInOnePlace(cfg, states, events, n, m);
    NotRan(states[n].ran, m);
    assert MailBag([], k) == 0;
    hide Run, SumHas, Ran, MailBag, HeldIn, Flat;
    p := SumSome(states[n].locs, k);
    var h := states[n].locs[p].held;
    if Flat(h.msgs, k) > 0 {
      key := FlatSome(h.msgs, m);
    } else if Flat(h.remote, k) > 0 {
      key := FlatSome(h.remote, m);
    } else if Flat(h.shadow, k) > 0 {
      key := FlatSome(h.shadow, m);
    } else {
      key := FlatSome(h.index, m);
    }
  }

  lemma HeldAddressed(cfg: Config, s: Sys, p: Pe, key: nat, m: Msg)
    requires Good(cfg, s) && p < |s.locs|
    ensures var h := s.locs[p].held;
      && (HeldIn(h.msgs, key, m) || HeldIn(h.shadow, key, m) ==> Addressed(cfg, s.names, m, key))
      && (HeldIn(h.index, key, m) ==> m.idx == key)
  {
    hide Conserved, Served, IdsOk, PesOk, RecordsOk, RequestsOk, MsgsOk, CreatorOk, Addressed;
    assert LocSane(cfg, s.names, s.locs[p]);
  }

  /** A message held beside a record that waits correctly is for an element never made. */
  lemma ShadowUnmade(cfg: Config, s: Sys, events: seq<Event>, p: Pe, id: Id, m: Msg)
    requires Good(cfg, s) && True(s, events) && p < |s.locs| && ShadowOk(s.locs[p]) && HeldIn(s.locs[p].held.shadow, id, m)
    ensures !Made(events, m.idx, m.mgr)
  {
    var l := s.locs[p];
    var i :| 0 <= i < |l.held.shadow[id]| && l.held.shadow[id][i].msg == m;
    assert Waits(l.hash, id, m.mgr);
    HeldAddressed(cfg, s, p, id, m);
    NamedRecord(cfg, s, p, id);
    assert ConfigOk(cfg) && NamesOk(cfg, s.names);
    assert l.hash[id].idx == m.idx;
    assert RecordTrue(events, l, id);
    hide Good, Made, True;
  }

  /** When everything has come to rest after a careful run, a message sent has been executed if
      and only if its element was created: all that is held waits for elements that do not exist. */
  lemma AtRest(cfg: Config, states: seq<Sys>, events: seq<Event>, n: nat, m: Msg)
    requires Run(cfg, states, events) && n < |states| && states[n].net == [] && CarefulUpTo(states, events, n)
    requires m in states[n].sent
    ensures m in states[n].ran <==> Made(events[..n], m.idx, m.mgr)
  {
    var s := states[n];
    RunGood(cfg, states, events, n);
    RunTrue(cfg, states, events, n);
    assert m in s.ran ==> Made(events[..n], m.idx, m.mgr);
    assert NamedIfMade(events[..n], s.names);
    if m !in s.ran {
      var p, key := HeldSomewhere(cfg, states, events, n, m);
      WaitIffCareful(cfg, states, events, n);
      assert ShadowOk(s.locs[p]) by { assert AllShadow(s); }
      NoneWaitForKnown(cfg, states, events, n, p);
      hide Run, ShadowOk, True, HeldIn, Made;
      HeldAddressed(cfg, s, p, key, m);
      NotMadeHeld(cfg, s, events[..n], p, key, m);
    }
  }

  lemma NotMadeHeld(cfg: Config, s: Sys, events: seq<Event>, p: Pe, key: nat, m: Msg)
    requires Good(cfg, s) && True(s, events) && p < |s.locs| && ShadowOk(s.locs[p])
    requires var h := s.locs[p].held;
      && (HeldIn(h.msgs, key, m) || HeldIn(h.remote, key, m) || HeldIn(h.shadow, key, m) || HeldIn(h.index, key, m))
      && h.remote == map[] && (forall idx :: idx in h.index ==> idx !in s.names)
      && (forall idx :: idx in s.names ==> s.names[idx] !in h.msgs)
    ensures !Made(events, m.idx, m.mgr)
  {
    var h := s.locs[p].held;
    HeldAddressed(cfg, s, p, key, m);
    assert NamedIfMade(events, s.names) && NamesOk(cfg, s.names);
    if HeldIn(h.shadow, key, m) {
      ShadowUnmade(cfg, s, events, p, key, m);
    } else {
      hide Good, True, Made, ShadowOk;
      assert m.idx !in s.names;
    }
  }

  // ---------------------------------------------------------------- a run that strands a message

  function Two(): Config { Config(2, false, (_: Idx) => 0, (i: Idx) => i, (i: Id) => i) }

  function NoneHeld(): Held { Held(map[], map[], map[], map[]) }

  function Empty(me: Pe): Loc { Loc(me, 2, map[], map[], map[], NoneHeld(), map[], 0) }

  /** Processor `me` with the element at index 5, whose ID is 0. */
  function With(me: Pe, elts: set<Mgr>): Loc {
    Loc(me, 2, map[5 := 0], map[0 := me], map[0 := Rec(5, elts)], NoneHeld(), map[], 1 - me % 2)
  }

  function Late(): Msg { Msg(0, 0, 5, 1, false) }

  function Holding(l: Loc): Loc { l.(held := Held(map[], map[], map[0 := [Parcel(Late(), 0)]], map[])) }

  /** Processor 0 after the record has left. */
  function Left(): Loc { Holding(With(0, {0})).(hash := map[], id2pe := map[0 := 1]) }

  lemma InformQuietly(l: Loc, pe: Pe)
    requires l.held.msgs == map[] && l.held.index == map[] && l.requests == map[]
    ensures InformIdx(Two(), l, 5, 0, pe) == Effect(l.(idx2id := l.idx2id[5 := 0], id2pe := l.id2pe[0 := pe]), [], [])
  {
    assert l.held.msgs - {0} == map[] && l.held.index - {5} == map[] && l.requests - {5} == map[];
  }

  lemma FirstCreate()
    ensures AddElement(Two(), Empty(0), 5, 0) == Some(Effect(With(0, {0}), [], [])) && NewId(Two(), Empty(0), 5).1 == 0
  {
    var l := NewId(Two(), Empty(0), 5).0;
    InformQuietly(l.(hash := l.hash[0 := Rec(5, {0})]), 0);
    assert map[5 := 0][5 := 0] == map[5 := 0];
  }

  lemma FirstSend()
    ensures SendMsg(Two(), With(0, {0}), Late(), true) == Effect(Holding(With(0, {0})), [], [])
  {
    var x := Parcel(Late(), 0);
    assert At(map[], 0) + [x] == [x];
  }

  lemma FirstMove()
    ensures Emigrate(Two(), Holding(With(0, {0})), 0, 1) == Effect(Left(), [Mail(1, Migrate(5, 0, 2, {0}))], [])
  {
    var l := Holding(With(0, {0}));
    assert l.hash - {0} == map[];
    InformQuietly(l.(hash := l.hash - {0}), 1);
  }

  lemma FirstArrival()
    ensures OnPacket(Two(), Empty(1), Migrate(5, 0, 2, {0})) == Some(Effect(With(1, {0}), [], []))
  {
    var l := InsertId(Two(), Empty(1), 5, 0);
    InformQuietly(l.(hash := l.hash[0 := Rec(5, {0})]), 1);
    assert map[5 := 0][5 := 0] == map[5 := 0];
  }

  lemma SecondCreate()
    ensures AddElement(Two(), With(1, {0}), 5, 1) == Some(Effect(With(1, {0, 1}), [], [])) && NewId(Two(), With(1, {0}), 5).1 == 0
  {
    var l := With(1, {0});
    assert l.held.shadow - {0} == map[] && {0} + {1} == {0, 1};
    assert l.hash[0 := Rec(5, {0, 1})] == map[0 := Rec(5, {0, 1})];
  }

  function Strands(): seq<Event> {
    [Create(0, 5, 0), Send(0, Late(), true), Move(0, 0, 1), Deliver(0), Create(1, 5, 1)]
  }

  function Pair(p: Loc, q: Loc, net: seq<Mail>, sent: set<Msg>): Sys {
    Sys([p, q], net, sent, [], map[5 := 0])
  }

  function StrandedStates(): seq<Sys> {
    [Sys([Empty(0), Empty(1)], [], {}, [], map[]),
     Pair(With(0, {0}), Empty(1), [], {}),
     Pair(Holding(With(0, {0})), Empty(1), [], {Late()}),
     Pair(Left(), Empty(1), [Mail(1, Migrate(5, 0, 2, {0}))], {Late()}),
     Pair(Left(), With(1, {0}), [], {Late()}),
     Pair(Left(), With(1, {0, 1}), [], {Late()})]
  }

  ghost predicate Follows(s: Sys, e: Event, s': Sys) {
    Enabled(Two(), s, e) && s' == Step(Two(), s, e)
  }

  lemma Strand0()
    ensures Follows(Sys([Empty(0), Empty(1)], [], {}, [], map[]), Create(0, 5, 0), Pair(With(0, {0}), Empty(1), [], {}))
  {
    FirstCreate();
    hide AddElement, NewId, With;
  }

  lemma Strand1()
    ensures Follows(Pair(With(0, {0}), Empty(1), [], {}), Send(0, Late(), true), Pair(Holding(With(0, {0})), Empty(1), [], {Late()}))
  {
    FirstSend();
    hide SendMsg, With, Holding, Empty;
  }

  lemma Strand2()
    ensures Follows(Pair(Holding(With(0, {0})), Empty(1), [], {Late()}), Move(0, 0, 1),
                    Pair(Left(), Empty(1), [Mail(1, Migrate(5, 0, 2, {0}))], {Late()}))
  {
    FirstMove();
    assert 0 in Holding(With(0, {0})).hash;
    hide Emigrate, Left, Empty, With, Holding;
  }

  lemma Strand3()
    ensures Follows(Pair(Left(), Empty(1), [Mail(1, Migrate(5, 0, 2, {0}))], {Late()}), Deliver(0), Pair(Left(), With(1, {0}), [], {Late()}))
  {
    FirstArrival();
    hide OnPacket, Left, Empty, With;
  }

  lemma Strand4()
    ensures Follows(Pair(Left(), With(1, {0}), [], {Late()}), Create(1, 5, 1), Pair(Left(), With(1, {0, 1}), [], {Late()}))
  {
    SecondCreate();
    assert map[5 := 0][5 := 0] == map[5 := 0];
    hide AddElement, NewId, Left;
  }

  /** On processor 0 an element is created, a message for a second array at its index is held
      beside it, and the record moves to processor 1, where the second array's element is created.
      Everything is at rest, and the message is still on processor 0, where there is no record. */
  lemma StrandedRun()
    ensures Run(Two(), StrandedStates(), Strands())
    ensures var (s, m) := (StrandedStates()[5], Late());
      && s.net == [] && m in s.sent && m !in s.ran && Made(Strands(), m.idx, m.mgr)
      && s.locs[0].hash == map[] && HeldIn(s.locs[0].held.shadow, 0, m)
      && s.locs[1].hash == map[0 := Rec(m.idx, {0, m.mgr})]
  {
    StrandedIsRun();
    hide Run;
    assert Makes(Strands()[4], 5, 1);
    assert Left().held.shadow[0][0].msg == Late();
  }

  lemma StrandedStart()
    ensures Initial(Two(), Sys([Empty(0), Empty(1)], [], {}, [], map[]))
  {
  }

  lemma StrandedIsRun()
    ensures Run(Two(), StrandedStates(), Strands())
  {
    hide Step, Enabled, Initial, With, Empty, Holding, Left, Pair, Two, Late;
    StrandedStart();
    var states, events := StrandedStates(), Strands();
    forall k | 0 <= k < |events|
      ensures Enabled(Two(), states[k], events[k]) && states[k + 1] == Step(Two(), states[k], events[k])
    {
      if k == 0 { Strand0(); } else if k == 1 { Strand1(); } else if k == 2 { Strand2(); } else if k == 3 { Strand3(); } else { Strand4(); }
    }
  }
}
