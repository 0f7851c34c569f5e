/** What each entry point owes to those who wait: whoever starts waiting has asked, a recorded
    request stays recorded or is answered, and knowledge is never forgotten.
 */
module LocationServe {
  import opened Options
  import opened Location

  ghost predicate HasUpdate(out: seq<Mail>, to: Pe, idx: Idx) {
    exists m :: m in out && m.to == to && m.packet.UpdateIdx? && m.packet.idx == idx
  }

  /** An answer that lets `to` flush what it holds for a remote ID. */
  ghost predicate HasAnswer(out: seq<Mail>, to: Pe, id: Id) {
    exists m :: m in out && m.to == to && (m.packet.UpdateIdx? || m.packet.UpdateId?) && m.packet.id == id
  }

  ghost predicate HasAsk(out: seq<Mail>, id: Id, from: Pe) {
    exists m :: m in out && m.packet == RequestId(id, from)
  }

  ghost predicate Recorded(l: Loc, idx: Idx, p: Pe) {
    idx in l.requests && p in l.requests[idx]
  }

  ghost predicate Knows(cfg: Config, l: Loc, idx: Idx, id: Id) {
    id in l.id2pe && (cfg.packed || idx in l.idx2id)
  }

  ghost predicate Grown(l: Loc, l': Loc) {
    && l'.me == l.me
    && (forall id :: id in l.id2pe ==> id in l'.id2pe)
    && (forall idx :: idx in l.idx2id ==> idx in l'.idx2id)
  }

  ghost predicate IndexServed(cfg: Config, l: Loc, e: Effect) {
    forall idx :: idx in e.loc.held.index ==>
      idx in l.held.index || cfg.home(idx) == l.me || Mail(cfg.home(idx), RequestIdx(idx, l.me)) in e.out
  }

  ghost predicate RequestsServed(l: Loc, e: Effect) {
    forall idx, p :: Recorded(l, idx, p) && p != l.me ==> Recorded(e.loc, idx, p) || HasUpdate(e.out, p, idx)
  }

  ghost predicate RemoteServed(l: Loc, e: Effect) {
    forall id :: id in e.loc.held.remote ==> id in l.held.remote || HasAsk(e.out, id, l.me)
  }

  ghost predicate Serves(cfg: Config, l: Loc, e: Effect) {
    Grown(l, e.loc) && IndexServed(cfg, l, e) && RequestsServed(l, e) && RemoteServed(l, e)
  }

  // ---------------------------------------------------------------- entry points

  lemma UnknownServes(cfg: Config, l: Loc, x: Parcel, id: Id, home: Pe)
    ensures Serves(cfg, l, DeliverUnknown(l, x, id, home))
  {
    var e := DeliverUnknown(l, x, id, home);
    assert e.loc.requests == l.requests && e.loc.held.index == l.held.index;
    if home != l.me {
      if x.msg.big {
        if id !in l.held.remote {
          assert Mail(home, RequestId(id, l.me)) in e.out;
        }
      }
    }
  }

  lemma DeliverServes(cfg: Config, l: Loc, x: Parcel, id: Id, idx: Option<Idx>, direct: bool)
    ensures Serves(cfg, l, DeliverMsg(cfg, l, x, id, idx, direct))
  {
    if id !in l.hash && id !in l.id2pe { UnknownServes(cfg, l, x, id, HomeFor(cfg, id, idx)); }
    hide DeliverUnknown, HomeFor, HasUpdate, HasAsk;
  }

  lemma SendServes(cfg: Config, l: Loc, m: Msg, direct: bool)
    ensures Serves(cfg, l, SendMsg(cfg, l, m, direct))
  {
    hide DeliverMsg, HasUpdate, HasAsk;
    match LookupId(cfg, l, m.idx)
    case Some(id) => DeliverServes(cfg, l, Parcel(m, 0), id, Some(m.idx), direct);
    case None =>
  }

  lemma {:induction false} RepliesReach(me: Pe, idx: Idx, id: Id, pe: Pe, who: seq<Pe>, p: Pe)
    requires p in who && p != me
    ensures Mail(p, UpdateIdx(idx, id, pe)) in Replies(me, idx, id, pe, who)
  {
    if who[|who| - 1] != p { RepliesReach(me, idx, id, pe, who[..|who| - 1], p); }
  }

  /** An update answers every recorded request for the index, and nothing waits for it afterwards. */
  lemma InformIdxServes(cfg: Config, l: Loc, idx: Idx, id: Id, pe: Pe)
    ensures var e := InformIdx(cfg, l, idx, id, pe);
      Serves(cfg, l, e) && Knows(cfg, e.loc, idx, id) && idx !in e.loc.held.index && e.loc.held.remote == l.held.remote
  {
    var e := InformIdx(cfg, l, idx, id, pe);
    var who := if idx in l.requests then l.requests[idx] else [];
    var replies := Replies(l.me, idx, id, pe, who);
    forall m | m in replies
      ensures m in e.out
    {
    }
    forall j, p | Recorded(l, j, p) && p != l.me
      ensures Recorded(e.loc, j, p) || HasUpdate(e.out, p, j)
    {
      if j == idx {
        RepliesReach(l.me, idx, id, pe, who, p);
        assert Mail(p, UpdateIdx(idx, id, pe)) in e.out;
      }
    }
    hide Replies, Forward, HasAsk, HasUpdate;
  }

  lemma InformIdServes(cfg: Config, l: Loc, id: Id, pe: Pe)
    ensures var e := InformId(l, id, pe); Serves(cfg, l, e) && Settled(e.loc, id)
  {
    hide Forward, HasAsk, HasUpdate;
  }

  lemma MoreMail(cfg: Config, l: Loc, e: Effect, e': Effect)
    requires Serves(cfg, l, e) && (forall m :: m in e.out ==> m in e'.out)
    requires e'.loc.me == e.loc.me && e'.loc.id2pe == e.loc.id2pe && e'.loc.idx2id == e.loc.idx2id
    requires e'.loc.requests == e.loc.requests && e'.loc.held.index == e.loc.held.index
    requires forall id :: id in e'.loc.held.remote ==> id in e.loc.held.remote
    ensures Serves(cfg, l, e')
  {
    assert forall idx, p :: HasUpdate(e.out, p, idx) ==> HasUpdate(e'.out, p, idx);
    assert forall id :: HasAsk(e.out, id, l.me) ==> HasAsk(e'.out, id, l.me);
    hide HasUpdate, HasAsk;
  }

  lemma FlushServes(cfg: Config, l: Loc, e: Effect, id: Id)
    requires Serves(cfg, l, e) && Settled(e.loc, id)
    ensures Serves(cfg, l, FlushRemote(e, id))
  {
    hide Serves, Forward;
    MoreMail(cfg, l, e, FlushRemote(e, id));
  }

  /** Serving does not depend on the records. */
  lemma ServesFrom(cfg: Config, l: Loc, l1: Loc, e: Effect)
    requires Serves(cfg, l1, e) && l1.me == l.me && l1.held == l.held && l1.requests == l.requests
    requires l1.id2pe == l.id2pe && forall idx :: idx in l.idx2id ==> idx in l1.idx2id
    ensures Serves(cfg, l, e)
  {
    hide HasUpdate, HasAsk;
  }

  lemma CreateServes(cfg: Config, l: Loc, idx: Idx, id: Id, elts: set<Mgr>, notify: bool)
    ensures var e := CreateLocal(cfg, l, idx, id, elts, notify);
      && Serves(cfg, l, e) && Knows(cfg, e.loc, idx, id)
      && (notify && cfg.home(idx) != l.me ==> HasUpdate(e.out, cfg.home(idx), idx))
  {
    var e := CreateLocal(cfg, l, idx, id, elts, notify);
    var l1 := l.(hash := l.hash[id := Rec(idx, elts)]);
    var e1 := InformIdx(cfg, l1, idx, id, l.me);
    InformIdxServes(cfg, l1, idx, id, l.me);
    if notify && cfg.home(idx) != l.me {
      assert Mail(cfg.home(idx), UpdateIdx(idx, id, l.me)) in e.out;
    }
    hide Serves, InformIdx;
    MoreMail(cfg, l1, e1, e);
    ServesFrom(cfg, l, l1, e);
  }

  lemma EmigrateServes(cfg: Config, l: Loc, id: Id, to: Pe)
    requires id in l.hash
    ensures Serves(cfg, l, Emigrate(cfg, l, id, to))
  {
    if to != l.me {
      var l1 := l.(hash := l.hash - {id});
      InformIdxServes(cfg, l1, l.hash[id].idx, id, to);
      hide Serves, InformIdx;
      MoreMail(cfg, l1, InformIdx(cfg, l1, l.hash[id].idx, id, to), Emigrate(cfg, l, id, to));
      ServesFrom(cfg, l, l1, Emigrate(cfg, l, id, to));
    } else {
      hide HasUpdate, HasAsk;
    }
  }

  lemma AddElementServes(cfg: Config, l: Loc, idx: Idx, mgr: Mgr)
    requires AddElement(cfg, l, idx, mgr).Some?
    ensures var (e, id) := (AddElement(cfg, l, idx, mgr).value, NewId(cfg, l, idx).1);
      && Serves(cfg, l, e)
      && (id !in l.hash ==> Knows(cfg, e.loc, idx, id) && (cfg.home(idx) != l.me ==> HasUpdate(e.out, cfg.home(idx), idx)))
  {
    var (l1, id) := NewId(cfg, l, idx);
    var e := AddElement(cfg, l, idx, mgr).value;
    if id !in l1.hash {
      CreateServes(cfg, l1, idx, id, {mgr}, true);
      hide Serves, CreateLocal;
      ServesFrom(cfg, l, l1, e);
    } else {
      hide HasUpdate, HasAsk;
    }
  }

  /** Handling a packet: beyond the above, a request is answered or recorded, and what an
      update settles is no longer waited for. */
  lemma PacketServes(cfg: Config, l: Loc, p: Packet)
    requires OnPacket(cfg, l, p).Some?
    ensures Serves(cfg, l, OnPacket(cfg, l, p).value)
  {
    hide DeliverMsg, HasUpdate, HasAsk, InformIdx, InformId, CreateLocal, Forward;
    match p
    case Data(x, id) => DeliverServes(cfg, l, x, id, None, true);
    case RequestIdx(_, _) =>
    case RequestId(_, _) =>
    case UpdateIdx(idx, id, pe) =>
      InformIdxServes(cfg, l, idx, id, pe);
      FlushServes(cfg, l, InformIdx(cfg, l, idx, id, pe), id);
    case UpdateId(id, pe) =>
      InformIdServes(cfg, l, id, pe);
      FlushServes(cfg, l, InformId(l, id, pe), id);
    case Migrate(idx, id, n, elts) =>
      if n <= l.managers {
        var l1 := InsertId(cfg, l, idx, id);
        CreateServes(cfg, l1, idx, id, elts, false);
        ServesFrom(cfg, l, l1, CreateLocal(cfg, l1, idx, id, elts, false));
      }
  }

  lemma PacketSettles(cfg: Config, l: Loc, p: Packet)
    requires OnPacket(cfg, l, p).Some?
    ensures var e := OnPacket(cfg, l, p).value;
      && (p.RequestIdx? && p.pe != l.me ==> Recorded(e.loc, p.idx, p.pe) || HasUpdate(e.out, p.pe, p.idx))
      && (p.RequestId? && p.pe != l.me ==> HasAnswer(e.out, p.pe, p.id))
      && (p.UpdateIdx? ==> Knows(cfg, e.loc, p.idx, p.id) && p.idx !in e.loc.held.index)
      && (p.UpdateIdx? || p.UpdateId? ==> p.id !in e.loc.held.remote)
  {
    var e := OnPacket(cfg, l, p).value;
    if p.RequestIdx? {
      match LookupId(cfg, l, p.idx)
      case Some(id) => if p.pe != l.me { assert e.out[0] in e.out; }
      case None =>
    } else if p.RequestId? {
      if p.pe != l.me { assert e.out[0] in e.out; }
    } else if p.UpdateIdx? {
      InformIdxServes(cfg, l, p.idx, p.id, p.pe);
    }
  }
}
