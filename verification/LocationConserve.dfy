/** No message and no element is lost or duplicated by any entry point of the location manager. */
module LocationConserve {
  import opened Options
  import opened Location

  // ---------------------------------------------------------------- counting

  /** What is being counted: a message, or the element with some ID. */
  datatype Probe = OfMsg(msg: Msg) | OfId(id: Id)

  function One(m: Msg, k: Probe): nat { if k == OfMsg(m) then 1 else 0 }

  function Here(id: Id, k: Probe): nat { if k == OfId(id) then 1 else 0 }

  /** How often it occurs in a list of parcels. */
  ghost function Bag(xs: seq<Parcel>, k: Probe): nat {
    if xs == [] then 0 else Bag(xs[..|xs| - 1], k) + One(xs[|xs| - 1].msg, k)
  }

  /** ... in a buffer, whatever the key. */
  ghost function Flat(b: Buffer, k: Probe): nat {
    if b == map[] then 0
    else
      var key :| key in b;
      Bag(b[key], k) + Flat(b - {key}, k)
  }

  ghost function Inside(p: Packet, k: Probe): nat {
    if p.Data? then One(p.parcel.msg, k) else if p.Migrate? then Here(p.id, k) else 0
  }

  /** ... in outgoing mail. */
  ghost function MailBag(out: seq<Mail>, k: Probe): nat {
    if out == [] then 0
    else MailBag(out[..|out| - 1], k) + Inside(out[|out| - 1].packet, k)
  }

  ghost function Ran(ran: seq<Msg>, k: Probe): nat {
    if ran == [] then 0 else Ran(ran[..|ran| - 1], k) + One(ran[|ran| - 1], k)
  }

  ghost function Resident(l: Loc, k: Probe): nat {
    if k.OfId? && k.id in l.hash then 1 else 0
  }

  /** ... in the four buffers of a processor. */
  ghost function Buffered(h: Held, k: Probe): nat {
    Flat(h.msgs, k) + Flat(h.remote, k) + Flat(h.shadow, k) + Flat(h.index, k)
  }

  /** ... in its buffers or among its records. */
  ghost function Has(l: Loc, k: Probe): nat {
    Buffered(l.held, k) + Resident(l, k)
  }

  /** The effect accounts for what was held and what came in. */
  ghost predicate Balanced(l: Loc, incoming: nat, e: Effect, k: Probe) {
    Has(e.loc, k) + MailBag(e.out, k) + Ran(e.ran, k) == Has(l, k) + incoming
  }

  lemma BagAppend(xs: seq<Parcel>, x: Parcel, k: Probe)
    ensures Bag(xs + [x], k) == Bag(xs, k) + One(x.msg, k)
  {
    assert (xs + [x])[..|xs|] == xs;
  }

  lemma {:induction false} FlatSplit(b: Buffer, key: nat, k: Probe)
    requires key in b
    ensures Flat(b, k) == Bag(b[key], k) + Flat(b - {key}, k)
    decreases |b|
  {
    var key' :| key' in b && Flat(b, k) == Bag(b[key'], k) + Flat(b - {key'}, k);
    if key' != key {
      FlatSplit(b - {key'}, key, k);
      FlatSplit(b - {key}, key', k);
      assert b - {key'} - {key} == b - {key} - {key'};
    }
  }

  lemma FlatRemove(b: Buffer, key: nat, k: Probe)
    ensures Flat(b, k) == Bag(At(b, key), k) + Flat(b - {key}, k)
  {
    if key in b {
      FlatSplit(b, key, k);
    } else {
      assert b - {key} == b;
    }
  }

  lemma FlatAdd(b: Buffer, key: nat, x: Parcel, k: Probe)
    ensures Flat(Add(b, key, x), k) == Flat(b, k) + One(x.msg, k)
  {
    hide Flat;
    FlatRemove(b, key, k);
    FlatRemove(Add(b, key, x), key, k);
    assert Add(b, key, x) - {key} == b - {key};
    BagAppend(At(b, key), x, k);
  }

  lemma {:induction false} MailConcat(a: seq<Mail>, b: seq<Mail>, k: Probe)
    ensures MailBag(a + b, k) == MailBag(a, k) + MailBag(b, k)
    decreases |b|
  {
    if b == [] {
      assert a + b == a;
    } else {
      MailConcat(a, b[..|b| - 1], k);
      assert (a + b)[..|a + b| - 1] == a + b[..|b| - 1];
    }
  }

  lemma MailOne(x: Mail, k: Probe)
    ensures MailBag([x], k) == Inside(x.packet, k)
  {
    assert [x][..0] == [];
  }

  lemma {:induction false} ForwardBag(l: Loc, id: Id, xs: seq<Parcel>, k: Probe)
    requires Settled(l, id)
    ensures MailBag(Forward(l, id, xs), k) == Bag(xs, k)
  {
    if xs != [] {
      ForwardBag(l, id, xs[..|xs| - 1], k);
      MailConcat(Forward(l, id, xs[..|xs| - 1]), [ForwardOne(l, id, xs[|xs| - 1])], k);
      MailOne(ForwardOne(l, id, xs[|xs| - 1]), k);
    }
  }

  lemma {:induction false} RepliesBag(me: Pe, idx: Idx, id: Id, pe: Pe, who: seq<Pe>, k: Probe)
    ensures MailBag(Replies(me, idx, id, pe, who), k) == 0
  {
    if who != [] {
      RepliesBag(me, idx, id, pe, who[..|who| - 1], k);
      var x := Mail(who[|who| - 1], UpdateIdx(idx, id, pe));
      MailOne(x, k);
      MailConcat(Replies(me, idx, id, pe, who[..|who| - 1]), if who[|who| - 1] != me then [x] else [], k);
    }
  }

  // ---------------------------------------------------------------- one entry point at a time

  lemma ShortMail(out: seq<Mail>, k: Probe)
    requires |out| <= 1
    ensures MailBag(out, k) == if out == [] then 0 else Inside(out[0].packet, k)
  {
    if |out| == 1 {
      MailOne(out[0], k);
      assert out == [out[0]];
    }
  }

  lemma ShortRan(x: Msg, k: Probe)
    ensures Ran([x], k) == One(x, k)
  {
    assert [x][..0] == [];
  }

  lemma UnknownBalanced(l: Loc, x: Parcel, id: Id, home: Pe, k: Probe)
    ensures Balanced(l, One(x.msg, k), DeliverUnknown(l, x, id, home), k)
  {
    hide Flat, MailBag, Add, Ran, One;
    ShortMail(DeliverUnknown(l, x, id, home).out, k);
    NoneRan(k);
    if home != l.me {
      if x.msg.big { FlatAdd(l.held.remote, id, x, k); }
    } else {
      if x.msg.mgr < l.managers { FlatAdd(l.held.msgs, id, x, k); }
    }
  }

  lemma DeliverBalanced(cfg: Config, l: Loc, x: Parcel, id: Id, idx: Option<Idx>, direct: bool, k: Probe)
    ensures Balanced(l, One(x.msg, k), DeliverMsg(cfg, l, x, id, idx, direct), k)
  {
    hide Flat, MailBag, DeliverUnknown, Add, Ran, One, HomeFor;
    var e := DeliverMsg(cfg, l, x, id, idx, direct);
    NoneRan(k);
    if id !in l.hash {
      if id in l.id2pe { ShortMail(e.out, k); } else { UnknownBalanced(l, x, id, HomeFor(cfg, id, idx), k); }
    } else if !direct {
      ShortMail(e.out, k);
    } else if x.msg.mgr >= l.managers || x.msg.mgr !in l.hash[id].elts {
      FlatAdd(l.held.shadow, id, x, k);
      ShortMail(e.out, k);
    } else {
      ShortRan(x.msg, k);
      ShortMail(e.out, k);
    }
  }

  lemma NoneRan(k: Probe)
    ensures Ran([], k) == 0
  {
  }

  lemma SendBalanced(cfg: Config, l: Loc, msg: Msg, direct: bool, k: Probe)
    ensures Balanced(l, One(msg, k), SendMsg(cfg, l, msg, direct), k)
  {
    hide Flat;
    match LookupId(cfg, l, msg.idx)
    case Some(id) => DeliverBalanced(cfg, l, Parcel(msg, 0), id, Some(msg.idx), direct, k);
    case None =>
      FlatAdd(l.held.index, msg.idx, Parcel(msg, 0), k);
      var e := SendMsg(cfg, l, msg, direct);
      if |e.out| == 1 {
        MailOne(e.out[0], k);
        assert e.out == [e.out[0]];
      }
  }

  lemma InformIdBalanced(l: Loc, id: Id, pe: Pe, k: Probe)
    ensures Balanced(l, 0, InformId(l, id, pe), k)
  {
    hide Flat;
    FlatRemove(l.held.msgs, id, k);
    ForwardBag(l.(id2pe := l.id2pe[id := pe]), id, At(l.held.msgs, id), k);
  }

  lemma InformIdxBalanced(cfg: Config, l: Loc, idx: Idx, id: Id, pe: Pe, k: Probe)
    ensures Balanced(l, 0, InformIdx(cfg, l, idx, id, pe), k) && InformIdx(cfg, l, idx, id, pe).ran == []
  {
    hide Flat;
    var who := if idx in l.requests then l.requests[idx] else [];
    var l1 := InsertId(cfg, l, idx, id).(requests := l.requests - {idx});
    var e := InformId(l1, id, pe);
    InformIdBalanced(l1, id, pe, k);
    FlatRemove(l.held.index, idx, k);
    ForwardBag(e.loc, id, At(l.held.index, idx), k);
    RepliesBag(l.me, idx, id, pe, who, k);
    var a, c := Replies(l.me, idx, id, pe, who), Forward(e.loc, id, At(l.held.index, idx));
    MailConcat(a, e.out, k);
    MailConcat(a + e.out, c, k);
  }

  lemma FlushRemoteBalanced(l: Loc, incoming: nat, e: Effect, id: Id, k: Probe)
    requires Settled(e.loc, id) && Balanced(l, incoming, e, k)
    ensures Balanced(l, incoming, FlushRemote(e, id), k)
  {
    hide Flat;
    FlatRemove(e.loc.held.remote, id, k);
    ForwardBag(e.loc, id, At(e.loc.held.remote, id), k);
    MailConcat(e.out, Forward(e.loc, id, At(e.loc.held.remote, id)), k);
  }

  lemma NoticeBag(home: Pe, me: Pe, idx: Idx, id: Id, nowOn: Pe, k: Probe)
    ensures MailBag(HomeNotice(home, me, idx, id, nowOn), k) == 0
  {
    MailOne(Mail(home, UpdateIdx(idx, id, nowOn)), k);
  }

  lemma CreateBalanced(cfg: Config, l: Loc, idx: Idx, id: Id, elts: set<Mgr>, notify: bool, k: Probe)
    requires id !in l.hash
    ensures Balanced(l, Here(id, k), CreateLocal(cfg, l, idx, id, elts, notify), k)
  {
    hide Flat, InformIdx;
    var l1 := l.(hash := l.hash[id := Rec(idx, elts)]);
    InformIdxBalanced(cfg, l1, idx, id, l.me, k);
    NoticeBag(cfg.home(idx), l.me, idx, id, l.me, k);
    MailConcat(InformIdx(cfg, l1, idx, id, l.me).out, if notify then HomeNotice(cfg.home(idx), l.me, idx, id, l.me) else [], k);
  }

  lemma AddElementBalanced(cfg: Config, l: Loc, idx: Idx, mgr: Mgr, k: Probe)
    requires AddElement(cfg, l, idx, mgr).Some?
    ensures var id := NewId(cfg, l, idx).1;
      Balanced(l, if id in l.hash then 0 else Here(id, k), AddElement(cfg, l, idx, mgr).value, k)
  {
    hide Flat, CreateLocal;
    var (l1, id) := NewId(cfg, l, idx);
    assert Has(l1, k) == Has(l, k);
    if id !in l1.hash {
      CreateBalanced(cfg, l1, idx, id, {mgr}, true, k);
    } else {
      FlatRemove(l1.held.shadow, id, k);
      ForwardBag(l1, id, At(l1.held.shadow, id), k);
    }
  }

  lemma EmigrateBalanced(cfg: Config, l: Loc, id: Id, to: Pe, k: Probe)
    requires id in l.hash
    ensures Balanced(l, 0, Emigrate(cfg, l, id, to), k)
  {
    hide Flat, InformIdx;
    if to != l.me {
      var rec := l.hash[id];
      var l1 := l.(hash := l.hash - {id});
      var x := Mail(to, Migrate(rec.idx, id, l.managers, rec.elts));
      var e := InformIdx(cfg, l1, rec.idx, id, to);
      InformIdxBalanced(cfg, l1, rec.idx, id, to, k);
      NoticeBag(cfg.home(rec.idx), l.me, rec.idx, id, to, k);
      MailOne(x, k);
      MailConcat([x], e.out, k);
      MailConcat([x] + e.out, HomeNotice(cfg.home(rec.idx), l.me, rec.idx, id, to), k);
    }
  }

  lemma RequestBalanced(cfg: Config, l: Loc, p: Packet, k: Probe)
    requires p.RequestIdx? || p.RequestId?
    ensures OnPacket(cfg, l, p).Some? && Balanced(l, 0, OnPacket(cfg, l, p).value, k)
  {
    hide Flat;
    var e := OnPacket(cfg, l, p).value;
    if |e.out| == 1 {
      MailOne(e.out[0], k);
      assert e.out == [e.out[0]];
    }
  }

  /** Handling a packet: the message inside, if any, joins what is held, sent on or executed. */
  lemma PacketBalanced(cfg: Config, l: Loc, p: Packet, k: Probe)
    requires OnPacket(cfg, l, p).Some? && (p.Migrate? ==> p.id !in l.hash)
    ensures Balanced(l, Inside(p, k), OnPacket(cfg, l, p).value, k)
  {
    hide Flat, CreateLocal, DeliverMsg;
    match p
    case Data(x, id) => DeliverBalanced(cfg, l, x, id, None, true, k);
    case RequestIdx(idx, pe) => RequestBalanced(cfg, l, p, k);
    case RequestId(id, pe) => RequestBalanced(cfg, l, p, k);
    case UpdateIdx(idx, id, pe) =>
      InformIdxBalanced(cfg, l, idx, id, pe, k);
      FlushRemoteBalanced(l, 0, InformIdx(cfg, l, idx, id, pe), id, k);
    case UpdateId(id, pe) =>
      InformIdBalanced(l, id, pe, k);
      FlushRemoteBalanced(l, 0, InformId(l, id, pe), id, k);
    case Migrate(idx, id, n, elts) =>
      if n > l.managers {
        MailOne(Mail(l.me, p), k);
      } else {
        var l1 := InsertId(cfg, l, idx, id);
        assert Has(l1, k) == Has(l, k);
        CreateBalanced(cfg, l1, idx, id, elts, false, k);
      }
  }
}
