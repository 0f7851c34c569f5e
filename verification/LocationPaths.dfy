/** What entry points on different processors do together: updates send held messages on, and
    messages catch up with elements that have moved.
 */
module LocationPaths {
  import opened Options
  import opened Location

  /** Messages released for an ID all leave for the same place. */
  lemma {:induction false} ForwardGoes(l: Loc, id: Id, xs: seq<Parcel>, m: Mail)
    requires Settled(l, id) && m in Forward(l, id, xs)
    ensures m.packet.Data? && m.packet.id == id && m.to == if id in l.hash then l.me else l.id2pe[id]
  {
    var k := |xs| - 1;
    if m != ForwardOne(l, id, xs[k]) { ForwardGoes(l, id, xs[..k], m); }
  }

  lemma {:induction false} RepliesAre(me: Pe, idx: Idx, id: Id, pe: Pe, who: seq<Pe>, m: Mail)
    requires m in Replies(me, idx, id, pe, who)
    ensures m.packet == UpdateIdx(idx, id, pe) && m.to in who && m.to != me
  {
    var k := |who| - 1;
    if m in Replies(me, idx, id, pe, who[..k]) { RepliesAre(me, idx, id, pe, who[..k], m); }
  }

  /** An update sends held messages to the location it brings (or back to the scheduler here, if
      the element is), and passes what it brings on to those who asked; it sends nothing else. */
  lemma UpdateSends(cfg: Config, l: Loc, idx: Idx, id: Id, pe: Pe, m: Mail)
    requires m in OnUpdateIdx(cfg, l, idx, id, pe).out
    ensures m.packet.Data? ==> m.packet.id == id && m.to == if id in l.hash then l.me else pe
    ensures !m.packet.Data? ==> m.packet == UpdateIdx(idx, id, pe) && idx in l.requests && m.to in l.requests[idx]
  {
    var who := if idx in l.requests then l.requests[idx] else [];
    var l1 := InsertId(cfg, l, idx, id).(requests := l.requests - {idx}, id2pe := l.id2pe[id := pe]);
    var l2 := l1.(held := l.held.(msgs := l.held.msgs - {id}));
    var l3 := l2.(held := l2.held.(index := l.held.index - {idx}));
    var a, b, c, d := Replies(l.me, idx, id, pe, who), Forward(l1, id, At(l.held.msgs, id)),
      Forward(l2, id, At(l.held.index, idx)), Forward(l3, id, At(l.held.remote, id));
    assert OnUpdateIdx(cfg, l, idx, id, pe).out == a + b + c + d;
    hide Replies, Forward, OnUpdateIdx;
    if m in a {
      RepliesAre(l.me, idx, id, pe, who, m);
    } else if m in b {
      ForwardGoes(l1, id, At(l.held.msgs, id), m);
    } else if m in c {
      ForwardGoes(l2, id, At(l.held.index, idx), m);
    } else {
      ForwardGoes(l3, id, At(l.held.remote, id), m);
    }
  }

  /** A move, and a message sent without knowledge of it: the record arrives at q as it left p; the
      message r sends to p is passed on to q and runs there; and r learns where the element is, as
      p, q and the home do. */
  lemma MoveThenMessage(cfg: Config, p: Loc, q: Loc, r: Loc, id: Id, m: Msg, direct: bool)
    requires id in p.hash && p.me != q.me && p.managers == q.managers && m.mgr in p.hash[id].elts && m.mgr < p.managers
    requires LookupId(cfg, r, m.idx) == Some(id) && id !in r.hash && id in r.id2pe && r.id2pe[id] == p.me
    requires m.src == r.me && r.me != q.me
    ensures var (left, idx) := (Emigrate(cfg, p, id, q.me), p.hash[id].idx);
      var arrived := OnPacket(cfg, q, left.out[0].packet);
      && left.out[0].to == q.me && arrived.Some?
      && left.loc.hash == p.hash - {id} && arrived.value.loc.hash == q.hash[id := p.hash[id]]
      && (cfg.home(idx) != p.me && cfg.home(idx) != q.me ==> left.out[|left.out| - 1] == Mail(cfg.home(idx), UpdateIdx(idx, id, q.me)))
      && SendMsg(cfg, r, m, direct).out == [Mail(p.me, Data(Parcel(m, 1), id))]
      && OnPacket(cfg, left.loc, Data(Parcel(m, 1), id)) == Some(Effect(left.loc, [Mail(q.me, Data(Parcel(m, 2), id))], []))
      && OnPacket(cfg, arrived.value.loc, Data(Parcel(m, 2), id)) ==
           Some(Effect(arrived.value.loc, [Mail(r.me, UpdateId(id, q.me))], [m]))
    ensures OnUpdateId(r, id, q.me).loc.id2pe[id] == q.me
  {
    Moved(cfg, p, q, id);
    var left := Emigrate(cfg, p, id, q.me);
    var arrived := OnPacket(cfg, q, left.out[0].packet).value.loc;
    hide Emigrate, CreateLocal, InformIdx, InformId, Forward;
    RunsThere(cfg, arrived, id, m);
  }

  lemma Moved(cfg: Config, p: Loc, q: Loc, id: Id)
    requires id in p.hash && p.me != q.me && p.managers == q.managers
    ensures var (left, idx) := (Emigrate(cfg, p, id, q.me), p.hash[id].idx);
      && left.out != [] && left.out[0] == Mail(q.me, Migrate(idx, id, p.managers, p.hash[id].elts))
      && (cfg.home(idx) != p.me && cfg.home(idx) != q.me ==> left.out[|left.out| - 1] == Mail(cfg.home(idx), UpdateIdx(idx, id, q.me)))
      && left.loc.id2pe == p.id2pe[id := q.me] && left.loc.hash == p.hash - {id}
    ensures var arrived := OnPacket(cfg, q, Migrate(p.hash[id].idx, id, p.managers, p.hash[id].elts));
      && arrived.Some? && arrived.value.loc.me == q.me && arrived.value.loc.managers == q.managers
      && arrived.value.loc.hash == q.hash[id := p.hash[id]]
  {
    hide Forward, Replies;
  }

  lemma RunsThere(cfg: Config, l: Loc, id: Id, m: Msg)
    requires id in l.hash && m.mgr < l.managers && m.mgr in l.hash[id].elts && m.src != l.me
    ensures OnPacket(cfg, l, Data(Parcel(m, 2), id)) == Some(Effect(l, [Mail(m.src, UpdateId(id, l.me))], [m]))
  {
  }

  // ---------------------------------------------------------------- messages for unknown places

  lemma {:induction false} ForwardHas(l: Loc, id: Id, xs: seq<Parcel>, x: Parcel)
    requires Settled(l, id) && x in xs
    ensures (if id in l.hash then Mail(l.me, Data(x, id)) else Mail(l.id2pe[id], Data(Parcel(x.msg, x.hops + 1), id)))
      in Forward(l, id, xs)
  {
    var k := |xs| - 1;
    if x != xs[k] {
      assert xs == xs[..k] + [xs[k]];
      ForwardHas(l, id, xs[..k], x);
    }
  }

  /** A small message for an unknown place goes by way of the home, and the sender takes the element
      to be there until it hears otherwise.  The home, where it is the home of the ID too, executes
      it or holds it beside the record if the element is there, passes it on to where it knows the
      element to be, or else holds it by ID (or queues it again while the array is unknown). */
  lemma ThroughHome(cfg: Config, p: Loc, h: Loc, x: Parcel, id: Id, idx: Option<Idx>, direct: bool)
    requires id !in p.hash && id !in p.id2pe && h.me == HomeFor(cfg, id, idx) != p.me && !x.msg.big
    ensures DeliverMsg(cfg, p, x, id, idx, direct) ==
      Effect(p.(id2pe := p.id2pe[id := h.me]), [Mail(h.me, Data(Parcel(x.msg, x.hops + 1), id))], [])
    ensures var (y, mgr) := (Parcel(x.msg, x.hops + 1), x.msg.mgr);
      var e := OnPacket(cfg, h, Data(y, id)).value;
      if id in h.hash then
        if mgr < h.managers && mgr in h.hash[id].elts then e.loc == h && e.ran == [x.msg]
        else e.ran == [] && e.out == [] && At(e.loc.held.shadow, id) == At(h.held.shadow, id) + [y]
      else if id in h.id2pe then e == Effect(h, [Mail(h.id2pe[id], Data(Parcel(x.msg, x.hops + 2), id))], [])
      else if HomeOfId(cfg, id) != h.me then
        e == Effect(h.(id2pe := h.id2pe[id := HomeOfId(cfg, id)]), [Mail(HomeOfId(cfg, id), Data(Parcel(x.msg, x.hops + 2), id))], [])
      else if mgr < h.managers then e.ran == [] && e.out == [] && At(e.loc.held.msgs, id) == At(h.held.msgs, id) + [y]
      else e == Effect(h, [Mail(h.me, Data(y, id))], [])
  {
  }

  /** What an update releases: every message held for the ID or the index leaves for the place it
      brings, and none is held for them any longer. */
  lemma UpdateReleases(cfg: Config, l: Loc, idx: Idx, id: Id, pe: Pe, x: Parcel)
    requires id !in l.hash
    requires x in At(l.held.msgs, id) || x in At(l.held.index, idx) || x in At(l.held.remote, id)
    ensures var e := OnUpdateIdx(cfg, l, idx, id, pe);
      && Mail(pe, Data(Parcel(x.msg, x.hops + 1), id)) in e.out
      && At(e.loc.held.msgs, id) == At(e.loc.held.index, idx) == At(e.loc.held.remote, id) == []
  {
    var l1 := InsertId(cfg, l, idx, id).(requests := l.requests - {idx}, id2pe := l.id2pe[id := pe]);
    var l2 := l1.(held := l.held.(msgs := l.held.msgs - {id}));
    var l3 := l2.(held := l2.held.(index := l.held.index - {idx}));
    var who := if idx in l.requests then l.requests[idx] else [];
    var a, b, c, d := Replies(l.me, idx, id, pe, who), Forward(l1, id, At(l.held.msgs, id)),
      Forward(l2, id, At(l.held.index, idx)), Forward(l3, id, At(l.held.remote, id));
    assert OnUpdateIdx(cfg, l, idx, id, pe).out == a + b + c + d;
    if x in At(l.held.msgs, id) {
      ForwardHas(l1, id, At(l.held.msgs, id), x);
    } else if x in At(l.held.index, idx) {
      ForwardHas(l2, id, At(l.held.index, idx), x);
    } else {
      ForwardHas(l3, id, At(l.held.remote, id), x);
    }
    hide Replies, Forward;
  }

  lemma UpdateIdReleases(l: Loc, id: Id, pe: Pe, x: Parcel)
    requires id !in l.hash && (x in At(l.held.msgs, id) || x in At(l.held.remote, id))
    ensures var e := OnUpdateId(l, id, pe);
      && Mail(pe, Data(Parcel(x.msg, x.hops + 1), id)) in e.out && e.loc.id2pe == l.id2pe[id := pe]
      && At(e.loc.held.msgs, id) == At(e.loc.held.remote, id) == []
  {
    var l1 := l.(id2pe := l.id2pe[id := pe]);
    var e := InformId(l, id, pe);
    if x in At(l.held.msgs, id) { ForwardHas(l1, id, At(l.held.msgs, id), x); } else { ForwardHas(e.loc, id, At(l.held.remote, id), x); }
    hide Forward;
  }

  // ---------------------------------------------------------------- requests

  /** Where a processor believes an element to be. */
  ghost function Believed(l: Loc, id: Id, otherwise: Pe): Pe {
    if id in l.id2pe then l.id2pe[id] else otherwise
  }

  /** A big message for an unknown place waits, and the home is asked, once; the home answers with
      where it believes the element to be; and with the answer the message leaves for there. */
  lemma BigThroughHome(cfg: Config, p: Loc, h: Loc, x: Parcel, id: Id, idx: Option<Idx>, direct: bool)
    requires id !in p.hash && id !in p.id2pe && h.me == HomeFor(cfg, id, idx) != p.me && x.msg.big
    ensures var (e, v) := (DeliverMsg(cfg, p, x, id, idx, direct), Believed(h, id, HomeOfId(cfg, id)));
      && e.ran == [] && e.out == (if id in p.held.remote then [] else [Mail(h.me, RequestId(id, p.me))])
      && e.loc.id2pe == p.id2pe[id := h.me] && At(e.loc.held.remote, id) == At(p.held.remote, id) + [x]
      && OnPacket(cfg, h, RequestId(id, p.me)) == Some(Effect(h, [Mail(p.me, UpdateId(id, v))], []))
      && Mail(v, Data(Parcel(x.msg, x.hops + 1), id)) in OnUpdateId(e.loc, id, v).out
      && OnUpdateId(e.loc, id, v).loc.id2pe == p.id2pe[id := v]
  {
    var e, v := DeliverMsg(cfg, p, x, id, idx, direct), Believed(h, id, HomeOfId(cfg, id));
    BigWaits(cfg, p, x, id, idx, direct);
    IdRequestAnswered(cfg, h, id, p.me);
    hide DeliverMsg, OnUpdateId, OnPacket, HomeFor, HomeOfId, Believed;
    AnswerReleases(p, e.loc, id, h.me, v, x);
  }

  lemma AnswerReleases(p: Loc, l: Loc, id: Id, home: Pe, pe: Pe, x: Parcel)
    requires id !in l.hash && l.id2pe == p.id2pe[id := home] && At(l.held.remote, id) == At(p.held.remote, id) + [x]
    ensures Mail(pe, Data(Parcel(x.msg, x.hops + 1), id)) in OnUpdateId(l, id, pe).out
    ensures OnUpdateId(l, id, pe).loc.id2pe == p.id2pe[id := pe]
  {
    hide OnUpdateId;
    assert x in At(l.held.remote, id);
    UpdateIdReleases(l, id, pe, x);
    assert p.id2pe[id := home][id := pe] == p.id2pe[id := pe];
  }

  lemma BigWaits(cfg: Config, l: Loc, x: Parcel, id: Id, idx: Option<Idx>, direct: bool)
    requires id !in l.hash && id !in l.id2pe && HomeFor(cfg, id, idx) != l.me && x.msg.big
    ensures var (e, home) := (DeliverMsg(cfg, l, x, id, idx, direct), HomeFor(cfg, id, idx));
      && e.ran == [] && e.out == (if id in l.held.remote then [] else [Mail(home, RequestId(id, l.me))])
      && e.loc == l.(id2pe := l.id2pe[id := home], held := l.held.(remote := l.held.remote[id := At(l.held.remote, id) + [x]]))
  {
  }

  lemma IdRequestAnswered(cfg: Config, h: Loc, id: Id, asker: Pe)
    requires asker != h.me
    ensures OnPacket(cfg, h, RequestId(id, asker)) ==
      Some(Effect(h, [Mail(asker, UpdateId(id, Believed(h, id, HomeOfId(cfg, id))))], []))
  {
  }

  /** A message for an index without an ID waits behind those for the same index; its home, if
      elsewhere, is asked by the first of them only. */
  lemma UnheardWaits(cfg: Config, l: Loc, m: Msg, direct: bool)
    requires LookupId(cfg, l, m.idx).None?
    ensures var e := SendMsg(cfg, l, m, direct);
      && e.ran == [] && e.loc.held.index.Keys == l.held.index.Keys + {m.idx}
      && e.loc.held.index[m.idx] == At(l.held.index, m.idx) + [Parcel(m, 0)]
      && e.out == if cfg.home(m.idx) == l.me || m.idx in l.held.index then [] else [Mail(cfg.home(m.idx), RequestIdx(m.idx, l.me))]
  {
  }

  /** A request by index is answered, with where the element is believed to be, if and only if the
      ID is known; otherwise it is noted, behind those noted before.  Its own a processor ignores. */
  lemma RequestAnswered(cfg: Config, h: Loc, idx: Idx, asker: Pe)
    ensures asker == h.me ==> OnPacket(cfg, h, RequestIdx(idx, asker)) == Some(Effect(h, [], []))
    ensures asker != h.me ==>
      match LookupId(cfg, h, idx)
      case Some(id) =>
        OnPacket(cfg, h, RequestIdx(idx, asker)) == Some(Effect(h, [Mail(asker, UpdateIdx(idx, id, Believed(h, id, cfg.home(idx))))], []))
      case None =>
        var e := OnPacket(cfg, h, RequestIdx(idx, asker)).value;
        && e.out == [] && e.loc.requests.Keys == h.requests.Keys + {idx}
        && e.loc.requests[idx] == (if idx in h.requests then h.requests[idx] else []) + [asker]
        && forall j :: j in h.requests && j != idx ==> e.loc.requests[j] == h.requests[j]
  {
  }

  /** A home told of a location passes exactly that on to whoever asks, now or later; and with the
      answer all that the asker holds for the index or the ID leaves for there. */
  lemma ToldThenAsked(cfg: Config, h: Loc, q: Loc, idx: Idx, id: Id, pe: Pe, x: Parcel)
    requires q.me != h.me && id !in q.hash && (cfg.packed ==> cfg.pack(idx) == id)
    requires x in At(q.held.msgs, id) || x in At(q.held.index, idx) || x in At(q.held.remote, id)
    ensures var h' := OnUpdateIdx(cfg, h, idx, id, pe).loc;
      && OnPacket(cfg, h', RequestIdx(idx, q.me)) == Some(Effect(h', [Mail(q.me, UpdateIdx(idx, id, pe))], []))
      && OnPacket(cfg, h', RequestId(id, q.me)) == Some(Effect(h', [Mail(q.me, UpdateId(id, pe))], []))
    ensures Mail(pe, Data(Parcel(x.msg, x.hops + 1), id)) in OnUpdateIdx(cfg, q, idx, id, pe).out
    ensures OnUpdateIdx(cfg, q, idx, id, pe).loc.id2pe == q.id2pe[id := pe]
  {
    var h' := OnUpdateIdx(cfg, h, idx, id, pe).loc;
    UpdateLearned(cfg, h, idx, id, pe);
    UpdateLearned(cfg, q, idx, id, pe);
    hide OnUpdateIdx, OnPacket;
    RequestAnswered(cfg, h', idx, q.me);
    IdRequestAnswered(cfg, h', id, q.me);
    UpdateReleases(cfg, q, idx, id, pe, x);
  }

  // ---------------------------------------------------------------- creation

  /** Creating an index away from its home tells the home, last of all, where the element is, and
      tells nobody anything else; the home then knows, sends what it held there, and passes
      messages on to there. */
  lemma CreationTellsHome(cfg: Config, p: Loc, h: Loc, idx: Idx, mgr: Mgr, x: Parcel)
    requires var id := NewId(cfg, p, idx).1; id !in p.hash && id !in h.hash
    requires h.me == cfg.home(idx) != p.me
    ensures var id := NewId(cfg, p, idx).1;
      && AddElement(cfg, p, idx, mgr).Some?
      && var out := AddElement(cfg, p, idx, mgr).value.out;
      && out != [] && out[|out| - 1] == Mail(h.me, UpdateIdx(idx, id, p.me))
      && (forall m :: m in out && !m.packet.Data? ==> m.packet == UpdateIdx(idx, id, p.me))
      && (forall m :: m in out && m.packet.Data? ==> m.to == p.me && m.packet.id == id)
    ensures var (id, e) := (NewId(cfg, p, idx).1, OnUpdateIdx(cfg, h, idx, NewId(cfg, p, idx).1, p.me));
      && e.loc.id2pe == h.id2pe[id := p.me]
      && OnPacket(cfg, e.loc, Data(x, id)) == Some(Effect(e.loc, [Mail(p.me, Data(Parcel(x.msg, x.hops + 1), id))], []))
      && forall y :: y in At(h.held.msgs, id) ==> Mail(p.me, Data(Parcel(y.msg, y.hops + 1), id)) in e.out
  {
    var (p1, id) := NewId(cfg, p, idx);
    hide CreateLocal, OnUpdateIdx, OnPacket;
    CreationSends(cfg, p1, idx, id, {mgr});
    HomeLearns(cfg, h, idx, id, p.me, x);
  }

  lemma UpdateLearned(cfg: Config, l: Loc, idx: Idx, id: Id, pe: Pe)
    ensures var l' := OnUpdateIdx(cfg, l, idx, id, pe).loc;
      && l'.me == l.me && l'.id2pe == l.id2pe[id := pe] && l'.hash == l.hash
      && LookupId(cfg, l', idx) == if cfg.packed then Some(cfg.pack(idx)) else Some(id)
  {
    hide Forward, Replies;
  }

  /** A message for an element believed elsewhere goes there. */
  lemma PassedOn(cfg: Config, l: Loc, id: Id, x: Parcel)
    requires id !in l.hash && id in l.id2pe
    ensures OnPacket(cfg, l, Data(x, id)) == Some(Effect(l, [Mail(l.id2pe[id], Data(Parcel(x.msg, x.hops + 1), id))], []))
  {
  }

  lemma HomeLearns(cfg: Config, h: Loc, idx: Idx, id: Id, pe: Pe, x: Parcel)
    requires id !in h.hash
    ensures var e := OnUpdateIdx(cfg, h, idx, id, pe);
      && e.loc.id2pe == h.id2pe[id := pe]
      && OnPacket(cfg, e.loc, Data(x, id)) == Some(Effect(e.loc, [Mail(pe, Data(Parcel(x.msg, x.hops + 1), id))], []))
      && forall y :: y in At(h.held.msgs, id) ==> Mail(pe, Data(Parcel(y.msg, y.hops + 1), id)) in e.out
  {
    UpdateLearned(cfg, h, idx, id, pe);
    PassedOn(cfg, OnUpdateIdx(cfg, h, idx, id, pe).loc, id, x);
    hide OnUpdateIdx, OnPacket;
    forall y | y in At(h.held.msgs, id)
      ensures Mail(pe, Data(Parcel(y.msg, y.hops + 1), id)) in OnUpdateIdx(cfg, h, idx, id, pe).out
    {
      UpdateReleases(cfg, h, idx, id, pe, y);
    }
  }

  /** A second insertion of one array's element at an index fails, and no other. */
  lemma AddedOnce(cfg: Config, l: Loc, idx: Idx, mgr: Mgr)
    ensures var id := NewId(cfg, l, idx).1;
      AddElement(cfg, l, idx, mgr).None? <==> id in l.hash && mgr in l.hash[id].elts
    ensures AddElement(cfg, l, idx, mgr).Some? ==> AddElement(cfg, AddElement(cfg, l, idx, mgr).value.loc, idx, mgr).None?
  {
    hide Forward, Replies;
  }

  lemma CreationSends(cfg: Config, l: Loc, idx: Idx, id: Id, elts: set<Mgr>)
    requires cfg.home(idx) != l.me
    ensures var out := CreateLocal(cfg, l, idx, id, elts, true).out;
      && out != [] && out[|out| - 1] == Mail(cfg.home(idx), UpdateIdx(idx, id, l.me))
      && (forall m :: m in out && !m.packet.Data? ==> m.packet == UpdateIdx(idx, id, l.me))
      && (forall m :: m in out && m.packet.Data? ==> m.to == l.me && m.packet.id == id)
  {
    var l1 := l.(hash := l.hash[id := Rec(idx, elts)]);
    var e := InformIdx(cfg, l1, idx, id, l.me);
    assert forall m :: m in e.out ==> m in OnUpdateIdx(cfg, l1, idx, id, l.me).out;
    forall m | m in e.out
      ensures if m.packet.Data? then m.to == l.me && m.packet.id == id else m.packet == UpdateIdx(idx, id, l.me)
    {
      UpdateSends(cfg, l1, idx, id, l.me, m);
    }
    hide InformIdx;
  }

  // ---------------------------------------------------------------- execution and arrival

  /** Where the element is, a message is queued as it is, or, taken from the queue, executed, once,
      and changes no table; a message from elsewhere that took more than one hop, and no other, has its sender told of the place. */
  lemma ExecutedHere(cfg: Config, l: Loc, x: Parcel, id: Id)
    requires id in l.hash && x.msg.mgr < l.managers && x.msg.mgr in l.hash[id].elts
    ensures DeliverMsg(cfg, l, x, id, None, false) == Effect(l, [Mail(l.me, Data(x, id))], [])
    ensures OnPacket(cfg, l, Data(x, id)) ==
      Some(Effect(l, if x.msg.src == l.me || x.hops <= 1 then [] else [Mail(x.msg.src, UpdateId(id, l.me))], [x.msg]))
  {
  }

  /** A record that arrives before the managers it had where it left are all registered comes back
      unchanged, until they are, and is then installed as it left; one that left where fewer were
      registered stops the program. */
  lemma ArrivesOnceRegistered(cfg: Config, l: Loc, idx: Idx, id: Id, n: nat, elts: set<Mgr>)
    ensures var p := Migrate(idx, id, n, elts);
      && (OnPacket(cfg, l, p).None? <==> n < l.managers)
      && (l.managers < n ==> OnPacket(cfg, l, p) == Some(Effect(l, [Mail(l.me, p)], [])))
    ensures l.managers <= n ==>
      var e := OnPacket(cfg, l.(managers := n), Migrate(idx, id, n, elts));
      && e.Some? && e.value.loc.hash == l.hash[id := Rec(idx, elts)] && e.value.loc.id2pe == l.id2pe[id := l.me]
      && LookupId(cfg, e.value.loc, idx) == if cfg.packed then Some(cfg.pack(idx)) else Some(id)
  {
    hide Forward, Replies;
  }
}
