/** The location manager as an object: its tables and buffers are fields, its entry points
    update them and send mail.  Each is proved to have the effect Location.dfy gives it.
 */
module LocationMgr {
  import opened Options
  import opened Location

  datatype Which = Msgs | Remote | Shadow

  function Select(h: Held, w: Which): Buffer {
    match w
    case Msgs => h.msgs
    case Remote => h.remote
    case Shadow => h.shadow
  }

  function Replace(h: Held, w: Which, b: Buffer): Held {
    match w
    case Msgs => h.(msgs := b)
    case Remote => h.(remote := b)
    case Shadow => h.(shadow := b)
  }

  class LocMgr {
    const cfg: Config
    const me: Pe
    var managers: nat
    var idx2id: map<Idx, Id>
    var id2pe: map<Id, Pe>
    var hash: map<Id, Rec>
    var held: Held
    var requests: map<Idx, seq<Pe>>
    var idCounter: nat
    var out: seq<Mail>
    var ran: seq<Msg>

    constructor (cfg: Config, me: Pe)
      ensures this.cfg == cfg && State() == Loc(me, 0, map[], map[], map[], Held(map[], map[], map[], map[]), map[], 0)
      ensures out == [] && ran == []
    {
      this.cfg, this.me := cfg, me;
      managers, idx2id, id2pe, hash, requests, idCounter := 0, map[], map[], map[], map[], 0;
      held := Held(map[], map[], map[], map[]);
      out, ran := [], [];
    }

    ghost function State(): Loc
      reads this
    {
      Loc(me, managers, idx2id, id2pe, hash, held, requests, idCounter)
    }

    /** The tables are those of the effect, and its mail and executions have been added. */
    twostate predicate Did(e: Effect)
      reads this
    {
      State() == e.loc && out == old(out) + e.out && ran == old(ran) + e.ran
    }

    method Transmit(to: Pe, p: Packet)
      modifies this`out
      ensures out == old(out) + [Mail(to, p)]
    {
      out := out + [Mail(to, p)];
    }

    method LookupIdOf(idx: Idx) returns (id: Option<Id>)
      ensures id == LookupId(cfg, State(), idx)
    {
      if cfg.packed { return Some(cfg.pack(idx)); }
      id := if idx in idx2id then Some(idx2id[idx]) else None;
    }

    method PutId(idx: Idx, id: Id)
      modifies this`idx2id
      ensures State() == InsertId(cfg, old(State()), idx, id)
    {
      if !cfg.packed { idx2id := idx2id[idx := id]; }
    }

    method DeliverUnknownMsg(x: Parcel, id: Id, idx: Option<Idx>)
      modifies this`id2pe, this`held, this`out
      ensures Did(DeliverUnknown(old(State()), x, id, HomeFor(cfg, id, idx)))
      ensures var home := if idx.Some? then cfg.home(idx.value) else HomeOfId(cfg, id);
        home != me ==>
          && id2pe == old(id2pe)[id := home]
          && out == old(out) + if !x.msg.big then [Mail(home, Data(Parcel(x.msg, x.hops + 1), id))]
                               else if id in old(held).remote then [] else [Mail(home, RequestId(id, me))]
    {
      var home := if idx.Some? then cfg.home(idx.value) else HomeOfId(cfg, id);
      if home != me {
        id2pe := id2pe[id := home];
        if !x.msg.big {
          Transmit(home, Data(Hop(x), id));
        } else {
          if id !in held.remote { Transmit(home, RequestId(id, me)); }
          held := held.(remote := Add(held.remote, id, x));
        }
      } else if x.msg.mgr >= managers {
        Transmit(me, Data(x, id));
      } else {
        held := held.(msgs := Add(held.msgs, id, x));
      }
    }

    method Deliver(x: Parcel, id: Id, idx: Option<Idx>, direct: bool)
      modifies this`id2pe, this`held, this`out, this`ran
      ensures Did(DeliverMsg(cfg, old(State()), x, id, idx, direct))
    {
      if id !in hash {
        if id in id2pe {
          Transmit(id2pe[id], Data(Hop(x), id));
        } else {
          DeliverUnknownMsg(x, id, idx);
        }
        return;
      }
      if !direct {
        Transmit(me, Data(x, id));
        return;
      }
      if x.msg.mgr >= managers || x.msg.mgr !in hash[id].elts {
        held := held.(shadow := Add(held.shadow, id, x));
        return;
      }
      if x.hops > 1 && x.msg.src != me { Transmit(x.msg.src, UpdateId(id, me)); }
      ran := ran + [x.msg];
    }

    method Send(m: Msg, direct: bool)
      modifies this`id2pe, this`held, this`out, this`ran
      ensures Did(SendMsg(cfg, old(State()), m, direct))
    {
      var id := LookupIdOf(m.idx);
      if id.Some? {
        Deliver(Parcel(m, 0), id.value, Some(m.idx), direct);
        return;
      }
      var home := cfg.home(m.idx);
      if home != me && m.idx !in held.index { Transmit(home, RequestIdx(m.idx, me)); }
      held := held.(index := Add(held.index, m.idx, Parcel(m, 0)));
    }

    /** Messages released once the location is settled all leave as mail: no table changes, and
        in particular nothing is buffered again. */
    method Release(id: Id, xs: seq<Parcel>, idx: Option<Idx>)
      requires Settled(State(), id)
      modifies this`id2pe, this`held, this`out, this`ran
      ensures Did(Effect(old(State()), Forward(old(State()), id, xs), []))
    {
      var i := 0;
      while i < |xs|
        invariant i <= |xs| && State() == old(State()) && ran == old(ran)
        invariant out == old(out) + Forward(old(State()), id, xs[..i])
      {
        Deliver(xs[i], id, idx, false);
        assert xs[..i + 1][..i] == xs[..i];
        i := i + 1;
      }
      assert xs[..|xs|] == xs;
    }

    method DeliverAnyBufferedMsgs(id: Id, w: Which)
      requires Settled(State(), id)
      modifies this`id2pe, this`held, this`out, this`ran
      ensures var l := old(State());
        Did(Effect(l.(held := Replace(l.held, w, Select(l.held, w) - {id})), Forward(l, id, At(Select(l.held, w), id)), []))
    {
      if id !in Select(held, w) {
        assert Select(held, w) - {id} == Select(held, w);
        return;
      }
      var toFlush := Select(held, w)[id];
      held := Replace(held, w, Select(held, w)[id := []]);
      ghost var l := State();
      Release(id, toFlush, None);
      ForwardSame(old(State()), l, id, toFlush);
      assert Select(held, w)[id] == [];
      held := Replace(held, w, Select(held, w) - {id});
    }

    method InformById(id: Id, nowOn: Pe)
      modifies this`id2pe, this`held, this`out, this`ran
      ensures Did(InformId(old(State()), id, nowOn))
    {
      id2pe := id2pe[id := nowOn];
      DeliverAnyBufferedMsgs(id, Msgs);
    }

    method ReplyAll(idx: Idx, id: Id, nowOn: Pe, who: seq<Pe>)
      modifies this`out
      ensures out == old(out) + Replies(me, idx, id, nowOn, who)
    {
      var i := 0;
      while i < |who|
        invariant i <= |who| && out == old(out) + Replies(me, idx, id, nowOn, who[..i])
      {
        if who[i] != me { Transmit(who[i], UpdateIdx(idx, id, nowOn)); }
        assert who[..i + 1][..i] == who[..i];
        i := i + 1;
      }
      assert who[..|who|] == who;
    }

    method AnswerRequests(idx: Idx, id: Id, nowOn: Pe)
      modifies this`requests, this`out
      ensures State() == old(State()).(requests := old(requests) - {idx}) && ran == old(ran)
      ensures out == old(out) + Replies(me, idx, id, nowOn, Requesters(old(State()), idx))
    {
      if idx in requests {
        ReplyAll(idx, id, nowOn, requests[idx]);
        requests := requests - {idx};
      } else {
        assert requests - {idx} == requests;
      }
    }

    method ReleaseIndex(idx: Idx, id: Id)
      requires Settled(State(), id)
      modifies this`id2pe, this`held, this`out, this`ran
      ensures var l := old(State());
        Did(Effect(l.(held := l.held.(index := l.held.index - {idx})), Forward(l, id, At(l.held.index, idx)), []))
    {
      if idx in held.index {
        Release(id, held.index[idx], Some(idx));
        held := held.(index := held.index - {idx});
      } else {
        assert held.index - {idx} == held.index;
      }
    }

    method Inform(idx: Idx, id: Id, nowOn: Pe)
      modifies this`idx2id, this`id2pe, this`requests, this`held, this`out, this`ran
      ensures Did(InformIdx(cfg, old(State()), idx, id, nowOn))
    {
      ghost var l := State();
      PutId(idx, id);
      id2pe := id2pe[id := nowOn];
      AnswerRequests(idx, id, nowOn);
      ghost var l1 := State();
      InformParts(cfg, l, idx, id, nowOn);
      hide InsertId, Replies, Forward, InformIdx;
      DeliverAnyBufferedMsgs(id, Msgs);
      ghost var l2 := State();
      ReleaseIndex(idx, id);
      ghost var a, b, c := Replies(me, idx, id, nowOn, Requesters(l, idx)), Forward(l1, id, At(l.held.msgs, id)), Forward(l2, id, At(l.held.index, idx));
      Regroup(old(out), a, b, c);
    }

    method RequestLocationOfIdx(idx: Idx, peToTell: Pe)
      modifies this`requests, this`out
      ensures Did(OnRequestIdx(cfg, old(State()), idx, peToTell))
      ensures var id := LookupId(cfg, old(State()), idx);
        peToTell != me && id.Some? ==>
          out == old(out) + [Mail(peToTell, UpdateIdx(idx, id.value, if id.value in id2pe then id2pe[id.value] else cfg.home(idx)))]
    {
      if peToTell == me { return; }
      var id := LookupIdOf(idx);
      if id.Some? {
        var onPe := if id.value in id2pe then id2pe[id.value] else cfg.home(idx);
        Transmit(peToTell, UpdateIdx(idx, id.value, onPe));
      } else {
        requests := requests[idx := (if idx in requests then requests[idx] else []) + [peToTell]];
      }
    }

    method RequestLocationOfId(id: Id, peToTell: Pe)
      modifies this`out
      ensures Did(OnRequestId(cfg, old(State()), id, peToTell))
      ensures peToTell != me ==>
        out == old(out) + [Mail(peToTell, UpdateId(id, if id in id2pe then id2pe[id] else HomeOfId(cfg, id)))]
    {
      if peToTell == me { return; }
      var onPe := if id in id2pe then id2pe[id] else HomeOfId(cfg, id);
      Transmit(peToTell, UpdateId(id, onPe));
    }

    method UpdateLocation(idx: Idx, id: Id, nowOn: Pe)
      modifies this`idx2id, this`id2pe, this`requests, this`held, this`out, this`ran
      ensures Did(OnUpdateIdx(cfg, old(State()), idx, id, nowOn))
    {
      ghost var e := InformIdx(cfg, State(), idx, id, nowOn);
      Inform(idx, id, nowOn);
      assert Settled(e.loc, id);
      hide InformIdx, Forward;
      DeliverAnyBufferedMsgs(id, Remote);
      Join(old(out), e.out, Forward(e.loc, id, At(e.loc.held.remote, id)));
    }

    method UpdateLocationOfId(id: Id, nowOn: Pe)
      modifies this`id2pe, this`held, this`out, this`ran
      ensures Did(OnUpdateId(old(State()), id, nowOn))
    {
      InformById(id, nowOn);
      DeliverAnyBufferedMsgs(id, Remote);
    }

    method GetNewObjectId(idx: Idx) returns (id: Id)
      modifies this`idCounter, this`idx2id
      ensures (State(), id) == NewId(cfg, old(State()), idx)
    {
      var found := LookupIdOf(idx);
      if found.Some? { return found.value; }
      id := idCounter + me * ID_BITS;
      idCounter := idCounter + 1;
      PutId(idx, id);
    }

    method InformHome(idx: Idx, id: Id, nowOn: Pe)
      modifies this`out
      ensures out == old(out) + HomeNotice(cfg.home(idx), me, idx, id, nowOn)
      ensures cfg.home(idx) != me && cfg.home(idx) != nowOn ==> out == old(out) + [Mail(cfg.home(idx), UpdateIdx(idx, id, nowOn))]
    {
      var home := cfg.home(idx);
      if home != me && home != nowOn { Transmit(home, UpdateIdx(idx, id, nowOn)); }
    }

    method CreateRecord(idx: Idx, id: Id, elts: set<Mgr>, notifyHome: bool)
      modifies this
      ensures Did(CreateLocal(cfg, old(State()), idx, id, elts, notifyHome))
    {
      hash := hash[id := Rec(idx, elts)];
      ghost var e := InformIdx(cfg, State(), idx, id, me);
      hide InformIdx, HomeNotice;
      Inform(idx, id, me);
      if notifyHome {
        InformHome(idx, id, me);
        Join(old(out), e.out, HomeNotice(cfg.home(idx), me, idx, id, me));
      }
    }

    /** `ok` is false, and nothing but the ID counter may have changed, for a second insertion. */
    method Insert(idx: Idx, mgr: Mgr) returns (ok: bool)
      modifies this
      ensures ok == AddElement(cfg, old(State()), idx, mgr).Some?
      ensures ok ==> Did(AddElement(cfg, old(State()), idx, mgr).value)
      ensures !ok ==> Did(Effect(NewId(cfg, old(State()), idx).0, [], []))
    {
      var id := GetNewObjectId(idx);
      if id !in hash {
        CreateRecord(idx, id, {mgr}, true);
        return true;
      }
      if mgr in hash[id].elts { return false; }
      DeliverAnyBufferedMsgs(id, Shadow);
      hash := hash[id := hash[id].(elts := hash[id].elts + {mgr})];
      return true;
    }

    method EmigrateTo(id: Id, to: Pe)
      requires id in hash
      modifies this
      ensures Did(Emigrate(cfg, old(State()), id, to))
    {
      if to == me { return; }
      hide InformIdx, HomeNotice;
      var rec := hash[id];
      Transmit(to, Migrate(rec.idx, id, managers, rec.elts));
      hash := hash - {id};
      ghost var e := InformIdx(cfg, State(), rec.idx, id, to);
      Inform(rec.idx, id, to);
      InformHome(rec.idx, id, to);
      Regroup(old(out), [Mail(to, Migrate(rec.idx, id, managers, rec.elts))], e.out, HomeNotice(cfg.home(rec.idx), me, rec.idx, id, to));
    }

    /** `ok` is false where the source aborts. */
    method ImmigrateHere(m: Packet) returns (ok: bool)
      requires m.Migrate?
      modifies this
      ensures ok == Immigrate(cfg, old(State()), m).Some?
      ensures ok ==> Did(Immigrate(cfg, old(State()), m).value)
      ensures !ok ==> Did(Effect(old(State()), [], []))
    {
      if m.nManagers < managers { return false; }
      if m.nManagers > managers {
        Transmit(me, m);
        return true;
      }
      PutId(m.idx, m.id);
      CreateRecord(m.idx, m.id, m.elts, false);
      return true;
    }
  }

  lemma Regroup(o: seq<Mail>, a: seq<Mail>, b: seq<Mail>, c: seq<Mail>)
    ensures o + a + b + c == o + (a + b + c)
  {
  }

  lemma Join(o: seq<Mail>, a: seq<Mail>, b: seq<Mail>)
    ensures o + a + b == o + (a + b)
  {
  }

  function Requesters(l: Loc, idx: Idx): seq<Pe> {
    if idx in l.requests then l.requests[idx] else []
  }

  lemma InformParts(cfg: Config, l: Loc, idx: Idx, id: Id, pe: Pe)
    ensures var l1 := InsertId(cfg, l, idx, id).(requests := l.requests - {idx}, id2pe := l.id2pe[id := pe]);
      var l2 := l1.(held := l.held.(msgs := l.held.msgs - {id}));
      InformIdx(cfg, l, idx, id, pe) ==
        Effect(l2.(held := l2.held.(index := l.held.index - {idx})),
               Replies(l.me, idx, id, pe, Requesters(l, idx)) + Forward(l1, id, At(l.held.msgs, id)) + Forward(l2, id, At(l.held.index, idx)), [])
  {
  }

  /** Where a message goes depends only on the records and the known locations. */
  lemma {:induction false} ForwardSame(a: Loc, b: Loc, id: Id, xs: seq<Parcel>)
    requires Settled(a, id) && Settled(b, id)
    requires a.me == b.me && a.hash == b.hash && a.id2pe == b.id2pe
    ensures Forward(a, id, xs) == Forward(b, id, xs)
  {
    if xs != [] { ForwardSame(a, b, id, xs[..|xs| - 1]); }
  }
}
