/** What each location manager's tables, and each packet, always say about the elements that
    exist: IDs, indices and homes agree, and nothing waits for what is already known.
 */
module LocationSane {
  import opened Options
  import opened Location
  import opened LocationSystem

  ghost predicate NamesOk(cfg: Config, names: map<Idx, Id>) {
    && (forall i, j :: i in names && j in names && names[i] == names[j] ==> i == j)
    && (forall i :: i in names ==> if cfg.packed then names[i] == cfg.pack(i) else names[i] / ID_BITS < cfg.numPes)
  }

  ghost predicate IdKnown(cfg: Config, names: map<Idx, Id>, id: Id) {
    cfg.packed || id in names.Values
  }

  ghost predicate Named(names: map<Idx, Id>, idx: Idx, id: Id) {
    idx in names && names[idx] == id
  }

  /** The ID on a message is that of its index. */
  ghost predicate Addressed(cfg: Config, names: map<Idx, Id>, m: Msg, id: Id) {
    && m.src < cfg.numPes
    && if cfg.packed then id == cfg.pack(m.idx) else Named(names, m.idx, id)
  }

  ghost predicate BufferOk(cfg: Config, names: map<Idx, Id>, b: Buffer) {
    forall id, i :: id in b && 0 <= i < |b[id]| ==> Addressed(cfg, names, b[id][i].msg, id)
  }

  ghost predicate MailOk(cfg: Config, names: map<Idx, Id>, m: Mail) {
    && m.to < cfg.numPes
    && match m.packet
       case Data(x, id) => Addressed(cfg, names, x.msg, id)
       case RequestIdx(idx, pe) => !cfg.packed && m.to == cfg.home(idx) && pe != m.to && pe < cfg.numPes
       case RequestId(id, pe) => IdKnown(cfg, names, id) && pe != m.to && pe < cfg.numPes
       case UpdateIdx(idx, id, pe) => Named(names, idx, id) && pe < cfg.numPes
       case UpdateId(id, pe) => IdKnown(cfg, names, id) && pe < cfg.numPes
       case Migrate(idx, id, _, _) => Named(names, idx, id)
  }

  ghost predicate AllMailOk(cfg: Config, names: map<Idx, Id>, out: seq<Mail>) {
    forall i :: 0 <= i < |out| ==> MailOk(cfg, names, out[i])
  }

  // ---------------------------------------------------------------- one processor

  // In the predicates below `ex` is an index whose arrival is being handled, for which the
  // tables may be half updated.

  ghost predicate IdsOk(cfg: Config, names: map<Idx, Id>, idx2id: map<Idx, Id>, id2pe: map<Id, Pe>, ex: Option<Idx>) {
    forall i :: i in idx2id ==> !cfg.packed && Named(names, i, idx2id[i]) && (ex == Some(i) || idx2id[i] in id2pe)
  }

  ghost predicate PesOk(cfg: Config, names: map<Idx, Id>, id2pe: map<Id, Pe>) {
    forall id :: id in id2pe ==> IdKnown(cfg, names, id) && id2pe[id] < cfg.numPes
  }

  ghost predicate RecordsOk(cfg: Config, names: map<Idx, Id>, hash: map<Id, Rec>, idx2id: map<Idx, Id>, id2pe: map<Id, Pe>, ex: Option<Idx>) {
    forall id :: id in hash ==>
      && Named(names, hash[id].idx, id)
      && (ex == Some(hash[id].idx) || (id in id2pe && (cfg.packed || hash[id].idx in idx2id)))
  }

  /** No message waits for the ID of an index that has one here. */
  ghost predicate IndexOk(cfg: Config, index: Buffer, idx2id: map<Idx, Id>, ex: Option<Idx>) {
    && (forall i :: i in index ==> !cfg.packed && (ex == Some(i) || i !in idx2id))
    && (forall i, j :: i in index && 0 <= j < |index[i]| ==>
          index[i][j].msg.idx == i && index[i][j].msg.src < cfg.numPes)
  }

  /** Nor does a request, and requests wait at home only. */
  ghost predicate RequestsOk(cfg: Config, me: Pe, requests: map<Idx, seq<Pe>>, idx2id: map<Idx, Id>, ex: Option<Idx>) {
    && (forall i :: i in requests ==> !cfg.packed && (ex == Some(i) || i !in idx2id) && cfg.home(i) == me)
    && (forall i, j :: i in requests && 0 <= j < |requests[i]| ==> requests[i][j] != me && requests[i][j] < cfg.numPes)
  }

  /** No message waits for a location that is known here. */
  ghost predicate MsgsOk(cfg: Config, me: Pe, msgs: Buffer, id2pe: map<Id, Pe>) {
    forall id :: id in msgs ==> cfg.packed && id !in id2pe && cfg.home(cfg.unpack(id)) == me
  }

  ghost predicate HeldOk(cfg: Config, names: map<Idx, Id>, h: Held) {
    BufferOk(cfg, names, h.msgs) && BufferOk(cfg, names, h.remote) && BufferOk(cfg, names, h.shadow)
  }

  /** The creator of an ID (without a compressor, its home) knows where it lives. */
  ghost predicate CreatorOk(cfg: Config, names: map<Idx, Id>, me: Pe, idCounter: nat, id2pe: map<Id, Pe>) {
    && idCounter <= ID_BITS
    && (!cfg.packed ==> forall id :: id in names.Values && id / ID_BITS == me ==>
          id in id2pe && id % ID_BITS < idCounter)
  }

  ghost predicate Sane(cfg: Config, names: map<Idx, Id>, l: Loc, ex: Option<Idx>) {
    && l.me < cfg.numPes
    && IdsOk(cfg, names, l.idx2id, l.id2pe, ex) && PesOk(cfg, names, l.id2pe)
    && RecordsOk(cfg, names, l.hash, l.idx2id, l.id2pe, ex)
    && IndexOk(cfg, l.held.index, l.idx2id, ex) && RequestsOk(cfg, l.me, l.requests, l.idx2id, ex)
    && MsgsOk(cfg, l.me, l.held.msgs, l.id2pe)
    && HeldOk(cfg, names, l.held)
  }

  /** What every entry point leaves: sane tables, correct mail, and a creator that still knows. */
  ghost predicate SaneEffect(cfg: Config, names: map<Idx, Id>, e: Effect) {
    Sane(cfg, names, e.loc, None) && AllMailOk(cfg, names, e.out) && CreatorOk(cfg, names, e.loc.me, e.loc.idCounter, e.loc.id2pe)
  }

  lemma AddOk(cfg: Config, names: map<Idx, Id>, b: Buffer, id: Id, x: Parcel)
    requires BufferOk(cfg, names, b) && Addressed(cfg, names, x.msg, id)
    ensures BufferOk(cfg, names, Add(b, id, x))
  {
  }

  lemma {:induction false} ForwardOk(cfg: Config, names: map<Idx, Id>, l: Loc, id: Id, xs: seq<Parcel>)
    requires Settled(l, id) && l.me < cfg.numPes && (id in l.id2pe ==> l.id2pe[id] < cfg.numPes)
    requires forall i :: 0 <= i < |xs| ==> Addressed(cfg, names, xs[i].msg, id)
    ensures AllMailOk(cfg, names, Forward(l, id, xs))
  {
    if xs != [] { ForwardOk(cfg, names, l, id, xs[..|xs| - 1]); }
  }

  lemma {:induction false} RepliesOk(cfg: Config, names: map<Idx, Id>, me: Pe, idx: Idx, id: Id, pe: Pe, who: seq<Pe>)
    requires Named(names, idx, id) && pe < cfg.numPes && forall i :: 0 <= i < |who| ==> who[i] < cfg.numPes
    ensures AllMailOk(cfg, names, Replies(me, idx, id, pe, who))
  {
    if who != [] { RepliesOk(cfg, names, me, idx, id, pe, who[..|who| - 1]); }
  }

  /** Learning a location (more keys in id2pe) keeps everything but the messages waiting for it. */
  lemma LearnPe(cfg: Config, names: map<Idx, Id>, l: Loc, id: Id, pe: Pe, ex: Option<Idx>)
    requires Sane(cfg, names, l, ex) && IdKnown(cfg, names, id) && pe < cfg.numPes
    ensures var id2pe := l.id2pe[id := pe];
      && IdsOk(cfg, names, l.idx2id, id2pe, ex) && PesOk(cfg, names, id2pe)
      && RecordsOk(cfg, names, l.hash, l.idx2id, id2pe, ex)
      && MsgsOk(cfg, l.me, l.held.msgs - {id}, id2pe)
    ensures CreatorOk(cfg, names, l.me, l.idCounter, l.id2pe) ==>
            CreatorOk(cfg, names, l.me, l.idCounter, l.id2pe[id := pe])
  {
  }

  lemma MsgsWithout(b: Buffer, id: Id)
    requires id !in b
    ensures b - {id} == b
  {
  }

  // ---------------------------------------------------------------- entry points

  lemma UnknownSane(cfg: Config, names: map<Idx, Id>, l: Loc, x: Parcel, id: Id, home: Pe)
    requires Sane(cfg, names, l, None) && CreatorOk(cfg, names, l.me, l.idCounter, l.id2pe)
    requires Addressed(cfg, names, x.msg, id) && IdKnown(cfg, names, id) && home < cfg.numPes
    requires id !in l.hash && id !in l.id2pe && id !in l.held.msgs
    ensures home != l.me ==> SaneEffect(cfg, names, DeliverUnknown(l, x, id, home))
  {
    hide IdsOk, PesOk, RecordsOk, IndexOk, RequestsOk, MsgsOk, BufferOk, CreatorOk, IdKnown, Addressed;
    LearnPe(cfg, names, l, id, home, None);
    MsgsWithout(l.held.msgs, id);
    if home != l.me {
      if x.msg.big {
        AddOk(cfg, names, l.held.remote, id, x);
      } else {
      }
    }
  }

  lemma UnknownAtHomeSane(cfg: Config, names: map<Idx, Id>, l: Loc, x: Parcel, id: Id)
    requires Sane(cfg, names, l, None) && CreatorOk(cfg, names, l.me, l.idCounter, l.id2pe)
    requires Addressed(cfg, names, x.msg, id) && id !in l.hash && id !in l.id2pe
    requires cfg.packed && cfg.home(cfg.unpack(id)) == l.me
    ensures SaneEffect(cfg, names, DeliverUnknown(l, x, id, l.me))
  {
    AddOk(cfg, names, l.held.msgs, id, x);
    assert MsgsOk(cfg, l.me, Add(l.held.msgs, id, x), l.id2pe);
    hide IdsOk, PesOk, RecordsOk, IndexOk, RequestsOk, MsgsOk, BufferOk, CreatorOk, IdKnown, Addressed, Add;
    if x.msg.mgr < l.managers {
    } else {
    }
  }

  lemma ShadowSane(cfg: Config, names: map<Idx, Id>, l: Loc, x: Parcel, id: Id)
    requires Sane(cfg, names, l, None) && Addressed(cfg, names, x.msg, id)
    ensures Sane(cfg, names, l.(held := l.held.(shadow := Add(l.held.shadow, id, x))), None)
  {
    hide IdsOk, PesOk, RecordsOk, IndexOk, RequestsOk, MsgsOk, BufferOk, CreatorOk, Addressed, Add;
    AddOk(cfg, names, l.held.shadow, id, x);
  }

  /** A message for an ID that nothing is known about has its home elsewhere, unless IDs are packed. */
  lemma UnknownHome(cfg: Config, names: map<Idx, Id>, l: Loc, m: Msg, id: Id, idx: Option<Idx>)
    requires ConfigOk(cfg) && NamesOk(cfg, names) && Addressed(cfg, names, m, id)
    requires Sane(cfg, names, l, None) && CreatorOk(cfg, names, l.me, l.idCounter, l.id2pe)
    requires idx.Some? ==> idx.value == m.idx && LookupId(cfg, l, idx.value) == Some(id)
    requires id !in l.id2pe
    ensures var home := HomeFor(cfg, id, idx);
      && home < cfg.numPes && (home == l.me ==> cfg.packed && cfg.home(cfg.unpack(id)) == l.me)
      && (home != l.me ==> id !in l.held.msgs)
    ensures IdKnown(cfg, names, id)
  {
  }

  lemma DeliverUnknownSane(cfg: Config, names: map<Idx, Id>, l: Loc, x: Parcel, id: Id, idx: Option<Idx>)
    requires ConfigOk(cfg) && NamesOk(cfg, names) && Addressed(cfg, names, x.msg, id)
    requires Sane(cfg, names, l, None) && CreatorOk(cfg, names, l.me, l.idCounter, l.id2pe)
    requires idx.Some? ==> idx.value == x.msg.idx && LookupId(cfg, l, idx.value) == Some(id)
    requires id !in l.hash && id !in l.id2pe
    ensures SaneEffect(cfg, names, DeliverUnknown(l, x, id, HomeFor(cfg, id, idx)))
  {
    hide Sane, CreatorOk, Addressed, HomeFor, ConfigOk, NamesOk, SaneEffect;
    UnknownHome(cfg, names, l, x.msg, id, idx);
    if HomeFor(cfg, id, idx) == l.me {
      UnknownAtHomeSane(cfg, names, l, x, id);
    } else {
      UnknownSane(cfg, names, l, x, id, HomeFor(cfg, id, idx));
    }
  }

  /** A forwarded, queued or answering mail on unchanged tables. */
  lemma MailSane(cfg: Config, names: map<Idx, Id>, l: Loc, out: seq<Mail>, ran: seq<Msg>)
    requires Sane(cfg, names, l, None) && CreatorOk(cfg, names, l.me, l.idCounter, l.id2pe)
    requires |out| <= 1 && (out != [] ==> MailOk(cfg, names, out[0]))
    ensures SaneEffect(cfg, names, Effect(l, out, ran))
  {
  }

  lemma SaneFacts(cfg: Config, names: map<Idx, Id>, l: Loc, id: Id, ex: Option<Idx>)
    requires Sane(cfg, names, l, ex)
    ensures l.me < cfg.numPes
    ensures id in l.id2pe ==> l.id2pe[id] < cfg.numPes && IdKnown(cfg, names, id)
    ensures id in l.hash ==> IdKnown(cfg, names, id)
  {
  }

  lemma DeliverSane(cfg: Config, names: map<Idx, Id>, l: Loc, x: Parcel, id: Id, idx: Option<Idx>, direct: bool)
    requires ConfigOk(cfg) && NamesOk(cfg, names) && Addressed(cfg, names, x.msg, id)
    requires Sane(cfg, names, l, None) && CreatorOk(cfg, names, l.me, l.idCounter, l.id2pe)
    requires idx.Some? ==> idx.value == x.msg.idx && LookupId(cfg, l, idx.value) == Some(id)
    ensures SaneEffect(cfg, names, DeliverMsg(cfg, l, x, id, idx, direct))
  {
    hide Sane, CreatorOk, HomeFor, ConfigOk, NamesOk, SaneEffect, IdKnown, DeliverUnknown, Named;
    SaneFacts(cfg, names, l, id, None);
    var e := DeliverMsg(cfg, l, x, id, idx, direct);
    if id !in l.hash {
      if id !in l.id2pe {
        DeliverUnknownSane(cfg, names, l, x, id, idx);
      } else {
        MailSane(cfg, names, l, e.out, []);
      }
    } else if !direct {
      MailSane(cfg, names, l, e.out, []);
    } else if x.msg.mgr >= l.managers || x.msg.mgr !in l.hash[id].elts {
      ShadowSane(cfg, names, l, x, id);
      MailSane(cfg, names, e.loc, [], []);
    } else {
      MailSane(cfg, names, l, e.out, e.ran);
    }
  }

  lemma SendSane(cfg: Config, names: map<Idx, Id>, l: Loc, m: Msg, direct: bool)
    requires ConfigOk(cfg) && NamesOk(cfg, names) && m.src < cfg.numPes
    requires Sane(cfg, names, l, None) && CreatorOk(cfg, names, l.me, l.idCounter, l.id2pe)
    ensures SaneEffect(cfg, names, SendMsg(cfg, l, m, direct))
  {
    match LookupId(cfg, l, m.idx)
    case Some(id) =>
      assert Addressed(cfg, names, m, id);
      hide Sane, CreatorOk, HomeFor, ConfigOk, NamesOk, SaneEffect, IdKnown, DeliverMsg, Named;
      DeliverSane(cfg, names, l, Parcel(m, 0), id, Some(m.idx), direct);
    case None =>
      var e := SendMsg(cfg, l, m, direct);
      assert IndexOk(cfg, e.loc.held.index, e.loc.idx2id, None);
      assert cfg.home(m.idx) < cfg.numPes;
      hide IdsOk, PesOk, RecordsOk, IndexOk, RequestsOk, MsgsOk, BufferOk, CreatorOk, IdKnown, Add;
      assert Sane(cfg, names, e.loc, None);
      MailSane(cfg, names, e.loc, e.out, []);
  }

  lemma InformIdSane(cfg: Config, names: map<Idx, Id>, l: Loc, id: Id, pe: Pe, ex: Option<Idx>)
    requires Sane(cfg, names, l, ex) && IdKnown(cfg, names, id) && pe < cfg.numPes
    ensures var e := InformId(l, id, pe); Sane(cfg, names, e.loc, ex) && AllMailOk(cfg, names, e.out)
    ensures CreatorOk(cfg, names, l.me, l.idCounter, l.id2pe) ==>
            CreatorOk(cfg, names, l.me, l.idCounter, InformId(l, id, pe).loc.id2pe)
  {
    var l1 := l.(id2pe := l.id2pe[id := pe]);
    assert BufferOk(cfg, names, l.held.msgs - {id});
    assert forall i :: 0 <= i < |At(l.held.msgs, id)| ==> Addressed(cfg, names, At(l.held.msgs, id)[i].msg, id);
    hide IdsOk, PesOk, RecordsOk, IndexOk, RequestsOk, MsgsOk, BufferOk, CreatorOk, IdKnown, Addressed, MailOk;
    LearnPe(cfg, names, l, id, pe, ex);
    ForwardOk(cfg, names, l1, id, At(l.held.msgs, id));
  }

  /** Registering an index's ID, with the index excepted until its arrival is handled. */
  lemma InsertSane(cfg: Config, names: map<Idx, Id>, l: Loc, idx: Idx, id: Id, ex: Option<Idx>)
    requires Sane(cfg, names, l, ex) && (ex == None || ex == Some(idx)) && Named(names, idx, id)
    ensures var l1 := InsertId(cfg, l, idx, id).(requests := l.requests - {idx}); Sane(cfg, names, l1, Some(idx))
    ensures Sane(cfg, names, InsertId(cfg, l, idx, id), Some(idx))
  {
  }

  /** The arrival of an index settles it: its tables agree again and nothing waits for it. */
  lemma SettleIndex(cfg: Config, names: map<Idx, Id>, l: Loc, idx: Idx, id: Id)
    requires Sane(cfg, names, l, Some(idx)) && Named(names, idx, id) && NamesOk(cfg, names)
    requires id in l.id2pe && (cfg.packed || idx in l.idx2id) && idx !in l.requests
    ensures Sane(cfg, names, l.(held := l.held.(index := l.held.index - {idx})), None)
  {
  }

  lemma AllMailConcat(cfg: Config, names: map<Idx, Id>, a: seq<Mail>, b: seq<Mail>)
    requires AllMailOk(cfg, names, a) && AllMailOk(cfg, names, b)
    ensures AllMailOk(cfg, names, a + b)
  {
  }

  lemma InformIdxSane(cfg: Config, names: map<Idx, Id>, l: Loc, idx: Idx, id: Id, pe: Pe, ex: Option<Idx>)
    requires NamesOk(cfg, names) && Sane(cfg, names, l, ex) && (ex == None || ex == Some(idx))
    requires Named(names, idx, id) && pe < cfg.numPes
    ensures var e := InformIdx(cfg, l, idx, id, pe);
      && Sane(cfg, names, e.loc, None) && AllMailOk(cfg, names, e.out)
      && e.loc.me == l.me && e.loc.idCounter == l.idCounter && e.loc.id2pe == l.id2pe[id := pe]
  {
    var who := if idx in l.requests then l.requests[idx] else [];
    var l1 := InsertId(cfg, l, idx, id).(requests := l.requests - {idx});
    InsertSane(cfg, names, l, idx, id, ex);
    assert IdKnown(cfg, names, id);
    assert forall i :: 0 <= i < |who| ==> who[i] < cfg.numPes;
    var waiting := At(l.held.index, idx);
    assert forall i :: 0 <= i < |waiting| ==> Addressed(cfg, names, waiting[i].msg, id);
    hide IdsOk, PesOk, RecordsOk, IndexOk, RequestsOk, MsgsOk, HeldOk, BufferOk, CreatorOk, IdKnown, Addressed, MailOk, AllMailOk, Sane, NamesOk;
    InformIdSane(cfg, names, l1, id, pe, Some(idx));
    var e := InformId(l1, id, pe);
    SettleIndex(cfg, names, e.loc, idx, id);
    RepliesOk(cfg, names, l.me, idx, id, pe, who);
    SaneFacts(cfg, names, e.loc, id, Some(idx));
    ForwardOk(cfg, names, e.loc, id, waiting);
    AllMailConcat(cfg, names, Replies(l.me, idx, id, pe, who), e.out);
    AllMailConcat(cfg, names, Replies(l.me, idx, id, pe, who) + e.out, Forward(e.loc, id, waiting));
  }

  lemma FlushRemoteSane(cfg: Config, names: map<Idx, Id>, e: Effect, id: Id)
    requires Settled(e.loc, id) && SaneEffect(cfg, names, e)
    ensures SaneEffect(cfg, names, FlushRemote(e, id))
  {
    assert BufferOk(cfg, names, e.loc.held.remote - {id});
    var xs := At(e.loc.held.remote, id);
    assert forall i :: 0 <= i < |xs| ==> Addressed(cfg, names, xs[i].msg, id);
    SaneFacts(cfg, names, e.loc, id, None);
    hide IdsOk, PesOk, RecordsOk, IndexOk, RequestsOk, MsgsOk, BufferOk, CreatorOk, IdKnown, Addressed, MailOk, AllMailOk;
    ForwardOk(cfg, names, e.loc, id, xs);
    AllMailConcat(cfg, names, e.out, Forward(e.loc, id, xs));
  }

  lemma CreatorLearns(cfg: Config, names: map<Idx, Id>, me: Pe, idCounter: nat, id2pe: map<Id, Pe>, id: Id, pe: Pe)
    requires CreatorOk(cfg, names, me, idCounter, id2pe)
    ensures CreatorOk(cfg, names, me, idCounter, id2pe[id := pe])
  {
  }

  lemma RecordSane(cfg: Config, names: map<Idx, Id>, l: Loc, idx: Idx, id: Id, elts: set<Mgr>, ex: Option<Idx>)
    requires Sane(cfg, names, l, ex) && (ex == None || ex == Some(idx)) && Named(names, idx, id)
    ensures Sane(cfg, names, l.(hash := l.hash[id := Rec(idx, elts)]), Some(idx))
  {
    assert RecordsOk(cfg, names, l.hash[id := Rec(idx, elts)], l.idx2id, l.id2pe, Some(idx));
    hide RecordsOk, PesOk, MsgsOk, HeldOk;
  }

  /** A new resident: everything agrees again, and the home hears if it should. */
  lemma CreateSane(cfg: Config, names: map<Idx, Id>, l: Loc, idx: Idx, id: Id, elts: set<Mgr>, notify: bool, ex: Option<Idx>)
    requires ConfigOk(cfg) && NamesOk(cfg, names) && Named(names, idx, id)
    requires Sane(cfg, names, l, ex) && (ex == None || ex == Some(idx))
    ensures var e := CreateLocal(cfg, l, idx, id, elts, notify);
      && Sane(cfg, names, e.loc, None) && AllMailOk(cfg, names, e.out)
      && e.loc.me == l.me && e.loc.idCounter == l.idCounter && e.loc.id2pe == l.id2pe[id := l.me]
  {
    SaneFacts(cfg, names, l, id, ex);
    assert cfg.home(idx) < cfg.numPes;
    hide Sane, NamesOk, ConfigOk, AllMailOk, Named, InformIdx;
    RecordSane(cfg, names, l, idx, id, elts, ex);
    var l1 := l.(hash := l.hash[id := Rec(idx, elts)]);
    InformIdxSane(cfg, names, l1, idx, id, l.me, Some(idx));
    var notice := if notify then HomeNotice(cfg.home(idx), l.me, idx, id, l.me) else [];
    NoticeOk(cfg, names, notice, cfg.home(idx), l.me, idx, id, l.me);
    AllMailConcat(cfg, names, InformIdx(cfg, l1, idx, id, l.me).out, notice);
  }

  lemma NoticeOk(cfg: Config, names: map<Idx, Id>, notice: seq<Mail>, home: Pe, me: Pe, idx: Idx, id: Id, nowOn: Pe)
    requires Named(names, idx, id) && home < cfg.numPes && nowOn < cfg.numPes
    requires notice == [] || notice == HomeNotice(home, me, idx, id, nowOn)
    ensures AllMailOk(cfg, names, notice)
  {
  }

  lemma EmigrateSane(cfg: Config, names: map<Idx, Id>, l: Loc, id: Id, to: Pe)
    requires ConfigOk(cfg) && NamesOk(cfg, names) && to < cfg.numPes && id in l.hash
    requires Sane(cfg, names, l, None) && CreatorOk(cfg, names, l.me, l.idCounter, l.id2pe)
    ensures SaneEffect(cfg, names, Emigrate(cfg, l, id, to))
  {
    if to == l.me {
      MailSane(cfg, names, l, [], []);
    } else {
      var rec := l.hash[id];
      var l1 := l.(hash := l.hash - {id});
      assert RecordsOk(cfg, names, l1.hash, l.idx2id, l.id2pe, None);
      assert Named(names, rec.idx, id) && cfg.home(rec.idx) < cfg.numPes;
      CreatorLearns(cfg, names, l.me, l.idCounter, l.id2pe, id, to);
      hide IdsOk, PesOk, RecordsOk, IndexOk, RequestsOk, MsgsOk, HeldOk, CreatorOk, NamesOk, ConfigOk, AllMailOk, InformIdx, Named;
      assert Sane(cfg, names, l1, None);
      InformIdxSane(cfg, names, l1, rec.idx, id, to, None);
      var e := InformIdx(cfg, l1, rec.idx, id, to);
      var notice := HomeNotice(cfg.home(rec.idx), l.me, rec.idx, id, to);
      NoticeOk(cfg, names, notice, cfg.home(rec.idx), l.me, rec.idx, id, to);
      var x := [Mail(to, Migrate(rec.idx, id, l.managers, rec.elts))];
      assert AllMailOk(cfg, names, x) by { OneMailOk(cfg, names, x[0]); }
      AllMailConcat(cfg, names, x, e.out);
      AllMailConcat(cfg, names, x + e.out, notice);
    }
  }

  lemma OneMailOk(cfg: Config, names: map<Idx, Id>, m: Mail)
    requires MailOk(cfg, names, m)
    ensures AllMailOk(cfg, names, [m])
  {
  }

  lemma RequestIdSane(cfg: Config, names: map<Idx, Id>, l: Loc, id: Id, pe: Pe)
    requires ConfigOk(cfg) && NamesOk(cfg, names) && IdKnown(cfg, names, id) && pe < cfg.numPes
    requires Sane(cfg, names, l, None) && CreatorOk(cfg, names, l.me, l.idCounter, l.id2pe)
    ensures SaneEffect(cfg, names, OnRequestId(cfg, l, id, pe))
  {
    SaneFacts(cfg, names, l, id, None);
    assert HomeOfId(cfg, id) < cfg.numPes;
    hide Sane, ConfigOk, NamesOk, CreatorOk, SaneEffect, HomeOfId, IdKnown;
    MailSane(cfg, names, l, OnRequestId(cfg, l, id, pe).out, []);
  }

  lemma RequestIdxSane(cfg: Config, names: map<Idx, Id>, l: Loc, idx: Idx, pe: Pe)
    requires ConfigOk(cfg) && !cfg.packed && cfg.home(idx) == l.me && pe < cfg.numPes
    requires Sane(cfg, names, l, None) && CreatorOk(cfg, names, l.me, l.idCounter, l.id2pe)
    ensures SaneEffect(cfg, names, OnRequestIdx(cfg, l, idx, pe))
  {
    var e := OnRequestIdx(cfg, l, idx, pe);
    if idx in l.idx2id {
      SaneFacts(cfg, names, l, l.idx2id[idx], None);
      assert Named(names, idx, l.idx2id[idx]);
      hide Sane, ConfigOk, CreatorOk, SaneEffect, Named;
      MailSane(cfg, names, l, e.out, []);
    } else {
      assert RequestsOk(cfg, l.me, e.loc.requests, l.idx2id, None);
      hide IdsOk, PesOk, RecordsOk, IndexOk, RequestsOk, MsgsOk, HeldOk, CreatorOk;
      MailSane(cfg, names, e.loc, [], []);
    }
  }

  /** Handling any correct packet keeps the tables sane and sends only correct mail. */
  lemma PacketSane(cfg: Config, names: map<Idx, Id>, l: Loc, p: Packet)
    requires ConfigOk(cfg) && NamesOk(cfg, names) && MailOk(cfg, names, Mail(l.me, p))
    requires Sane(cfg, names, l, None) && CreatorOk(cfg, names, l.me, l.idCounter, l.id2pe)
    requires OnPacket(cfg, l, p).Some?
    ensures SaneEffect(cfg, names, OnPacket(cfg, l, p).value)
  {
    hide Sane, CreatorOk, NamesOk, ConfigOk, AllMailOk, DeliverMsg, IdKnown, OnRequestIdx, OnRequestId, Addressed, CreateLocal;
    match p
    case Data(x, id) => DeliverSane(cfg, names, l, x, id, None, true);
    case RequestIdx(idx, pe) => RequestIdxSane(cfg, names, l, idx, pe);
    case RequestId(id, pe) => RequestIdSane(cfg, names, l, id, pe);
    case UpdateIdx(idx, id, pe) =>
      InformIdxSane(cfg, names, l, idx, id, pe, None);
      CreatorLearns(cfg, names, l.me, l.idCounter, l.id2pe, id, pe);
      FlushRemoteSane(cfg, names, InformIdx(cfg, l, idx, id, pe), id);
    case UpdateId(id, pe) =>
      InformIdSane(cfg, names, l, id, pe, None);
      FlushRemoteSane(cfg, names, InformId(l, id, pe), id);
    case Migrate(idx, id, n, elts) =>
      if n > l.managers {
        MailSane(cfg, names, l, [Mail(l.me, p)], []);
      } else {
        InsertSane(cfg, names, l, idx, id, None);
        CreateSane(cfg, names, InsertId(cfg, l, idx, id), idx, id, elts, false, Some(idx));
        CreatorLearns(cfg, names, l.me, l.idCounter, l.id2pe, id, l.me);
      }
  }

  // ---------------------------------------------------------------- creation

  /** The ID a new index gets is new. */
  lemma NewIdFresh(cfg: Config, names: map<Idx, Id>, l: Loc, idx: Idx)
    requires ConfigOk(cfg) && NamesOk(cfg, names) && idx !in names && l.idCounter < ID_BITS
    requires Sane(cfg, names, l, None) && CreatorOk(cfg, names, l.me, l.idCounter, l.id2pe)
    ensures var id := NewId(cfg, l, idx).1;
      id !in names.Values && id !in l.hash && NamesOk(cfg, names[idx := id])
    ensures !cfg.packed ==> NewId(cfg, l, idx).1 / ID_BITS == l.me && NewId(cfg, l, idx).1 % ID_BITS == l.idCounter
  {
    var id := NewId(cfg, l, idx).1;
    if !cfg.packed { assert id == l.idCounter + l.me * ID_BITS; }
    forall i | i in names
      ensures names[i] != id
    {
      assert names[i] in names.Values;
    }
  }

  lemma SaneMono(cfg: Config, names: map<Idx, Id>, l: Loc, idx: Idx, id: Id, ex: Option<Idx>)
    requires Sane(cfg, names, l, ex) && idx !in names
    ensures Sane(cfg, names[idx := id], l, ex)
  {
    var names' := names[idx := id];
    assert forall i, x :: Named(names, i, x) ==> Named(names', i, x);
    assert forall x :: IdKnown(cfg, names, x) ==> IdKnown(cfg, names', x) by { KnownMono(cfg, names, idx, id); }
    hide Named, IdKnown, RequestsOk, IndexOk, MsgsOk;
  }

  lemma KnownMono(cfg: Config, names: map<Idx, Id>, idx: Idx, id: Id)
    requires idx !in names
    ensures forall x :: IdKnown(cfg, names, x) ==> IdKnown(cfg, names[idx := id], x)
    ensures forall x :: x in names[idx := id].Values <==> x in names.Values || x == id
  {
    var names' := names[idx := id];
    forall x
      ensures x in names'.Values <==> x in names.Values || x == id
    {
      if x in names.Values {
        var i :| i in names && names[i] == x;
        assert names'[i] == x;
      }
      assert names'[idx] == id;
    }
  }

  lemma MailMono(cfg: Config, names: map<Idx, Id>, m: Mail, idx: Idx, id: Id)
    requires MailOk(cfg, names, m) && idx !in names
    ensures MailOk(cfg, names[idx := id], m)
  {
    KnownMono(cfg, names, idx, id);
    hide IdKnown;
  }

  lemma CreatorMono(cfg: Config, names: map<Idx, Id>, l: Loc, idx: Idx, id: Id)
    requires CreatorOk(cfg, names, l.me, l.idCounter, l.id2pe) && idx !in names
    requires !cfg.packed ==> id / ID_BITS != l.me
    ensures CreatorOk(cfg, names[idx := id], l.me, l.idCounter, l.id2pe)
  {
    KnownMono(cfg, names, idx, id);
  }

  lemma AddNewSane(cfg: Config, names: map<Idx, Id>, l: Loc, idx: Idx, mgr: Mgr)
    requires ConfigOk(cfg) && NamesOk(cfg, names) && idx !in names && l.idCounter < ID_BITS
    requires Sane(cfg, names, l, None) && CreatorOk(cfg, names, l.me, l.idCounter, l.id2pe)
    ensures var names' := names[idx := NewId(cfg, l, idx).1];
      AddElement(cfg, l, idx, mgr).Some? && SaneEffect(cfg, names', AddElement(cfg, l, idx, mgr).value)
  {
    var (l1, id) := NewId(cfg, l, idx);
    var names' := names[idx := id];
    NewIdFresh(cfg, names, l, idx);
    SaneMono(cfg, names, l, idx, id, None);
    InsertSane(cfg, names', l, idx, id, None);
    var ex := Some(idx);
    assert Sane(cfg, names', l1, ex) by {
      if !cfg.packed {
        assert idx !in l.idx2id;
        CounterSane(cfg, names', InsertId(cfg, l, idx, id), l1, ex);
      }
    }
    CreateSane(cfg, names', l1, idx, id, {mgr}, true, ex);
    NewCreator(cfg, names, l, idx);
  }

  lemma CounterSane(cfg: Config, names: map<Idx, Id>, l: Loc, l': Loc, ex: Option<Idx>)
    requires Sane(cfg, names, l, ex) && l' == l.(idCounter := l'.idCounter)
    ensures Sane(cfg, names, l', ex)
  {
    hide IdsOk, PesOk, RecordsOk, IndexOk, RequestsOk, MsgsOk, HeldOk;
  }

  lemma NewCreator(cfg: Config, names: map<Idx, Id>, l: Loc, idx: Idx)
    requires ConfigOk(cfg) && NamesOk(cfg, names) && idx !in names && l.idCounter < ID_BITS
    requires Sane(cfg, names, l, None) && CreatorOk(cfg, names, l.me, l.idCounter, l.id2pe)
    ensures var (l1, id) := NewId(cfg, l, idx);
      CreatorOk(cfg, names[idx := id], l1.me, l1.idCounter, l1.id2pe[id := l.me])
  {
    var (l1, id) := NewId(cfg, l, idx);
    NewIdFresh(cfg, names, l, idx);
    KnownMono(cfg, names, idx, id);
    hide Sane, NamesOk, ConfigOk;
    if !cfg.packed {
      forall x | x in names[idx := id].Values && x / ID_BITS == l.me
        ensures x in l1.id2pe[id := l.me] && x % ID_BITS < l1.idCounter
      {
        assert x in names.Values || x == id;
      }
    }
  }

  lemma BoundLookup(cfg: Config, names: map<Idx, Id>, l: Loc, idx: Idx)
    requires NamesOk(cfg, names) && idx in names && names[idx] in l.hash && Sane(cfg, names, l, None)
    ensures l.hash[names[idx]].idx == idx && NewId(cfg, l, idx) == (l, names[idx])
  {
    assert Named(names, l.hash[names[idx]].idx, names[idx]);
    hide IndexOk, RequestsOk, MsgsOk, HeldOk, PesOk;
  }

  lemma BoundRecord(cfg: Config, names: map<Idx, Id>, l: Loc, id: Id, elts: set<Mgr>)
    requires Sane(cfg, names, l, None) && id in l.hash
    ensures Sane(cfg, names, l.(hash := l.hash[id := l.hash[id].(elts := elts)]), None)
  {
    assert RecordsOk(cfg, names, l.hash[id := l.hash[id].(elts := elts)], l.idx2id, l.id2pe, None);
    hide IdsOk, PesOk, RecordsOk, IndexOk, RequestsOk, MsgsOk, HeldOk;
  }

  lemma ReleaseShadow(cfg: Config, names: map<Idx, Id>, l: Loc, id: Id)
    requires Sane(cfg, names, l, None) && id in l.hash
    ensures Sane(cfg, names, l.(held := l.held.(shadow := l.held.shadow - {id})), None)
    ensures AllMailOk(cfg, names, Forward(l, id, At(l.held.shadow, id)))
  {
    var xs := At(l.held.shadow, id);
    assert BufferOk(cfg, names, l.held.shadow - {id});
    assert forall i :: 0 <= i < |xs| ==> Addressed(cfg, names, xs[i].msg, id);
    SaneFacts(cfg, names, l, id, None);
    hide IdsOk, PesOk, RecordsOk, IndexOk, RequestsOk, MsgsOk, BufferOk, Addressed, AllMailOk;
    ForwardOk(cfg, names, l, id, xs);
  }

  lemma AddBoundSane(cfg: Config, names: map<Idx, Id>, l: Loc, idx: Idx, mgr: Mgr)
    requires ConfigOk(cfg) && NamesOk(cfg, names) && idx in names && names[idx] in l.hash
    requires Sane(cfg, names, l, None) && CreatorOk(cfg, names, l.me, l.idCounter, l.id2pe)
    requires AddElement(cfg, l, idx, mgr).Some?
    ensures NewId(cfg, l, idx).1 == names[idx] && SaneEffect(cfg, names, AddElement(cfg, l, idx, mgr).value)
  {
    hide Sane, CreatorOk, NamesOk, ConfigOk, AllMailOk;
    var id := names[idx];
    BoundLookup(cfg, names, l, idx);
    ReleaseShadow(cfg, names, l, id);
    BoundRecord(cfg, names, l.(held := l.held.(shadow := l.held.shadow - {id})), id, l.hash[id].elts + {mgr});
  }
}
