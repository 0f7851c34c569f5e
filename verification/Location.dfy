/** One processor's location manager for an array of migratable elements: where it thinks
    elements live, which it holds, and the messages it holds back.  The functions give the
    effect of each entry point; LocationMgr.dfy implements them on mutable tables.
 */
module Location {
  import opened Options

  type Pe = nat
  type Idx = nat
  type Id = nat
  type Mgr = nat

  /** `uid` makes messages distinct; `big` is whether the size reaches the buffering threshold. */
  datatype Msg = Msg(uid: nat, src: Pe, idx: Idx, mgr: Mgr, big: bool)

  datatype Parcel = Parcel(msg: Msg, hops: nat)

  datatype Packet =
    | Data(parcel: Parcel, id: Id)
    | RequestIdx(idx: Idx, pe: Pe)
    | RequestId(id: Id, pe: Pe)
    | UpdateIdx(idx: Idx, id: Id, pe: Pe)
    | UpdateId(id: Id, pe: Pe)
    | Migrate(idx: Idx, id: Id, nManagers: nat, elts: set<Mgr>)

  datatype Mail = Mail(to: Pe, packet: Packet)

  /** The record of a resident element: its index, and which bound arrays have an element there. */
  datatype Rec = Rec(idx: Idx, elts: set<Mgr>)

  type Buffer = map<nat, seq<Parcel>>

  /** Messages held back: at home for an unknown ID, for a location asked for, for an element
      not yet created here, for an index without an ID. */
  datatype Held = Held(msgs: Buffer, remote: Buffer, shadow: Buffer, index: Buffer)

  /** `managers` counts the array managers registered so far; they register in one order. */
  datatype Loc = Loc(me: Pe, managers: nat, idx2id: map<Idx, Id>, id2pe: map<Id, Pe>, hash: map<Id, Rec>,
                     held: Held, requests: map<Idx, seq<Pe>>, idCounter: nat)

  /** `home` is the array map.  With a compressor (`packed`) an index has a fixed ID, `pack`. */
  datatype Config = Config(numPes: nat, packed: bool, home: Idx -> Pe, pack: Idx -> Id, unpack: Id -> Idx)

  datatype Effect = Effect(loc: Loc, out: seq<Mail>, ran: seq<Msg>)

  const ID_BITS := 0x100_0000

  function HomeOfId(cfg: Config, id: Id): Pe {
    if cfg.packed then cfg.home(cfg.unpack(id)) else id / ID_BITS
  }

  function LookupId(cfg: Config, l: Loc, idx: Idx): Option<Id> {
    if cfg.packed then Some(cfg.pack(idx))
    else if idx in l.idx2id then Some(l.idx2id[idx]) else None
  }

  function InsertId(cfg: Config, l: Loc, idx: Idx, id: Id): Loc {
    if cfg.packed then l else l.(idx2id := l.idx2id[idx := id])
  }

  function At(b: Buffer, k: nat): seq<Parcel> {
    if k in b then b[k] else []
  }

  function Add(b: Buffer, k: nat, x: Parcel): Buffer {
    b[k := At(b, k) + [x]]
  }

  function Hop(x: Parcel): Parcel { x.(hops := x.hops + 1) }

  // ---------------------------------------------------------------- messages

  function HomeFor(cfg: Config, id: Id, idx: Option<Idx>): Pe {
    if idx.Some? then cfg.home(idx.value) else HomeOfId(cfg, id)
  }

  /** deliverUnknown: the ID is neither resident nor known to live anywhere. */
  function DeliverUnknown(l: Loc, x: Parcel, id: Id, home: Pe): Effect {
    if home != l.me then
      var l' := l.(id2pe := l.id2pe[id := home]);
      if !x.msg.big then Effect(l', [Mail(home, Data(Hop(x), id))], [])
      else Effect(l'.(held := l.held.(remote := Add(l.held.remote, id, x))),
                  if id in l.held.remote then [] else [Mail(home, RequestId(id, l.me))], [])
    else if x.msg.mgr >= l.managers then Effect(l, [Mail(l.me, Data(x, id))], [])
    else Effect(l.(held := l.held.(msgs := Add(l.held.msgs, id, x))), [], [])
  }

  /** deliverMsg: forward, queue, hold back, or execute. */
  function DeliverMsg(cfg: Config, l: Loc, x: Parcel, id: Id, idx: Option<Idx>, direct: bool): Effect {
    if id !in l.hash then
      if id in l.id2pe then Effect(l, [Mail(l.id2pe[id], Data(Hop(x), id))], [])
      else DeliverUnknown(l, x, id, HomeFor(cfg, id, idx))
    else if !direct then Effect(l, [Mail(l.me, Data(x, id))], [])
    else if x.msg.mgr >= l.managers || x.msg.mgr !in l.hash[id].elts then
      Effect(l.(held := l.held.(shadow := Add(l.held.shadow, id, x))), [], [])
    else Effect(l, if x.hops > 1 && x.msg.src != l.me then [Mail(x.msg.src, UpdateId(id, l.me))] else [], [x.msg])
  }

  /** sendMsg: a message addressed by index. */
  function SendMsg(cfg: Config, l: Loc, m: Msg, direct: bool): Effect {
    match LookupId(cfg, l, m.idx)
    case Some(id) => DeliverMsg(cfg, l, Parcel(m, 0), id, Some(m.idx), direct)
    case None =>
      var home := cfg.home(m.idx);
      Effect(l.(held := l.held.(index := Add(l.held.index, m.idx, Parcel(m, 0)))),
             if home != l.me && m.idx !in l.held.index then [Mail(home, RequestIdx(m.idx, l.me))] else [], [])
  }

  // ---------------------------------------------------------------- locations

  predicate Settled(l: Loc, id: Id) {
    id in l.hash || id in l.id2pe
  }

  function ForwardOne(l: Loc, id: Id, x: Parcel): Mail
    requires Settled(l, id)
  {
    if id in l.hash then Mail(l.me, Data(x, id)) else Mail(l.id2pe[id], Data(Hop(x), id))
  }

  /** Buffered messages on their way, once the location is known. */
  function Forward(l: Loc, id: Id, xs: seq<Parcel>): seq<Mail>
    requires Settled(l, id)
  {
    if xs == [] then [] else Forward(l, id, xs[..|xs| - 1]) + [ForwardOne(l, id, xs[|xs| - 1])]
  }

  function Replies(me: Pe, idx: Idx, id: Id, pe: Pe, who: seq<Pe>): seq<Mail> {
    if who == [] then []
    else
      Replies(me, idx, id, pe, who[..|who| - 1]) +
      if who[|who| - 1] != me then [Mail(who[|who| - 1], UpdateIdx(idx, id, pe))] else []
  }

  /** inform by ID: learn a location and release what waited for it. */
  function InformId(l: Loc, id: Id, pe: Pe): Effect {
    var l' := l.(id2pe := l.id2pe[id := pe]);
    Effect(l'.(held := l.held.(msgs := l.held.msgs - {id})), Forward(l', id, At(l.held.msgs, id)), [])
  }

  /** inform by index: as above, and answer requests and release messages held by index. */
  function InformIdx(cfg: Config, l: Loc, idx: Idx, id: Id, pe: Pe): Effect {
    var l1 := InsertId(cfg, l, idx, id);
    var who := if idx in l.requests then l.requests[idx] else [];
    var e := InformId(l1.(requests := l.requests - {idx}), id, pe);
    Effect(e.loc.(held := e.loc.held.(index := l.held.index - {idx})),
           Replies(l.me, idx, id, pe, who) + e.out + Forward(e.loc, id, At(l.held.index, idx)), [])
  }

  function FlushRemote(e: Effect, id: Id): Effect
    requires Settled(e.loc, id)
  {
    Effect(e.loc.(held := e.loc.held.(remote := e.loc.held.remote - {id})),
           e.out + Forward(e.loc, id, At(e.loc.held.remote, id)), e.ran)
  }

  function LastKnown(cfg: Config, l: Loc, id: Id, home: Pe): Pe {
    if id in l.id2pe then l.id2pe[id] else home
  }

  function OnRequestIdx(cfg: Config, l: Loc, idx: Idx, pe: Pe): Effect {
    if pe == l.me then Effect(l, [], [])
    else
      match LookupId(cfg, l, idx)
      case Some(id) => Effect(l, [Mail(pe, UpdateIdx(idx, id, LastKnown(cfg, l, id, cfg.home(idx))))], [])
      case None =>
        var who := if idx in l.requests then l.requests[idx] else [];
        Effect(l.(requests := l.requests[idx := who + [pe]]), [], [])
  }

  function OnRequestId(cfg: Config, l: Loc, id: Id, pe: Pe): Effect {
    if pe == l.me then Effect(l, [], [])
    else Effect(l, [Mail(pe, UpdateId(id, LastKnown(cfg, l, id, HomeOfId(cfg, id))))], [])
  }

  // ---------------------------------------------------------------- elements

  function NewId(cfg: Config, l: Loc, idx: Idx): (Loc, Id) {
    match LookupId(cfg, l, idx)
    case Some(id) => (l, id)
    case None =>
      var id := l.idCounter + l.me * ID_BITS;
      (InsertId(cfg, l.(idCounter := l.idCounter + 1), idx, id), id)
  }

  /** informHome, for an index whose ID is known here. */
  function HomeNotice(home: Pe, me: Pe, idx: Idx, id: Id, nowOn: Pe): seq<Mail> {
    if home != me && home != nowOn then [Mail(home, UpdateIdx(idx, id, nowOn))] else []
  }

  function CreateLocal(cfg: Config, l: Loc, idx: Idx, id: Id, elts: set<Mgr>, notify: bool): Effect {
    var e := InformIdx(cfg, l.(hash := l.hash[id := Rec(idx, elts)]), idx, id, l.me);
    Effect(e.loc, e.out + if notify then HomeNotice(cfg.home(idx), l.me, idx, id, l.me) else [], [])
  }

  /** addElement: None if the array already has an element at this index. */
  function AddElement(cfg: Config, l: Loc, idx: Idx, mgr: Mgr): Option<Effect> {
    var (l1, id) := NewId(cfg, l, idx);
    if id !in l1.hash then Some(CreateLocal(cfg, l1, idx, id, {mgr}, true))
    else if mgr in l1.hash[id].elts then None
    else
      var l2 := l1.(held := l1.held.(shadow := l1.held.shadow - {id}),
                    hash := l1.hash[id := l1.hash[id].(elts := l1.hash[id].elts + {mgr})]);
      Some(Effect(l2, Forward(l1, id, At(l1.held.shadow, id)), []))
  }

  function Emigrate(cfg: Config, l: Loc, id: Id, to: Pe): Effect
    requires id in l.hash
  {
    if to == l.me then Effect(l, [], [])
    else
      var rec := l.hash[id];
      var e := InformIdx(cfg, l.(hash := l.hash - {id}), rec.idx, id, to);
      Effect(e.loc, [Mail(to, Migrate(rec.idx, id, l.managers, rec.elts))] + e.out + HomeNotice(cfg.home(rec.idx), l.me, rec.idx, id, to), [])
  }

  /** immigrate: None if the sender had fewer managers; bounced to self while it had more. */
  function Immigrate(cfg: Config, l: Loc, m: Packet): Option<Effect>
    requires m.Migrate?
  {
    if m.nManagers < l.managers then None
    else if m.nManagers > l.managers then Some(Effect(l, [Mail(l.me, m)], []))
    else Some(CreateLocal(cfg, InsertId(cfg, l, m.idx, m.id), m.idx, m.id, m.elts, false))
  }

  function OnUpdateIdx(cfg: Config, l: Loc, idx: Idx, id: Id, pe: Pe): Effect {
    FlushRemote(InformIdx(cfg, l, idx, id, pe), id)
  }

  function OnUpdateId(l: Loc, id: Id, pe: Pe): Effect {
    FlushRemote(InformId(l, id, pe), id)
  }

  /** The handler of an arriving packet. */
  function OnPacket(cfg: Config, l: Loc, p: Packet): Option<Effect> {
    match p
    case Data(x, id) => Some(DeliverMsg(cfg, l, x, id, None, true))
    case RequestIdx(idx, pe) => Some(OnRequestIdx(cfg, l, idx, pe))
    case RequestId(id, pe) => Some(OnRequestId(cfg, l, id, pe))
    case UpdateIdx(idx, id, pe) => Some(OnUpdateIdx(cfg, l, idx, id, pe))
    case UpdateId(id, pe) => Some(OnUpdateId(l, id, pe))
    case Migrate(_, _, _, _) => Immigrate(cfg, l, p)
  }
}
