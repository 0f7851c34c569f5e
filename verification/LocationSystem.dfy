/** All location managers of an array together, with the mail under way between them.
    Mail arrives in any order.  Elements are created once each and migrate at will.
 */
module LocationSystem {
  import opened Seqs
  import opened Options
  import opened Location
  import opened LocationConserve

  /** `sent`, `ran` and `names` are histories: messages sent, messages executed, and the ID of
      each index created. */
  datatype Sys = Sys(locs: seq<Loc>, net: seq<Mail>, sent: set<Msg>, ran: seq<Msg>, names: map<Idx, Id>)

  datatype Event =
    | Send(pe: Pe, msg: Msg, direct: bool)
    | Deliver(i: nat)
    | Create(pe: Pe, idx: Idx, mgr: Mgr)
    | Move(pe: Pe, id: Id, to: Pe)
    | Register(pe: Pe)

  ghost predicate ConfigOk(cfg: Config) {
    && (forall idx :: cfg.home(idx) < cfg.numPes)
    && (cfg.packed ==> forall idx :: cfg.unpack(cfg.pack(idx)) == idx)
  }

  /** What the environment may do: send new messages, create an index once (or add an element of
      a further bound array where the index lives), move a resident element, register a manager.
      IDs have 24 bits for the creator's counter. */
  ghost predicate Enabled(cfg: Config, s: Sys, e: Event) {
    match e
    case Send(p, m, _) => p < |s.locs| && m !in s.sent && m.src == p
    case Deliver(i) => i < |s.net| && s.net[i].to < |s.locs| && OnPacket(cfg, s.locs[s.net[i].to], s.net[i].packet).Some?
    case Create(p, idx, mgr) =>
      && p < |s.locs| && mgr < s.locs[p].managers && s.locs[p].idCounter < ID_BITS
      && (idx !in s.names || s.names[idx] in s.locs[p].hash)
      && AddElement(cfg, s.locs[p], idx, mgr).Some?
    case Move(p, id, to) => p < |s.locs| && id in s.locs[p].hash && to < |s.locs|
    case Register(p) => p < |s.locs|
  }

  function Actor(s: Sys, e: Event): Pe {
    match e
    case Deliver(i) => if i < |s.net| then s.net[i].to else 0
    case Send(p, _, _) => p
    case Create(p, _, _) => p
    case Move(p, _, _) => p
    case Register(p) => p
  }

  /** What the event does to its processor. */
  ghost function Act(cfg: Config, s: Sys, e: Event): Effect
    requires Enabled(cfg, s, e)
  {
    var l := s.locs[Actor(s, e)];
    match e
    case Send(_, m, direct) => SendMsg(cfg, l, m, direct)
    case Deliver(i) => OnPacket(cfg, l, s.net[i].packet).value
    case Create(_, idx, mgr) => AddElement(cfg, l, idx, mgr).value
    case Move(_, id, to) => Emigrate(cfg, l, id, to)
    case Register(_) => Effect(l.(managers := l.managers + 1), [], [])
  }

  ghost function Step(cfg: Config, s: Sys, e: Event): Sys
    requires Enabled(cfg, s, e)
  {
    var eff := Act(cfg, s, e);
    var rest := if e.Deliver? then Drop(s.net, e.i) else s.net;
    Sys(s.locs[Actor(s, e) := eff.loc], rest + eff.out,
        if e.Send? then s.sent + {e.msg} else s.sent, s.ran + eff.ran,
        if e.Create? then s.names[e.idx := NewId(cfg, s.locs[e.pe], e.idx).1] else s.names)
  }

  /** A step changes its own processor, and adds its mail. */
  lemma StepParts(cfg: Config, s: Sys, e: Event)
    requires Enabled(cfg, s, e)
    ensures var s' := Step(cfg, s, e);
      && Actor(s, e) < |s.locs| && s'.locs == s.locs[Actor(s, e) := Act(cfg, s, e).loc]
      && forall m :: m in s'.net ==> m in s.net || m in Act(cfg, s, e).out
  {
    hide Act, OnPacket, AddElement, NewId;
  }

  // ---------------------------------------------------------------- counting over the system

  ghost function SumHas(locs: seq<Loc>, k: Probe): nat {
    if locs == [] then 0 else SumHas(locs[..|locs| - 1], k) + Has(locs[|locs| - 1], k)
  }

  ghost function Count(s: Sys, k: Probe): nat {
    SumHas(s.locs, k) + MailBag(s.net, k) + Ran(s.ran, k)
  }

  /** Each message sent is in exactly one place: one buffer slot, one packet, or executed.  Each
      element is in exactly one processor's records or in one migrating packet. */
  ghost function Expected(s: Sys, k: Probe): nat {
    match k
    case OfMsg(m) => if m in s.sent then 1 else 0
    case OfId(id) => if id in s.names.Values then 1 else 0
  }

  ghost predicate Conserved(s: Sys) {
    forall k :: Count(s, k) == Expected(s, k)
  }

  lemma {:induction false} SumUpdate(locs: seq<Loc>, p: nat, l: Loc, k: Probe)
    requires p < |locs|
    ensures SumHas(locs[p := l], k) + Has(locs[p], k) == SumHas(locs, k) + Has(l, k)
  {
    var n := |locs| - 1;
    hide Has;
    if p == n {
      assert locs[p := l][..n] == locs[..n];
    } else {
      SumUpdate(locs[..n], p, l, k);
      assert locs[p := l][..n] == locs[..n][p := l];
    }
  }

  lemma {:induction false} SumAtLeast(locs: seq<Loc>, p: nat, k: Probe)
    requires p < |locs|
    ensures Has(locs[p], k) <= SumHas(locs, k)
  {
    hide Has;
    if p < |locs| - 1 { SumAtLeast(locs[..|locs| - 1], p, k); }
  }

  lemma TakeMail(net: seq<Mail>, i: nat, k: Probe)
    requires i < |net|
    ensures MailBag(net, k) == MailBag(Drop(net, i), k) + Inside(net[i].packet, k)
  {
    hide MailBag, Inside;
    assert net == net[..i] + [net[i]] + net[i + 1..];
    MailConcat(net[..i] + [net[i]], net[i + 1..], k);
    MailConcat(net[..i], [net[i]], k);
    MailOne(net[i], k);
    MailConcat(net[..i], net[i + 1..], k);
  }

  lemma {:induction false} RanConcat(a: seq<Msg>, b: seq<Msg>, k: Probe)
    ensures Ran(a + b, k) == Ran(a, k) + Ran(b, k)
    decreases |b|
  {
    if b == [] {
      assert a + b == a;
    } else {
      RanConcat(a, b[..|b| - 1], k);
      assert (a + b)[..|a + b| - 1] == a + b[..|b| - 1];
    }
  }

  /** What an event brings in from outside. */
  ghost function Gain(cfg: Config, s: Sys, e: Event, k: Probe): nat
    requires Enabled(cfg, s, e)
  {
    match e
    case Send(_, m, _) => One(m, k)
    case Create(p, idx, _) => var id := NewId(cfg, s.locs[p], idx).1; if id in s.locs[p].hash then 0 else Here(id, k)
    case _ => 0
  }

  /** A migrating element is resident nowhere. */
  lemma MigrantNotHere(s: Sys, i: nat, p: Pe)
    requires Conserved(s) && i < |s.net| && s.net[i].packet.Migrate? && p < |s.locs|
    ensures s.net[i].packet.id !in s.locs[p].hash
  {
    var k := OfId(s.net[i].packet.id);
    TakeMail(s.net, i, k);
    SumAtLeast(s.locs, p, k);
    assert Count(s, k) == Expected(s, k) <= 1;
  }

  lemma ActBalanced(cfg: Config, s: Sys, e: Event, k: Probe)
    requires Conserved(s) && Enabled(cfg, s, e)
    ensures Balanced(s.locs[Actor(s, e)],
                     Gain(cfg, s, e, k) + if e.Deliver? then Inside(s.net[e.i].packet, k) else 0, Act(cfg, s, e), k)
  {
    hide Conserved, SendMsg, AddElement, Emigrate, OnPacket, Inside, Flat;
    var l := s.locs[Actor(s, e)];
    match e
    case Send(_, m, direct) => SendBalanced(cfg, l, m, direct, k);
    case Deliver(i) =>
      if s.net[i].packet.Migrate? { MigrantNotHere(s, i, s.net[i].to); }
      PacketBalanced(cfg, l, s.net[i].packet, k);
    case Create(_, idx, mgr) => AddElementBalanced(cfg, l, idx, mgr, k);
    case Move(_, id, to) => EmigrateBalanced(cfg, l, id, to, k);
    case Register(_) =>
  }

  lemma StepCounts(cfg: Config, s: Sys, e: Event, k: Probe)
    requires Conserved(s) && Enabled(cfg, s, e)
    ensures Count(Step(cfg, s, e), k) == Count(s, k) + Gain(cfg, s, e, k)
  {
    hide Has, Flat, MailBag, Inside, Ran, Gain, Act, SumHas;
    ActBalanced(cfg, s, e, k);
    var eff := Act(cfg, s, e);
    SumUpdate(s.locs, Actor(s, e), eff.loc, k);
    RanConcat(s.ran, eff.ran, k);
    if e.Deliver? {
      TakeMail(s.net, e.i, k);
      MailConcat(Drop(s.net, e.i), eff.out, k);
    } else {
      MailConcat(s.net, eff.out, k);
    }
  }
}
