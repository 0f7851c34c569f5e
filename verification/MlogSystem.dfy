/** Causal message logging across processors.

    Channels are FIFO; each object stays on one processor for the whole checkpoint
    phase.  A step delivers a message to an object, sends a logged message, delivers a
    packet, starts a new phase, or makes a processor fail and restart from its checkpoint.
 */
module MlogSystem {
  import opened Tickets
  import opened Determinants

  datatype Pe = Pe(win: Window, remote: map<ObjId, seq<Det>>)

  /** net[p][q] is the channel from p to q, oldest first.  `saved` is the checkpoint.  `failed`
      is the failed processor, or -1; `replies` are the answers to its requests.  `heard[p]` is
      a history: the longest log of p that a delivered message of p depends on. */
  datatype Sys = Sys(pes: seq<Pe>, net: seq<seq<seq<Packet>>>, place: map<ObjId, nat>,
                     chares: map<ObjId, Chare>, saved: map<ObjId, Chare>,
                     failed: int, replies: map<nat, map<ObjId, seq<Det>>>, heard: seq<nat>)

  datatype Event =
    | Receive(env: Env)
    | Send(src: nat, dst: nat)
    | Deliver(src: nat, dst: nat)
    | Collect
    | Fail(pe: nat, kept: seq<nat>)

  ghost predicate Shape(s: Sys) {
    && |s.net| == |s.heard| == |s.pes|
    && (forall p :: 0 <= p < |s.pes| ==> |s.net[p]| == |s.pes|)
    && s.chares.Keys == s.saved.Keys == s.place.Keys
    && (forall o :: o in s.place ==> s.place[o] < |s.pes|)
    && s.failed < |s.pes|
  }

  function Push(net: seq<seq<seq<Packet>>>, p: nat, q: nat, more: seq<Packet>): (net': seq<seq<seq<Packet>>>)
    requires p < |net| && q < |net[p]|
  {
    net[p := net[p][q := net[p][q] + more]]
  }

  function Pop(net: seq<seq<seq<Packet>>>, p: nat, q: nat): (net': seq<seq<seq<Packet>>>)
    requires p < |net| && q < |net[p]| && net[p][q] != []
  {
    net[p := net[p][q := net[p][q][1..]]]
  }

  function Max(a: nat, b: nat): nat { if a > b then a else b }

  ghost predicate Quiet(s: Sys) {
    && (forall p, q, j :: 0 <= p < |s.net| && 0 <= q < |s.net[p]| && 0 <= j < |s.net[p][q]| ==>
          s.net[p][q][j].Ack?)
    && (forall o :: o in s.chares ==> s.chares[o].tCount == s.chares[o].tProcessed)
  }

  ghost predicate Enabled(s: Sys, e: Event)
    requires Shape(s)
  {
    match e
    case Receive(env) => env.receiver in s.chares && env.sn > 0 && s.place[env.receiver] != s.failed
                         && Filter(s.chares[env.receiver], env).Done?
    case Send(p, q) => p < |s.pes| && q < |s.pes| && p != q && p != s.failed && WindowOk(s.pes[p].win)
    case Deliver(p, q) => p < |s.pes| && q < |s.pes| && p != q && q != s.failed && s.net[p][q] != []
    case Collect => s.failed == -1 && Quiet(s)
    case Fail(p, kept) => s.failed == -1 && p < |s.pes| && |kept| == |s.pes|
                          && forall q :: 0 <= q < |s.pes| ==> kept[q] <= |s.net[p][q]|
  }

  function After(t: Ticketed): Chare {
    if t.verdict == Execute then Finish(t.chare) else t.chare
  }

  function OnReceive(s: Sys, env: Env): Sys
    requires Shape(s) && env.receiver in s.chares && Filter(s.chares[env.receiver], env).Done?
  {
    var o := env.receiver;
    var p := s.place[o];
    var t := Filter(s.chares[o], env).value;
    var s' := s.(chares := s.chares[o := After(t)]);
    if t.isNew then
      s'.(pes := s.pes[p := s.pes[p].(win := AddDet(s.pes[p].win, Det(env.sender, o, env.sn, t.tn)))])
    else s'
  }

  /** The determinants a survivor returns for one object: those past the checkpoint. */
  function Select(dets: seq<Det>, tProcessed: nat): seq<Det> {
    if dets == [] then []
    else
      var front := Select(dets[..|dets| - 1], tProcessed);
      if dets[|dets| - 1].tn > tProcessed then front + [dets[|dets| - 1]] else front
  }

  /** Those past the checkpoint and no others, in order: `at` are their positions. */
  lemma {:induction false} SelectIs(dets: seq<Det>, tProcessed: nat) returns (at: seq<nat>)
    ensures |at| == |Select(dets, tProcessed)|
    ensures forall i :: 0 <= i < |at| ==> at[i] < |dets| && Select(dets, tProcessed)[i] == dets[at[i]]
    ensures forall i, j :: 0 <= i < j < |at| ==> at[i] < at[j]
    ensures forall k :: 0 <= k < |dets| ==> (k in at <==> dets[k].tn > tProcessed)
  {
    at := [];
    if dets != [] {
      var n := |dets| - 1;
      at := SelectIs(dets[..n], tProcessed);
      if dets[n].tn > tProcessed { at := at + [n]; }
    }
  }

  function Reply(s: Sys, p: nat, q: nat): map<ObjId, seq<Det>>
    requires Shape(s) && p < |s.pes| && q < |s.pes|
  {
    map o | o in s.place && s.place[o] == p :: Select(At(s.pes[q].remote, o), s.saved[o].tProcessed)
  }

  /** The handler of the packet at the head of the channel from p to q. */
  function OnDeliver(s: Sys, p: nat, q: nat): Outcome<Sys>
    requires Shape(s) && p < |s.pes| && q < |s.pes| && p != q && s.net[p][q] != []
  {
    var s' := s.(net := Pop(s.net, p, q));
    match s.net[p][q][0]
    case Store(phase, index, dets) =>
      Done(s'.(pes := s.pes[q := s.pes[q].(remote := StoreAll(s.pes[q].remote, dets))],
               net := Push(s'.net, q, p, [Ack(phase, index)])))
    case Ack(phase, index) =>
      (match OnAck(s.pes[q].win, phase, index)
       case Abort => Abort
       case Done(win) => Done(s'.(pes := s.pes[q := s.pes[q].(win := win)])))
    case App(index) => Done(s'.(heard := s.heard[p := Max(s.heard[p], index)]))
    case Request => Done(s'.(replies := s.replies[q := Reply(s, p, q)]))
  }

  function OnCollect(s: Sys): Sys {
    s.(pes := seq(|s.pes|, p requires 0 <= p < |s.pes| => Pe(Window([], 0, s.pes[p].win.phase + 1), map[])),
       saved := s.chares, heard := seq(|s.heard|, _ => 0))
  }

  /** The failed processor loses what it kept for others, and any tail of what it had sent;
      once restarted it asks every other processor for its determinants. */
  function OnFail(s: Sys, p: nat, kept: seq<nat>): Sys
    requires Shape(s) && p < |s.pes| && |kept| == |s.pes|
    requires forall q :: 0 <= q < |s.pes| ==> kept[q] <= |s.net[p][q]|
  {
    s.(failed := p, replies := map[], pes := s.pes[p := s.pes[p].(remote := map[])],
       net := s.net[p := seq(|s.pes|, q requires 0 <= q < |s.pes| => s.net[p][q][..kept[q]] + [Request])])
  }

  /** A failure loses what the processor kept for others, and nothing that others keep; each channel
      from it ends, after a prefix of what was on it, with the request. */
  lemma FailLoses(s: Sys, p: nat, kept: seq<nat>, q: nat, r: nat)
    requires Shape(s) && p < |s.pes| && |kept| == |s.pes| && q < |s.pes| && r < |s.pes|
    requires forall q :: 0 <= q < |s.pes| ==> kept[q] <= |s.net[p][q]|
    ensures var s' := OnFail(s, p, kept);
      && |s'.pes| == |s'.net| == |s.pes| && |s'.net[q]| == |s.pes|
      && (forall o :: At(s'.pes[q].remote, o) == if q == p then [] else At(s.pes[q].remote, o))
      && s'.net[q][r] == if q == p then s.net[p][r][..kept[r]] + [Request] else s.net[q][r]
  {
  }

  function Step(s: Sys, e: Event): Outcome<Sys>
    requires Shape(s) && Enabled(s, e)
  {
    match e
    case Receive(env) => Done(OnReceive(s, env))
    case Send(p, q) => Done(s.(net := Push(s.net, p, q, SendPackets(s.pes[p].win))))
    case Deliver(p, q) => OnDeliver(s, p, q)
    case Collect => Done(OnCollect(s))
    case Fail(p, kept) => Done(OnFail(s, p, kept))
  }
}
