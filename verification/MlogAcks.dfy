/** Acknowledgements over whole runs: what a processor sends again is exactly its log from the last
    acknowledgement on, and every store is acknowledged once, in order, with its own index.
 */
module MlogAcks {
  import opened Tickets
  import opened Determinants
  import opened MlogSystem
  import opened MlogWatermark
  import opened MlogRecovery

  /** A run with its events. */
  ghost predicate Trace(states: seq<Sys>, events: seq<Event>) {
    && |states| == |events| + 1 && Init(states[0])
    && forall k :: 0 <= k < |events| ==> Shape(states[k]) && Enabled(states[k], events[k]) && Step(states[k], events[k]) == Done(states[k + 1])
  }

  /** The packet this event takes from the channel from p to q. */
  ghost function Taken(s: Sys, e: Event, p: nat, q: nat): seq<Packet> {
    if e == Deliver(p, q) && p < |s.net| && q < |s.net[p]| && s.net[p][q] != [] then [s.net[p][q][0]] else []
  }

  lemma {:induction false} TraceShape(states: seq<Sys>, events: seq<Event>, n: nat)
    requires Trace(states, events) && n < |states|
    ensures Shape(states[n]) && |states[n].pes| == |states[0].pes|
  {
    hide Step, Enabled, Shape;
    if n == 0 {
      assert Init(states[0]);
    } else {
      TraceShape(states, events, n - 1);
      StepShape(states[n - 1], events[n - 1], states[n]);
    }
  }

  // ---------------------------------------------------------------- what is sent again

  /** The index of the acknowledgement of this phase that p handled last, or 0. */
  ghost function Acked(states: seq<Sys>, events: seq<Event>, p: nat, n: nat): nat
    requires n < |states| == |events| + 1
  {
    if n == 0 then 0
    else
      var s, e := states[n - 1], events[n - 1];
      if e.Collect? then 0
      else if e.Deliver? && e.dst == p && p < |s.pes| && Taken(s, e, e.src, p) != [] && Taken(s, e, e.src, p)[0].Ack?
              && Taken(s, e, e.src, p)[0].phase == s.pes[p].win.phase then
        Taken(s, e, e.src, p)[0].index
      else Acked(states, events, p, n - 1)
  }

  /** One step moves the start of the window only by an acknowledgement or a new phase. */
  lemma StepWindow(s: Sys, e: Event, s': Sys, p: nat)
    requires Shape(s) && Enabled(s, e) && Step(s, e) == Done(s') && p < |s.pes|
    ensures p < |s'.pes|
    ensures var (w, w') := (s.pes[p].win, s'.pes[p].win);
      if e.Collect? then w'.num == |w'.log|
      else if e.Deliver? && e.dst == p && s.net[e.src][p][0].Ack? && s.net[e.src][p][0].phase == w.phase then
        |w'.log| - w'.num == s.net[e.src][p][0].index
      else |w'.log| - w'.num == |w.log| - w.num
  {
    hide Filter, StoreAll, Reply;
  }

  /** In every run the window is the log from the last acknowledgement on. */
  lemma {:induction false} WindowIsUnacked(states: seq<Sys>, events: seq<Event>, p: nat, n: nat)
    requires Trace(states, events) && n < |states| && p < |states[0].pes|
    ensures p < |states[n].pes| && |states[n].pes[p].win.log| - states[n].pes[p].win.num == Acked(states, events, p, n)
  {
    if n > 0 {
      WindowIsUnacked(states, events, p, n - 1);
      TraceShape(states, events, n - 1);
      hide Step, Enabled, Init;
      StepWindow(states[n - 1], events[n - 1], states[n], p);
    }
  }

  /** So a remote send puts exactly the determinants since the last acknowledgement on the channel,
      in one store ahead of the message, and no store if there are none. */
  lemma SendCarries(states: seq<Sys>, events: seq<Event>, n: nat)
    requires Trace(states, events) && n < |events| && events[n].Send?
    ensures var (s, p, q) := (states[n], events[n].src, events[n].dst);
      && p < |s.pes| && q < |s.pes| && |s.net| == |s.pes| && |s.net[p]| == |s.pes|
      && var (w, k) := (s.pes[p].win, Acked(states, events, p, n));
      && k <= |w.log|
      && states[n + 1].net == s.net[p := s.net[p][q := s.net[p][q] +
           ((if k == |w.log| then [] else [Store(w.phase, |w.log|, w.log[k..])]) + [App(|w.log|)])]]
  {
    TraceShape(states, events, n);
    hide Init;
    WindowIsUnacked(states, events, events[n].src, n);
  }

  // ---------------------------------------------------------------- what is acknowledged

  ghost function AcksIn(ch: seq<Packet>): seq<Packet> {
    if ch == [] then []
    else AcksIn(ch[..|ch| - 1]) + if ch[|ch| - 1].Ack? then [ch[|ch| - 1]] else []
  }

  ghost function OwedFor(x: seq<Packet>): seq<Packet> {
    if x != [] && x[0].Store? then [Ack(x[0].phase, x[0].index)] else []
  }

  /** One acknowledgement, with the store's own phase and index, per store of p that q has filed. */
  ghost function Owed(states: seq<Sys>, events: seq<Event>, p: nat, q: nat, n: nat): seq<Packet>
    requires n < |states| == |events| + 1
  {
    if n == 0 then []
    else
      Owed(states, events, p, q, n - 1) + OwedFor(Taken(states[n - 1], events[n - 1], p, q))
  }

  /** The acknowledgements from q that p has handled. */
  ghost function Handled(states: seq<Sys>, events: seq<Event>, p: nat, q: nat, n: nat): seq<Packet>
    requires n < |states| == |events| + 1
  {
    if n == 0 then [] else Handled(states, events, p, q, n - 1) + AcksIn(Taken(states[n - 1], events[n - 1], q, p))
  }

  lemma {:induction false} AcksInConcat(a: seq<Packet>, b: seq<Packet>)
    ensures AcksIn(a + b) == AcksIn(a) + AcksIn(b)
    decreases |b|
  {
    if b == [] {
      assert a + b == a;
    } else {
      AcksInConcat(a, b[..|b| - 1]);
      assert (a + b)[..|a + b| - 1] == a + b[..|b| - 1];
    }
  }

  lemma SendHasNoAck(w: Window)
    requires WindowOk(w)
    ensures AcksIn(SendPackets(w)) == []
  {
    var ps := SendPackets(w);
    if |ps| == 2 { assert ps[..1] == [ps[0]] && AcksIn(ps[..1]) == []; }
  }

  /** What one step does to the channel from q to p. */
  lemma ChannelAfter(s: Sys, e: Event, s': Sys, p: nat, q: nat)
    requires Shape(s) && Enabled(s, e) && Step(s, e) == Done(s') && p < |s.pes| && q < |s.pes| && p != q && s'.failed != q
    ensures Shape(s') && |s'.pes| == |s.pes|
    ensures var (ch, x) := (s.net[q][p], Taken(s, e, p, q));
      s'.net[q][p] ==
        if e == Send(q, p) then ch + SendPackets(s.pes[q].win)
        else if e == Deliver(q, p) then ch[1..]
        else if x != [] && x[0].Store? then ch + [Ack(x[0].phase, x[0].index)]
        else ch
  {
    StepShape(s, e, s');
    hide StoreAll, Reply, OnAck, Filter, SendPackets, OnDeliver;
    if e.Deliver? { ChannelDelivered(s, e.src, e.dst, s', p, q); }
  }

  lemma ChannelDelivered(s: Sys, a: nat, b: nat, s': Sys, p: nat, q: nat)
    requires Shape(s) && Shape(s') && |s'.pes| == |s.pes| && Enabled(s, Deliver(a, b)) && OnDeliver(s, a, b) == Done(s')
    requires p < |s.pes| && q < |s.pes| && p != q
    ensures var (ch, x) := (s.net[q][p], Taken(s, Deliver(a, b), p, q));
      s'.net[q][p] ==
        if a == q && b == p then ch[1..]
        else if x != [] && x[0].Store? then ch + [Ack(x[0].phase, x[0].index)]
        else ch
  {
    hide StoreAll, Reply, OnAck;
    match s.net[a][b][0]
    case Store(_, _, _) =>
    case Ack(_, _) =>
    case App(_) =>
    case Request =>
  }

  /** What one step does to the acknowledgements on it. */
  lemma StepAcks(s: Sys, e: Event, s': Sys, p: nat, q: nat)
    requires Shape(s) && Enabled(s, e) && Step(s, e) == Done(s') && p < |s.pes| && q < |s.pes| && p != q && s'.failed != q
    ensures Shape(s') && |s'.pes| == |s.pes|
    ensures AcksIn(s.net[q][p]) + OwedFor(Taken(s, e, p, q)) == AcksIn(Taken(s, e, q, p)) + AcksIn(s'.net[q][p])
  {
    ChannelAfter(s, e, s', p, q);
    hide Step, SendPackets;
    var ch := s.net[q][p];
    if e == Send(q, p) {
      AcksInConcat(ch, SendPackets(s.pes[q].win));
      SendHasNoAck(s.pes[q].win);
    } else if e == Deliver(q, p) {
      assert ch == [ch[0]] + ch[1..];
      AcksInConcat([ch[0]], ch[1..]);
    } else {
      AcksInConcat(ch, OwedFor(Taken(s, e, p, q)));
    }
  }

  /** Every store is acknowledged exactly once: the acknowledgements p has handled and those under
      way to it are, in order, those of the stores of p that q has filed, as long as q lives. */
  lemma {:induction false} EachStoreAcked(states: seq<Sys>, events: seq<Event>, p: nat, q: nat, n: nat)
    requires Trace(states, events) && n < |states| && p < |states[0].pes| && q < |states[0].pes| && p != q
    requires states[n].failed != q
    ensures Shape(states[n]) && |states[n].pes| == |states[0].pes|
    ensures Owed(states, events, p, q, n) == Handled(states, events, p, q, n) + AcksIn(states[n].net[q][p])
  {
    TraceShape(states, events, n);
    hide Shape, Step, AcksIn, Taken, OwedFor, Init;
    if n == 0 {
      NoAcksYet(states[0], p, q);
    } else {
      var s, e, s' := states[n - 1], events[n - 1], states[n];
      TraceShape(states, events, n - 1);
      StepShape(s, e, s');
      EachStoreAcked(states, events, p, q, n - 1);
      StepAcks(s, e, s', p, q);
      hide Trace;
      Regroup(Handled(states, events, p, q, n - 1), AcksIn(s.net[q][p]), OwedFor(Taken(s, e, p, q)),
              AcksIn(Taken(s, e, q, p)), AcksIn(s'.net[q][p]));
    }
  }

  lemma Regroup(h: seq<Packet>, a: seq<Packet>, o: seq<Packet>, t: seq<Packet>, b: seq<Packet>)
    requires a + o == t + b
    ensures (h + a) + o == (h + t) + b
  {
    assert (h + a) + o == h + (a + o);
    assert (h + t) + b == h + (t + b);
  }

  lemma NoAcksYet(s: Sys, p: nat, q: nat)
    requires Init(s) && p < |s.pes| && q < |s.pes|
    ensures AcksIn(s.net[q][p]) == []
  {
  }
}
