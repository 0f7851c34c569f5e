/** The watermark invariant: what other processors keep of a processor's determinants is
    always a prefix of its log, however sends, stores and acknowledgements interleave.
 */
module MlogWatermark {
  import opened Tickets
  import opened Determinants
  import opened MlogSystem

  // ---------------------------------------------------------------- one channel

  /** A store packet carries a stretch of the log that starts at or below the watermark. */
  ghost predicate StoreOk(k: Packet, win: Window, w: nat)
    requires k.Store?
  {
    && k.phase == win.phase && |k.dets| <= k.index <= |win.log|
    && k.dets == win.log[k.index - |k.dets|..k.index]
    && k.index - |k.dets| <= w
  }

  ghost predicate Covered(c: seq<Packet>, j: nat, index: nat)
    requires j <= |c|
  {
    exists i :: 0 <= i < j && c[i].Store? && c[i].index == index
  }

  /** Outgoing traffic: each message's log is below the watermark, or in a store ahead of it. */
  ghost predicate FromOk(c: seq<Packet>, win: Window, w: nat) {
    && (forall j :: 0 <= j < |c| && c[j].Store? ==> StoreOk(c[j], win, w))
    && (forall j :: 0 <= j < |c| && c[j].App? ==>
          c[j].index <= |win.log| && (c[j].index <= w || Covered(c, j, c[j].index)))
  }

  /** Incoming acknowledgements of this phase never exceed the watermark. */
  ghost predicate ToOk(c: seq<Packet>, win: Window, w: nat) {
    forall j :: 0 <= j < |c| && c[j].Ack? ==>
      c[j].phase <= win.phase && (c[j].phase == win.phase ==> c[j].index <= w)
  }

  lemma FromGrow(c: seq<Packet>, win: Window, w: nat, win': Window, w': nat)
    requires FromOk(c, win, w) && win.log <= win'.log && win.phase == win'.phase && w <= w'
    ensures FromOk(c, win', w')
  {
    forall j | 0 <= j < |c| && c[j].Store?
      ensures StoreOk(c[j], win', w')
    {
      var b, i := c[j].index - |c[j].dets|, c[j].index;
      assert win'.log[b..i] == win.log[b..i];
    }
  }

  /** One more packet: earlier messages stay covered. */
  lemma CoveredStays(c: seq<Packet>, k: Packet, j: nat, index: nat)
    requires j <= |c| && Covered(c, j, index)
    ensures Covered(c + [k], j, index)
  {
    var i :| 0 <= i < j && c[i].Store? && c[i].index == index;
    assert (c + [k])[i] == c[i];
  }

  lemma FromMore(c: seq<Packet>, win: Window, w: nat, k: Packet)
    requires FromOk(c, win, w)
    requires k.Store? ==> StoreOk(k, win, w)
    requires k.App? ==> k.index <= |win.log| && (k.index <= w || Covered(c, |c|, k.index))
    ensures FromOk(c + [k], win, w)
  {
    var c' := c + [k];
    hide Covered, StoreOk;
    forall j | 0 <= j < |c'| && c'[j].App?
      ensures c'[j].index <= |win.log| && (c'[j].index <= w || Covered(c', j, c'[j].index))
    {
      if c'[j].index > w { CoveredStays(c, k, j, c'[j].index); }
    }
  }

  lemma FromSend(c: seq<Packet>, win: Window, w: nat)
    requires FromOk(c, win, w) && WindowOk(win) && |win.log| - win.num <= w <= |win.log|
    ensures FromOk(c + SendPackets(win), win, w)
  {
    var app := App(|win.log|);
    if win.num > 0 {
      var store := Store(win.phase, |win.log|, win.log[|win.log| - win.num..]);
      assert (c + [store])[|c|] == store && c + SendPackets(win) == c + [store] + [app];
      hide FromOk;
      FromMore(c, win, w, store);
      FromMore(c + [store], win, w, app);
    } else {
      assert SendPackets(win) == [app];
      hide FromOk;
      FromMore(c, win, w, app);
    }
  }

  lemma FromPop(c: seq<Packet>, win: Window, w: nat, w': nat)
    requires FromOk(c, win, w) && c != [] && w' == if c[0].Store? then Max(w, c[0].index) else w
    ensures FromOk(c[1..], win, w')
    ensures c[0].App? ==> c[0].index <= w
  {
    var c' := c[1..];
    forall j | 0 <= j < |c'| && c'[j].App?
      ensures c'[j].index <= w' || Covered(c', j, c'[j].index)
    {
      assert c'[j] == c[j + 1];
      if c'[j].index > w' {
        var i :| 0 <= i < j + 1 && c[i].Store? && c[i].index == c'[j].index;
        assert c'[i - 1] == c[i];
      }
    }
  }

  lemma FromPrefix(c: seq<Packet>, win: Window, w: nat, k: nat)
    requires FromOk(c, win, w) && k <= |c|
    ensures FromOk(c[..k], win, w)
  {
    var c' := c[..k];
    forall j | 0 <= j < |c'| && c'[j].App?
      ensures c'[j].index <= w || Covered(c', j, c'[j].index)
    {
      if c'[j].index > w {
        var i :| 0 <= i < j && c[i].Store? && c[i].index == c[j].index;
        assert c'[i] == c[i];
      }
    }
  }

  // ---------------------------------------------------------------- one processor

  ghost predicate Stored(s: Sys, p: nat, d: Det) {
    exists q :: 0 <= q < |s.pes| && q != p && d in At(s.pes[q].remote, d.receiver)
  }

  ghost predicate Owns(s: Sys, p: nat, d: Det) {
    d.receiver in s.place && s.place[d.receiver] == p
  }

  /** What others keep of p's determinants is the log of p up to the watermark. */
  ghost predicate StoredOk(s: Sys, p: nat, w: nat)
    requires p < |s.pes| && w <= |s.pes[p].win.log|
  {
    forall d :: Owns(s, p, d) ==> (Stored(s, p, d) <==> d in s.pes[p].win.log[..w])
  }

  ghost predicate ChannelsOk(s: Sys, p: nat, w: nat)
    requires Shape(s) && p < |s.pes|
  {
    forall q :: 0 <= q < |s.pes| && q != p ==>
      FromOk(s.net[p][q], s.pes[p].win, w) && ToOk(s.net[q][p], s.pes[p].win, w)
  }

  ghost predicate Watermark(s: Sys, p: nat, w: nat)
    requires Shape(s) && p < |s.pes|
  {
    var win := s.pes[p].win;
    && WindowOk(win) && |win.log| - win.num <= w <= |win.log|
    && s.heard[p] <= w
    && ChannelsOk(s, p, w)
    && StoredOk(s, p, w)
  }

  ghost predicate CarriesOwn(s: Sys, p: nat, q: nat)
    requires Shape(s) && p < |s.pes| && q < |s.pes|
  {
    forall j, d :: 0 <= j < |s.net[p][q]| && s.net[p][q][j].Store? && d in s.net[p][q][j].dets ==> Owns(s, p, d)
  }

  /** Determinants of p, in its log or on their way, are about objects of p. */
  ghost predicate Home(s: Sys)
    requires Shape(s)
  {
    && (forall p, d :: 0 <= p < |s.pes| && d in s.pes[p].win.log ==> Owns(s, p, d))
    && (forall p, q :: 0 <= p < |s.pes| && 0 <= q < |s.pes| ==> CarriesOwn(s, p, q))
  }

  ghost predicate OnlyLast(c: seq<Packet>) {
    forall j :: 0 <= j < |c| - 1 ==> !c[j].Request?
  }

  ghost predicate NoRequest(c: seq<Packet>) {
    forall j :: 0 <= j < |c| ==> !c[j].Request?
  }

  /** Requests travel only from the failed processor, behind everything else it sent; a
      processor that has answered has nothing more from it under way. */
  ghost predicate LinkOk(s: Sys, p: nat, q: nat)
    requires Shape(s) && p < |s.pes| && q < |s.pes|
  {
    if p != s.failed then NoRequest(s.net[p][q])
    else OnlyLast(s.net[p][q]) && (q in s.replies ==> s.net[p][q] == [])
  }

  ghost predicate Requests(s: Sys)
    requires Shape(s)
  {
    forall p, q :: 0 <= p < |s.pes| && 0 <= q < |s.pes| ==> LinkOk(s, p, q)
  }

  ghost predicate Marked(s: Sys, p: nat)
    requires Shape(s) && p < |s.pes|
  {
    exists w :: Watermark(s, p, w)
  }

  /** While all processors run, each has a watermark; after a failure, the failed one still has. */
  ghost predicate Inv(s: Sys) {
    && Shape(s) && Home(s) && Requests(s)
    && (forall p :: 0 <= p < |s.pes| && (s.failed < 0 || s.failed == p) ==> Marked(s, p))
  }

  // ---------------------------------------------------------------- one step, one processor

  lemma ReceiveMarks(s: Sys, env: Env, p: nat, w: nat)
    requires Shape(s) && p < |s.pes| && Watermark(s, p, w) && Enabled(s, Receive(env))
    ensures Shape(OnReceive(s, env)) && Watermark(OnReceive(s, env), p, w)
  {
    var s' := OnReceive(s, env);
    hide Filter;
    var win, win' := s.pes[p].win, s'.pes[p].win;
    assert win'.log[..w] == win.log[..w];
    forall q | 0 <= q < |s.pes| && q != p
      ensures FromOk(s'.net[p][q], win', w)
    {
      FromGrow(s.net[p][q], win, w, win', w);
    }
    forall d | Owns(s', p, d)
      ensures Stored(s', p, d) <==> Stored(s, p, d)
    {
      assert forall q :: 0 <= q < |s.pes| ==> s'.pes[q].remote == s.pes[q].remote;
    }
  }

  lemma SendMarks(s: Sys, a: nat, b: nat, p: nat, w: nat)
    requires Shape(s) && p < |s.pes| && Watermark(s, p, w) && Enabled(s, Send(a, b))
    ensures Step(s, Send(a, b)).Done? && Shape(Step(s, Send(a, b)).value) && Watermark(Step(s, Send(a, b)).value, p, w)
  {
    var s' := Step(s, Send(a, b)).value;
    if a == p { FromSend(s.net[a][b], s.pes[p].win, w); }
    assert forall d :: Stored(s', p, d) <==> Stored(s, p, d);
  }

  ghost predicate CanDeliver(s: Sys, a: nat, b: nat) {
    Shape(s) && Enabled(s, Deliver(a, b))
  }

  /** Storing determinants at b adds them to what others keep of p, and nothing else. */
  lemma StoreAdds(s: Sys, s': Sys, b: nat, p: nat, dets: seq<Det>, d: Det)
    requires b < |s.pes| && b != p
    requires s'.pes == s.pes[b := s.pes[b].(remote := StoreAll(s.pes[b].remote, dets))]
    ensures Stored(s', p, d) <==> Stored(s, p, d) || d in dets
  {
    var o := d.receiver;
    StoreAllAt(s.pes[b].remote, dets, o);
    OfReceiverMember(dets, o);
    assert forall q :: 0 <= q < |s.pes| && q != b ==> s'.pes[q] == s.pes[q];
    if Stored(s, p, d) {
      var q :| 0 <= q < |s.pes| && q != p && d in At(s.pes[q].remote, o);
      assert d in At(s'.pes[q].remote, o);
    }
    if d in dets { assert d in At(s'.pes[b].remote, o); }
  }

  /** A prefix and a stretch that starts inside it make a prefix. */
  lemma PrefixUnion(log: seq<Det>, w: nat, b: nat, i: nat, d: Det)
    requires b <= w <= |log| && b <= i <= |log|
    ensures d in log[..Max(w, i)] <==> d in log[..w] || d in log[b..i]
  {
    if d in log[..Max(w, i)] {
      var j :| 0 <= j < Max(w, i) && log[j] == d;
      if j < w { assert log[..w][j] == d; } else { assert log[b..i][j - b] == d; }
    }
    if d in log[b..i] {
      var j :| 0 <= j < i - b && log[b..i][j] == d;
      assert log[..Max(w, i)][b + j] == d;
    }
    if d in log[..w] {
      var j :| 0 <= j < w && log[j] == d;
      assert log[..Max(w, i)][j] == d;
    }
  }

  lemma OwnStoreStored(s: Sys, b: nat, p: nat, w: nat)
    requires CanDeliver(s, p, b) && Watermark(s, p, w) && s.net[p][b][0].Store?
    ensures OnDeliver(s, p, b).Done?
    ensures var s' := OnDeliver(s, p, b).value; var w' := Max(w, s.net[p][b][0].index);
      p < |s'.pes| && w' <= |s'.pes[p].win.log| && StoredOk(s', p, w')
  {
    var k := s.net[p][b][0];
    var s' := OnDeliver(s, p, b).value;
    var win := s.pes[p].win;
    assert FromOk(s.net[p][b], win, w) && StoreOk(k, win, w);
    forall d | Owns(s', p, d)
      ensures Stored(s', p, d) <==> d in win.log[..Max(w, k.index)]
    {
      StoreAdds(s, s', b, p, k.dets, d);
      PrefixUnion(win.log, w, k.index - |k.dets|, k.index, d);
      assert Owns(s, p, d);
    }
  }

  /** A store of p's own determinants lifts the watermark to its end. */
  lemma OwnStoreMarks(s: Sys, b: nat, p: nat, w: nat)
    requires CanDeliver(s, p, b) && Watermark(s, p, w) && s.net[p][b][0].Store?
    ensures OnDeliver(s, p, b).Done? && Shape(OnDeliver(s, p, b).value)
    ensures Watermark(OnDeliver(s, p, b).value, p, Max(w, s.net[p][b][0].index))
  {
    OwnStoreStored(s, b, p, w);
    hide StoredOk;
    var k := s.net[p][b][0];
    var s' := OnDeliver(s, p, b).value;
    var win := s.pes[p].win;
    var w' := Max(w, k.index);
    forall q | 0 <= q < |s.pes| && q != p
      ensures FromOk(s'.net[p][q], win, w') && ToOk(s'.net[q][p], win, w')
    {
      if q == b { FromPop(s.net[p][q], win, w, w'); } else { FromGrow(s.net[p][q], win, w, win, w'); }
    }
  }

  /** A store of another processor's determinants does not touch p's watermark. */
  lemma OtherStoreMarks(s: Sys, a: nat, b: nat, p: nat, w: nat)
    requires CanDeliver(s, a, b) && p < |s.pes| && a != p && Watermark(s, p, w) && s.net[a][b][0].Store?
    requires forall d :: d in s.net[a][b][0].dets ==> Owns(s, a, d)
    ensures OnDeliver(s, a, b).Done? && Shape(OnDeliver(s, a, b).value) && Watermark(OnDeliver(s, a, b).value, p, w)
  {
    var k := s.net[a][b][0];
    var s' := OnDeliver(s, a, b).value;
    var win := s.pes[p].win;
    forall d | Owns(s', p, d)
      ensures Stored(s', p, d) <==> Stored(s, p, d)
    {
      if b != p {
        StoreAdds(s, s', b, p, k.dets, d);
      } else {
        assert forall q :: 0 <= q < |s.pes| && q != p ==> s'.pes[q] == s.pes[q];
      }
    }
    if b == p { FromMore(s.net[p][a], win, w, Ack(k.phase, k.index)); }
  }

  lemma AckMarks(s: Sys, a: nat, b: nat, p: nat, w: nat)
    requires CanDeliver(s, a, b) && p < |s.pes| && Watermark(s, p, w) && s.net[a][b][0].Ack?
    requires OnDeliver(s, a, b).Done?
    ensures Shape(OnDeliver(s, a, b).value) && Watermark(OnDeliver(s, a, b).value, p, w)
  {
    var s' := OnDeliver(s, a, b).value;
    var win, win' := s.pes[p].win, s'.pes[p].win;
    assert forall q :: 0 <= q < |s.pes| ==> s'.pes[q].remote == s.pes[q].remote;
    assert forall d :: Stored(s', p, d) <==> Stored(s, p, d);
    forall q | 0 <= q < |s.pes| && q != p
      ensures FromOk(s'.net[p][q], win', w) && ToOk(s'.net[q][p], win', w)
    {
      FromGrow(s.net[p][q], win, w, win', w);
      if p == a && q == b { FromPop(s.net[p][q], win', w, w); }
    }
  }

  /** Acknowledgements under way never trip the handler's assertion. */
  lemma AckNeverAborts(s: Sys, a: nat, b: nat, w: nat)
    requires CanDeliver(s, a, b) && Watermark(s, b, w) && s.net[a][b][0].Ack?
    ensures OnDeliver(s, a, b).Done?
  {
    assert ToOk(s.net[a][b], s.pes[b].win, w);
  }

  lemma PlainMarks(s: Sys, a: nat, b: nat, p: nat, w: nat)
    requires CanDeliver(s, a, b) && p < |s.pes| && Watermark(s, p, w)
    requires s.net[a][b][0].App? || s.net[a][b][0].Request?
    ensures OnDeliver(s, a, b).Done? && Shape(OnDeliver(s, a, b).value) && Watermark(OnDeliver(s, a, b).value, p, w)
  {
    var s' := OnDeliver(s, a, b).value;
    assert forall d :: Stored(s', p, d) <==> Stored(s, p, d);
    if a == p { FromPop(s.net[p][b], s.pes[p].win, w, w); }
  }

  lemma DeliverMarks(s: Sys, a: nat, b: nat, p: nat, w: nat) returns (w': nat)
    requires CanDeliver(s, a, b) && p < |s.pes| && Watermark(s, p, w) && Home(s)
    requires OnDeliver(s, a, b).Done?
    ensures Shape(OnDeliver(s, a, b).value) && Watermark(OnDeliver(s, a, b).value, p, w')
  {
    hide Watermark;
    w' := w;
    match s.net[a][b][0]
    case Store(_, index, dets) =>
      if a == p {
        w' := Max(w, index);
        OwnStoreMarks(s, b, p, w);
      } else {
        assert CarriesOwn(s, a, b);
        OtherStoreMarks(s, a, b, p, w);
      }
    case Ack(_, _) => AckMarks(s, a, b, p, w);
    case _ => PlainMarks(s, a, b, p, w);
  }

  lemma CollectMarks(s: Sys, p: nat)
    requires Shape(s) && p < |s.pes| && Enabled(s, Collect) && (exists w :: Watermark(s, p, w))
    ensures Shape(OnCollect(s)) && Watermark(OnCollect(s), p, 0)
  {
    var s' := OnCollect(s);
    assert forall d :: !Stored(s', p, d);
    forall q | 0 <= q < |s.pes| && q != p
      ensures FromOk(s'.net[p][q], s'.pes[p].win, 0) && ToOk(s'.net[q][p], s'.pes[p].win, 0)
    {
      var w :| Watermark(s, p, w);
      assert ToOk(s.net[q][p], s.pes[p].win, w);
    }
  }

  lemma FailMarks(s: Sys, p: nat, kept: seq<nat>, w: nat)
    requires Shape(s) && Enabled(s, Fail(p, kept)) && Watermark(s, p, w)
    ensures Shape(OnFail(s, p, kept)) && Watermark(OnFail(s, p, kept), p, w)
  {
    var s' := OnFail(s, p, kept);
    assert forall q :: 0 <= q < |s.pes| && q != p ==> s'.pes[q] == s.pes[q];
    assert forall d :: Stored(s', p, d) <==> Stored(s, p, d);
    forall q | 0 <= q < |s.pes| && q != p
      ensures FromOk(s'.net[p][q], s'.pes[p].win, w)
    {
      FromPrefix(s.net[p][q], s.pes[p].win, w, kept[q]);
      FromMore(s.net[p][q][..kept[q]], s.pes[p].win, w, Request);
    }
  }

  // ---------------------------------------------------------------- every step

  /** What a step can do to one channel. */
  ghost predicate Changed(s: Sys, e: Event, p: nat, q: nat, c: seq<Packet>, c': seq<Packet>)
    requires Shape(s) && Enabled(s, e)
  {
    match e
    case Receive(_) => c' == c
    case Collect => c' == c
    case Send(a, b) => c' == if p == a && q == b then c + SendPackets(s.pes[a].win) else c
    case Deliver(a, b) =>
      if p == a && q == b then c != [] && c' == c[1..]
      else c' == c || (p == b && exists phase, index :: c' == c + [Ack(phase, index)])
    case Fail(f, kept) => if p == f && q < |kept| then kept[q] <= |c| && c' == c[..kept[q]] + [Request] else c' == c
  }

  lemma DeliverShape(s: Sys, a: nat, b: nat, s': Sys)
    requires Shape(s) && a < |s.pes| && b < |s.pes| && a != b && s.net[a][b] != [] && OnDeliver(s, a, b) == Done(s')
    ensures Shape(s') && |s'.pes| == |s.pes| && s'.place == s.place && s'.failed == s.failed
    ensures forall q :: q in s'.replies ==> q in s.replies || (q == b && s.net[a][q][0].Request?)
  {
    match s.net[a][b][0]
    case Store(_, _, _) =>
    case Ack(_, _) =>
    case App(_) =>
    case Request =>
  }

  lemma FailShape(s: Sys, p: nat, kept: seq<nat>)
    requires Shape(s) && p < |s.pes| && |kept| == |s.pes|
    requires forall q :: 0 <= q < |s.pes| ==> kept[q] <= |s.net[p][q]|
    ensures Shape(OnFail(s, p, kept))
  {
  }

  lemma StepShape(s: Sys, e: Event, s': Sys)
    requires Shape(s) && Enabled(s, e) && Step(s, e) == Done(s')
    ensures Shape(s') && |s'.pes| == |s.pes| && s'.place == s.place
    ensures s'.failed == if e.Fail? then e.pe else s.failed
    ensures forall q :: q in s'.replies ==>
      !e.Fail? && (q in s.replies || (e.Deliver? && q == e.dst && s.net[e.src][q][0].Request?))
  {
    hide Filter, OnDeliver;
    match e
    case Receive(_) =>
    case Send(_, _) =>
    case Deliver(a, b) => DeliverShape(s, a, b, s');
    case Collect =>
    case Fail(p, kept) => FailShape(s, p, kept);
  }

  lemma DeliverChanges(s: Sys, a: nat, b: nat, s': Sys, p: nat, q: nat)
    requires Shape(s) && Enabled(s, Deliver(a, b)) && OnDeliver(s, a, b) == Done(s')
    requires p < |s.pes| && q < |s.pes| && Shape(s') && |s'.pes| == |s.pes|
    ensures Changed(s, Deliver(a, b), p, q, s.net[p][q], s'.net[p][q])
  {
    var k := s.net[a][b][0];
    if k.Store? && p == b && q == a {
      assert s'.net[p][q] == s.net[p][q] + [Ack(k.phase, k.index)];
    }
  }

  lemma StepChanges(s: Sys, e: Event, s': Sys, p: nat, q: nat)
    requires Shape(s) && Enabled(s, e) && Step(s, e) == Done(s') && p < |s.pes| && q < |s.pes|
    requires Shape(s') && |s'.pes| == |s.pes|
    ensures Changed(s, e, p, q, s.net[p][q], s'.net[p][q])
  {
    hide Filter;
    if e.Deliver? { DeliverChanges(s, e.src, e.dst, s', p, q); }
  }

  lemma HomeKeeps(s: Sys, e: Event, s': Sys)
    requires Shape(s) && Home(s) && Enabled(s, e) && Step(s, e) == Done(s')
    ensures Shape(s') && Home(s')
  {
    StepShape(s, e, s');
    forall p, d | 0 <= p < |s'.pes| && d in s'.pes[p].win.log
      ensures Owns(s', p, d)
    {
      hide Filter, CarriesOwn;
      assert d in s.pes[p].win.log ==> Owns(s, p, d);
    }
    forall p, q | 0 <= p < |s'.pes| && 0 <= q < |s'.pes|
      ensures CarriesOwn(s', p, q)
    {
      hide Step;
      StepChanges(s, e, s', p, q);
      assert CarriesOwn(s, p, q);
      CarriesOwnKeeps(s, e, s', p, q);
    }
  }

  lemma CarriesOwnKeeps(s: Sys, e: Event, s': Sys, p: nat, q: nat)
    requires Shape(s) && Enabled(s, e) && p < |s.pes| && q < |s.pes|
    requires Shape(s') && |s'.pes| == |s.pes| && s'.place == s.place
    requires Changed(s, e, p, q, s.net[p][q], s'.net[p][q]) && CarriesOwn(s, p, q)
    requires forall d :: d in s.pes[p].win.log ==> Owns(s, p, d)
    ensures CarriesOwn(s', p, q)
  {
    var c, c' := s.net[p][q], s'.net[p][q];
    forall j, d | 0 <= j < |c'| && c'[j].Store? && d in c'[j].dets
      ensures Owns(s', p, d)
    {
      if j < |c| && c'[j] == c[j] {
        assert Owns(s, p, d);
      } else if e.Deliver? {
        assert c'[j] == c[j + 1];
        assert Owns(s, p, d);
      } else {
        var win := s.pes[p].win;
        assert d in win.log[|win.log| - win.num..];
        assert d in win.log;
      }
    }
  }

  lemma RequestsKeep(s: Sys, e: Event, s': Sys)
    requires Shape(s) && Requests(s) && Enabled(s, e) && Step(s, e) == Done(s')
    ensures Shape(s') && Requests(s')
  {
    StepShape(s, e, s');
    hide Step, Filter, LinkOk;
    forall p, q | 0 <= p < |s'.pes| && 0 <= q < |s'.pes|
      ensures LinkOk(s', p, q)
    {
      StepChanges(s, e, s', p, q);
      if e.Deliver? { assert LinkOk(s, e.src, e.dst); }
      LinkKeeps(s, e, s', p, q);
    }
  }

  lemma LinkKeeps(s: Sys, e: Event, s': Sys, p: nat, q: nat)
    requires Shape(s) && Enabled(s, e) && p < |s.pes| && q < |s.pes|
    requires Shape(s') && |s'.pes| == |s.pes|
    requires Changed(s, e, p, q, s.net[p][q], s'.net[p][q]) && LinkOk(s, p, q)
    requires e.Deliver? ==> LinkOk(s, e.src, e.dst)
    requires s'.failed == if e.Fail? then e.pe else s.failed
    requires q in s'.replies ==>
      !e.Fail? && (q in s.replies || (e.Deliver? && q == e.dst && s.net[e.src][q][0].Request?))
    ensures LinkOk(s', p, q)
  {
    hide Filter;
    var c, c' := s.net[p][q], s'.net[p][q];
    if e.Deliver? && p == e.src && q == e.dst {
      assert forall j :: 0 <= j < |c'| ==> c'[j] == c[j + 1];
    }
  }

  lemma StepMarks(s: Sys, e: Event, s': Sys, p: nat)
    requires Inv(s) && Enabled(s, e) && Step(s, e) == Done(s') && p < |s.pes|
    requires s'.failed < 0 || s'.failed == p
    ensures Shape(s') && p < |s'.pes| && Marked(s', p)
  {
    hide Watermark, Home, Requests;
    assert Marked(s, p);
    var w :| Watermark(s, p, w);
    match e
    case Receive(env) =>
      ReceiveMarks(s, env, p, w);
    case Send(a, b) =>
      SendMarks(s, a, b, p, w);
    case Deliver(a, b) =>
      var w' := DeliverMarks(s, a, b, p, w);
    case Collect =>
      CollectMarks(s, p);
    case Fail(f, kept) =>
      FailMarks(s, f, kept, w);
  }

  lemma StepKeeps(s: Sys, e: Event, s': Sys)
    requires Inv(s) && Enabled(s, e) && Step(s, e) == Done(s')
    ensures Inv(s')
  {
    HomeKeeps(s, e, s');
    RequestsKeep(s, e, s');
    hide Home, Requests, Marked;
    assert |s'.pes| == |s.pes|;
    forall p | 0 <= p < |s'.pes| && (s'.failed < 0 || s'.failed == p)
      ensures Marked(s', p)
    {
      StepMarks(s, e, s', p);
    }
  }
}
