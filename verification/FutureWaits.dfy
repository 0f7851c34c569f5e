/** Threads waiting for futures: suspended until a value is set, awakened then, and looking again
    when they are resumed.  A resumed thread reads the future it waited for exactly if its handle
    was not created again in the meantime.
 */
module FutureWaits {
  import opened Seqs
  import opened Futures

  /** `blocked` has the threads inside a wait, with the handle; `woken` those awakened since. */
  datatype Sys = Sys(pool: Pool, blocked: map<Tid, nat>, woken: set<Tid>)

  /** A thread waits for one future at a time, and is resumed only after it was awakened. */
  ghost predicate Next(s: Sys, events: seq<Event>, e: Event, s': Sys) {
    && Futures.Next(s.pool, events, e, s'.pool)
    && match e
       case Created(_) => s'.blocked == s.blocked && s'.woken == s.woken
       case Released(_) => s'.blocked == s.blocked && s'.woken == s.woken
       case Set(h, _) => s'.blocked == s.blocked && s'.woken == s.woken + set t | t in s.pool.cells[h].waiters
       case Waited(h, t) =>
         && t !in s.blocked && s'.woken == s.woken
         && s'.blocked == if s.pool.cells[h].ready then s.blocked else s.blocked[t := h]
       case Resumed(h, t) =>
         && t in s.woken && t in s.blocked && s.blocked[t] == h && s'.woken == s.woken - {t}
         && s'.blocked == if s.pool.cells[h].ready then s.blocked - {t} else s.blocked
  }

  ghost predicate Run(systems: seq<Sys>, events: seq<Event>) {
    && |systems| == |events| + 1
    && (exists fill: seq<Cell> :: |fill| == INITIAL && systems[0] == Sys(Blank(fill), map[], {}))
    && forall i :: 0 <= i < |events| ==> Next(systems[i], events[..i], events[i], systems[i + 1])
  }

  function Pools(systems: seq<Sys>): seq<Pool> {
    seq(|systems|, i requires 0 <= i < |systems| => systems[i].pool)
  }

  lemma RunOfPools(systems: seq<Sys>, events: seq<Event>)
    requires Run(systems, events)
    ensures Futures.Run(Pools(systems), events)
  {
    var pools := Pools(systems);
    var fill: seq<Cell> :| |fill| == INITIAL && systems[0] == Sys(Blank(fill), map[], {});
    assert pools[0] == Blank(fill);
    hide Blank, Futures.Next;
    forall i | 0 <= i < |events|
      ensures Futures.Next(pools[i], events[..i], events[i], pools[i + 1])
    {
      assert Next(systems[i], events[..i], events[i], systems[i + 1]);
    }
  }

  // ---------------------------------------------------------------- reading the history

  /** Where the thread last called wait, or -1. */
  ghost function WaitIndex(events: seq<Event>, t: Tid): (n: int)
    ensures -1 <= n < |events| && (n >= 0 ==> events[n].Waited? && events[n].t == t)
  {
    if events == [] then -1
    else if events[|events| - 1].Waited? && events[|events| - 1].t == t then |events| - 1
    else WaitIndex(events[..|events| - 1], t)
  }

  /** The handle is created at some moment strictly between a and b. */
  ghost predicate CreatedIn(events: seq<Event>, h: nat, a: int, b: nat)
    requires b <= |events|
  {
    exists k :: a < k < b && 0 <= k && events[k] == Created(h)
  }

  /** A value is set after n for the future the handle stood for at n. */
  ghost predicate SetFor(events: seq<Event>, h: nat, n: int) {
    exists i :: n < i < |events| && 0 <= i && events[i].Set? && events[i].h == h && !CreatedIn(events, h, n, i)
  }

  /** Where the value a ready future holds was set. */
  ghost function Source(events: seq<Event>, h: nat): (src: seq<nat>)
    ensures |src| <= 1 && (src != [] ==> src[0] < |events| && events[src[0]].Set? && events[src[0]].h == h)
    ensures LastSet(events, h) == if src == [] then [] else [events[src[0]].v]
  {
    if events == [] then []
    else
      match events[|events| - 1]
      case Created(k) => if k == h then [] else Source(events[..|events| - 1], h)
      case Set(k, _) => if k == h then [|events| - 1] else Source(events[..|events| - 1], h)
      case _ => Source(events[..|events| - 1], h)
  }

  lemma CreatedSame(events: seq<Event>, e: Event, h: nat, a: int, b: nat)
    requires b <= |events|
    ensures CreatedIn(events + [e], h, a, b) <==> CreatedIn(events, h, a, b)
  {
    var after := events + [e];
    assert forall k :: 0 <= k < b ==> after[k] == events[k];
  }

  lemma CreatedNext(events: seq<Event>, e: Event, h: nat, a: int)
    requires a < |events|
    ensures CreatedIn(events + [e], h, a, |events| + 1) <==> CreatedIn(events, h, a, |events|) || e == Created(h)
  {
    var after := events + [e];
    assert after[|events|] == e && forall k :: 0 <= k < |events| ==> after[k] == events[k];
  }

  lemma SetForNext(events: seq<Event>, e: Event, h: nat, n: int)
    requires n < |events|
    requires SetFor(events, h, n) || (e.Set? && e.h == h && !CreatedIn(events, h, n, |events|))
    ensures SetFor(events + [e], h, n)
  {
    var after := events + [e];
    if SetFor(events, h, n) {
      var i :| n < i < |events| && 0 <= i && events[i].Set? && events[i].h == h && !CreatedIn(events, h, n, i);
      CreatedSame(events, e, h, n, i);
      assert after[i] == events[i];
    } else {
      CreatedSame(events, e, h, n, |events|);
      assert after[|events|] == e;
    }
  }

  /** Nothing is created between the source of a value and now. */
  lemma {:induction false} SourceLast(events: seq<Event>, h: nat)
    requires Source(events, h) != []
    ensures !CreatedIn(events, h, Source(events, h)[0], |events|)
  {
    var before, e := events[..|events| - 1], events[|events| - 1];
    assert events == before + [e];
    if !(e.Set? && e.h == h) {
      SourceLast(before, h);
      CreatedNext(before, e, h, Source(before, h)[0]);
    }
  }

  /** A value set for the future is still there unless the handle was created again. */
  lemma {:induction false} StillThere(events: seq<Event>, h: nat, n: int)
    requires SetFor(events, h, n) && !CreatedIn(events, h, n, |events|)
    ensures Source(events, h) != [] && Source(events, h)[0] > n
  {
    var before, e := events[..|events| - 1], events[|events| - 1];
    assert events == before + [e];
    var i :| n < i < |events| && 0 <= i && events[i].Set? && events[i].h == h && !CreatedIn(events, h, n, i);
    if i < |before| {
      CreatedSame(before, e, h, n, i);
      assert before[i] == events[i];
      CreatedNext(before, e, h, n);
      StillThere(before, h, n);
    }
  }

  /** The exact condition, on histories: what the handle holds now was set for the future it stood
      for at n, if and only if it was not created since. */
  lemma OwnIff(events: seq<Event>, h: nat, n: int)
    requires SetFor(events, h, n)
    ensures !CreatedIn(events, h, n, |events|) <==>
      Source(events, h) != [] && Source(events, h)[0] > n && !CreatedIn(events, h, n, Source(events, h)[0])
  {
    if !CreatedIn(events, h, n, |events|) {
      StillThere(events, h, n);
    } else if Source(events, h) != [] {
      SourceLast(events, h);
    }
  }

  // ---------------------------------------------------------------- threads

  /** A blocked thread is inside its last wait.  If awakened, a value was set for the future it
      waits for; if not, it is among the handle's waiters, or the handle was created again. */
  ghost predicate ThreadOk(s: Sys, events: seq<Event>, t: Tid) {
    && (t in s.woken ==> t in s.blocked)
    && (t in s.blocked ==>
          var (h, n) := (s.blocked[t], WaitIndex(events, t));
          && n >= 0 && events[n].h == h
          && (t in s.woken ==> SetFor(events, h, n))
          && (t !in s.woken ==> t in Waiting(events, h) || CreatedIn(events, h, n, |events|)))
  }

  ghost predicate WaiterOk(s: Sys, events: seq<Event>, h: nat, t: Tid) {
    t in Waiting(events, h) ==>
      t in s.blocked && s.blocked[t] == h && t !in s.woken && !CreatedIn(events, h, WaitIndex(events, t), |events|)
  }

  ghost predicate Good(s: Sys, events: seq<Event>) {
    (forall t :: ThreadOk(s, events, t)) && (forall h, t :: WaiterOk(s, events, h, t))
  }

  /** What the pool says of a handle in use. */
  ghost predicate CellOk(p: Pool, events: seq<Event>, h: nat) {
    h < |p.cells| && p.cells[h].ready == (LastSet(events, h) != []) && p.cells[h].waiters == Waiting(events, h)
  }

  ghost predicate UsesOk(s: Sys, events: seq<Event>, e: Event) {
    e.Set? || e.Waited? || e.Resumed? ==> CellOk(s.pool, events, e.h)
  }

  lemma NextThread(s: Sys, events: seq<Event>, e: Event, s': Sys, t: Tid)
    requires Good(s, events) && Next(s, events, e, s') && UsesOk(s, events, e)
    ensures ThreadOk(s', events + [e], t)
  {
    hide Futures.Next, CreatedIn, SetFor, Good;
    assert ThreadOk(s, events, t) by { assert Good(s, events); HasThread(s, events, t); }
    var after := events + [e];
    assert after[..|events|] == events;
    if t in s.blocked {
      var h, n := s.blocked[t], WaitIndex(events, t);
      HasWaiter(s, events, h, t);
      CreatedNext(events, e, h, n);
      if t in s.woken { SetForNext(events, e, h, n); }
      if e.Set? && e.h == h && t in Waiting(events, h) { SetForNext(events, e, h, n); }
      if e == Resumed(h, t) && LastSet(events, h) == [] && !CreatedIn(events, h, n, |events|) { StillThere(events, h, n); }
    }
    if e.Set? {
      HasWaiter(s, events, e.h, t);
    }
  }

  lemma HasThread(s: Sys, events: seq<Event>, t: Tid)
    requires Good(s, events)
    ensures ThreadOk(s, events, t)
  {
  }

  lemma HasWaiter(s: Sys, events: seq<Event>, h: nat, t: Tid)
    requires Good(s, events)
    ensures WaiterOk(s, events, h, t)
  {
  }

  lemma NextWaiter(s: Sys, events: seq<Event>, e: Event, s': Sys, h: nat, t: Tid)
    requires Good(s, events) && Next(s, events, e, s') && UsesOk(s, events, e)
    ensures WaiterOk(s', events + [e], h, t)
  {
    hide Futures.Next, CreatedIn, SetFor, Good;
    HasThread(s, events, t);
    HasWaiter(s, events, h, t);
    var after := events + [e];
    assert after[..|events|] == events;
    if e.Set? { HasWaiter(s, events, e.h, t); }
    if t in Waiting(events, h) {
      CreatedNext(events, e, h, WaitIndex(events, t));
    } else if e == Waited(h, t) {
      NoneAfter(after, h, |events|);
    }
  }

  lemma NoneAfter(events: seq<Event>, h: nat, n: int)
    requires n == |events| - 1
    ensures !CreatedIn(events, h, n, |events|)
  {
  }

  lemma NextGood(s: Sys, events: seq<Event>, e: Event, s': Sys)
    requires Good(s, events) && Next(s, events, e, s') && UsesOk(s, events, e)
    ensures Good(s', events + [e])
  {
    hide ThreadOk, WaiterOk, Next, UsesOk;
    forall t
      ensures ThreadOk(s', events + [e], t)
    {
      NextThread(s, events, e, s', t);
    }
    forall h, t
      ensures WaiterOk(s', events + [e], h, t)
    {
      NextWaiter(s, events, e, s', h, t);
    }
  }

  // ---------------------------------------------------------------- runs

  /** A handle somebody waits for, or that is in use, was created. */
  lemma {:induction false} WaitedWasCreated(systems: seq<Sys>, events: seq<Event>, n: nat, k: nat)
    requires Run(systems, events) && k < n <= |events| && events[k].Waited?
    ensures EverCreated(events[..n], events[k].h)
  {
    RunOfPools(systems, events);
    var before := events[..n - 1];
    assert events[..n][..n - 1] == before;
    if k == n - 1 {
      assert Next(systems[k], events[..k], events[k], systems[k + 1]);
      var free := Futures.RunGood(Pools(systems), events, k);
      assert Agrees(Pools(systems)[k], free, events[..k], events[k].h);
    } else {
      WaitedWasCreated(systems, events, n - 1, k);
    }
  }

  lemma CellsOk(systems: seq<Sys>, events: seq<Event>, n: nat)
    requires Run(systems, events) && n < |events| && Good(systems[n], events[..n])
    ensures UsesOk(systems[n], events[..n], events[n])
  {
    var s, e := systems[n], events[n];
    assert Next(s, events[..n], e, systems[n + 1]);
    RunOfPools(systems, events);
    var free := Futures.RunGood(Pools(systems), events, n);
    assert Pools(systems)[n] == s.pool;
    if e.Set? || e.Waited? || e.Resumed? {
      assert Agrees(s.pool, free, events[..n], e.h);
      if e.Resumed? {
        HasThread(s, events[..n], e.t);
        WaitedWasCreated(systems, events, n, WaitIndex(events[..n], e.t));
      }
    }
  }

  lemma {:induction false} RunGood(systems: seq<Sys>, events: seq<Event>, n: nat)
    requires Run(systems, events) && n < |systems|
    ensures Good(systems[n], events[..n])
  {
    if n == 0 {
      assert events[..0] == [];
    } else {
      RunGood(systems, events, n - 1);
      CellsOk(systems, events, n - 1);
      assert Next(systems[n - 1], events[..n - 1], events[n - 1], systems[n]);
      assert events[..n - 1] + [events[n - 1]] == events[..n];
      hide Run, Good, Next, UsesOk;
      NextGood(systems[n - 1], events[..n - 1], events[n - 1], systems[n]);
    }
  }

  /** The whole wait, in every run.  A thread that waited at n and is resumed at m returns the value
      last set for the handle, or suspends again if there is none since the last creation; and it
      reads a value set for the future it waited for if and only if the handle was not created
      between n and m. */
  lemma WaitReturnsOwnIff(systems: seq<Sys>, events: seq<Event>, m: nat, h: nat, t: Tid) returns (n: nat)
    requires Run(systems, events) && m < |events| && events[m] == Resumed(h, t)
    ensures n < m && events[n] == Waited(h, t) && WaitIndex(events[..m], t) == n
    ensures var (s, src) := (systems[m], Source(events[..m], h));
      && h < |s.pool.cells| && s.pool.cells[h].ready == (src != [])
      && (src != [] ==> s.pool.cells[h].value == events[src[0]].v && t !in systems[m + 1].blocked)
      && (src == [] ==> t in systems[m + 1].blocked && t !in systems[m + 1].woken)
    ensures var src := Source(events[..m], h);
      !CreatedIn(events[..m], h, n, m) <==> src != [] && src[0] > n && !CreatedIn(events[..m], h, n, src[0])
  {
    var s, past := systems[m], events[..m];
    RunGood(systems, events, m);
    HasThread(s, past, t);
    assert Next(s, past, events[m], systems[m + 1]);
    n := WaitIndex(past, t);
    assert past[n] == events[n];
    OwnIff(past, h, n);
    WaitedWasCreated(systems, events, m, n);
    RunOfPools(systems, events);
    var free := Futures.RunGood(Pools(systems), events, m);
    assert Pools(systems)[m] == s.pool;
    assert Agrees(s.pool, free, past, h);
  }

  /** No waiting thread is forgotten: unless its handle was created again, it is awakened or among
      the waiters that the next value awakens. */
  lemma NotForgotten(systems: seq<Sys>, events: seq<Event>, m: nat, t: Tid)
    requires Run(systems, events) && m < |systems| && t in systems[m].blocked
    ensures var (s, h) := (systems[m], systems[m].blocked[t]);
      && h < |s.pool.cells|
      && (t in s.woken || t in s.pool.cells[h].waiters || CreatedIn(events[..m], h, WaitIndex(events[..m], t), m))
  {
    var s, past := systems[m], events[..m];
    RunGood(systems, events, m);
    HasThread(s, past, t);
    var n := WaitIndex(past, t);
    assert past[n] == events[n];
    WaitedWasCreated(systems, events, m, n);
    RunOfPools(systems, events);
    var free := Futures.RunGood(Pools(systems), events, m);
    assert Pools(systems)[m] == s.pool;
    assert Agrees(s.pool, free, past, s.blocked[t]);
  }

  // ---------------------------------------------------------------- a thread that waits for ever

  /** Ten fresh cells with the first one replaced. */
  function First(c: Cell): seq<Cell> {
    Linked(seq(INITIAL, _ => Cell(false, 0, [], 0)), 0, -1)[0 := c]
  }

  function LateEvents(): seq<Event> {
    [Created(0), Waited(0, 7), Set(0, 42), Released(0), Created(0), Resumed(0, 7)]
  }

  function LateSystems(): seq<Sys> {
    var blank := Cell(false, 0, [], 0);
    [Sys(Pool(First(Cell(false, 0, [], 1)), 0), map[], {}),
     Sys(Pool(First(blank), 1), map[], {}),
     Sys(Pool(First(blank.(waiters := [7])), 1), map[7 := 0], {}),
     Sys(Pool(First(Cell(true, 42, [], 0)), 1), map[7 := 0], {7}),
     Sys(Pool(First(Cell(true, 42, [], 1)), 0), map[7 := 0], {7}),
     Sys(Pool(First(blank), 1), map[7 := 0], {7}),
     Sys(Pool(First(blank), 1), map[7 := 0], {})]
  }

  lemma FirstTwice(c: Cell, d: Cell)
    ensures |First(c)| == INITIAL && First(c)[0] == c && First(c)[0 := d] == First(d)
  {
  }

  lemma Creates(c: Cell, events: seq<Event>)
    requires c.next == 1
    ensures Futures.Next(Pool(First(c), 0), events, Created(0), Pool(First(Cell(false, 0, [], 0)), 1))
  {
    FirstTwice(c, Cell(false, 0, [], 0));
    var p, fill: seq<Cell> := Pool(First(c), 0), First(c);
    assert Grown(p, fill) == p && |fill| == |p.cells|;
    assert Create(p, fill) == (Pool(First(Cell(false, 0, [], 0)), 1), 0);
  }

  lemma InUseUpTo(k: nat)
    requires 1 <= k <= 3
    ensures InUse(LateEvents()[..k], 0)
  {
    assert LateEvents()[..k][..k - 1] == LateEvents()[..k - 1];
    if k > 1 { InUseUpTo(k - 1); }
  }

  lemma LateStep(i: nat)
    requires i < 6
    ensures Next(LateSystems()[i], LateEvents()[..i], LateEvents()[i], LateSystems()[i + 1])
  {
    var blank := Cell(false, 0, [], 0);
    if i == 0 {
      Creates(Cell(false, 0, [], 1), LateEvents()[..i]);
    } else if i == 1 {
      InUseUpTo(1);
      FirstTwice(blank, blank.(waiters := [7]));
      assert [7] + blank.waiters == [7];
    } else if i == 2 {
      InUseUpTo(2);
      FirstTwice(blank.(waiters := [7]), Cell(true, 42, [], 0));
    } else if i == 3 {
      InUseUpTo(3);
      FirstTwice(Cell(true, 42, [], 0), Cell(true, 42, [], 1));
    } else if i == 4 {
      Creates(Cell(true, 42, [], 1), LateEvents()[..i]);
    } else {
      FirstTwice(blank, blank);
    }
  }

  lemma LateRun()
    ensures Run(LateSystems(), LateEvents())
  {
    var fill: seq<Cell> := seq(INITIAL, _ => Cell(false, 0, [], 0));
    assert First(Cell(false, 0, [], 1)) == Linked(fill, 0, -1);
    assert LateSystems()[0] == Sys(Blank(fill), map[], {});
    var systems, events := LateSystems(), LateEvents();
    assert |systems| == 7 && |events| == 6 && |fill| == INITIAL;
    hide Next, Blank, First, LateSystems, LateEvents;
    forall i | 0 <= i < |events|
      ensures Next(systems[i], events[..i], events[i], systems[i + 1])
    {
      LateStep(i);
    }
  }

  /** The failing case: a thread waits, a value is set, and before the thread is resumed the handle
      is released and created again.  The thread finds a future that is not ready, and suspends;
      it is not awakened, and in nobody's list of waiters. */
  lemma LateThreadIsStuck()
    ensures Run(LateSystems(), LateEvents()) && LateEvents()[1] == Waited(0, 7) && LateEvents()[5] == Resumed(0, 7)
    ensures var s := LateSystems()[6];
      && 7 in s.blocked && 7 !in s.woken && forall k :: 0 <= k < |s.pool.cells| ==> 7 !in s.pool.cells[k].waiters
  {
    LateRun();
    hide Run;
  }
}
