/** Futures: handles into an array that doubles when no handle is free, with the free handles
    linked through the array itself.
 */
module Futures {
  import opened Seqs

  type Tid = nat

  /** `next` links free cells; -1 ends the list. */
  datatype Cell = Cell(ready: bool, value: int, waiters: seq<Tid>, next: int)

  datatype Pool = Pool(cells: seq<Cell>, head: int)

  const INITIAL := 10

  // ---------------------------------------------------------------- operations

  /** addedFutures: cells from lo on become free, ahead of those that were. */
  function Linked(cells: seq<Cell>, lo: nat, head: int): seq<Cell> {
    seq(|cells|, i requires 0 <= i < |cells| =>
      if i < lo then cells[i] else cells[i].(next := if i == |cells| - 1 then head else i + 1))
  }

  /** Room to create in: `fill` is whatever a fresh allocation holds. */
  function Grown(p: Pool, fill: seq<Cell>): Pool {
    if p.head == -1 then Pool(Linked(p.cells + fill, |p.cells|, -1), |p.cells|) else p
  }

  function Create(p: Pool, fill: seq<Cell>): (Pool, int)
    requires 0 <= Grown(p, fill).head < |Grown(p, fill).cells|
  {
    var g := Grown(p, fill);
    (Pool(g.cells[g.head := Cell(false, 0, [], 0)], g.cells[g.head].next), g.head)
  }

  function Release(p: Pool, h: nat): Pool
    requires h < |p.cells|
  {
    Pool(p.cells[h := p.cells[h].(next := p.head)], h)
  }

  function SetValue(p: Pool, h: nat, v: int): Pool
    requires h < |p.cells|
  {
    p.(cells := p.cells[h := p.cells[h].(ready := true, value := v, waiters := [])])
  }

  /** A thread that finds the future not ready joins the waiters. */
  function Wait(p: Pool, h: nat, t: Tid): Pool
    requires h < |p.cells|
  {
    if p.cells[h].ready then p else p.(cells := p.cells[h := p.cells[h].(waiters := [t] + p.cells[h].waiters)])
  }

  // ---------------------------------------------------------------- the free list

  ghost predicate Links(cells: seq<Cell>, free: seq<nat>, i: nat)
    requires i < |free|
  {
    free[i] < |cells| && cells[free[i]].next == if i + 1 < |free| then free[i + 1] else -1
  }

  /** The links from the head spell out `free`, without repetition. */
  ghost predicate FreeList(p: Pool, free: seq<nat>) {
    && p.head == (if free == [] then -1 else free[0])
    && Distinct(free)
    && forall i :: 0 <= i < |free| ==> Links(p.cells, free, i)
  }

  ghost predicate Live(p: Pool, free: seq<nat>, h: nat) {
    h < |p.cells| && h !in free
  }

  function Upto(lo: nat, hi: nat): seq<nat>
    requires lo <= hi
  {
    seq(hi - lo, i => lo + i)
  }

  /** Growing an exhausted pool makes exactly the new cells free and touches no other. */
  lemma GrownFree(p: Pool, free: seq<nat>, fill: seq<Cell>)
    requires FreeList(p, free) && fill != []
    ensures var (g, n) := (Grown(p, fill), |p.cells|);
      && |g.cells| >= n && (forall h :: 0 <= h < n ==> g.cells[h] == p.cells[h])
      && FreeList(g, if free == [] then Upto(n, n + |fill|) else free)
  {
    var g, n := Grown(p, fill), |p.cells|;
    if free == [] {
      var f := Upto(n, n + |fill|);
      forall i | 0 <= i < |f|
        ensures Links(g.cells, f, i)
      {
        assert f[i] == n + i;
      }
    }
  }

  lemma FrontLinks(p: Pool, free: seq<nat>, p': Pool)
    requires FreeList(p, free) && free != [] && free[0] < |p.cells| == |p'.cells| && p'.head == p.cells[free[0]].next
    requires forall h :: 0 <= h < |p.cells| && h != free[0] ==> p'.cells[h] == p.cells[h]
    ensures FreeList(p', free[1..]) && free[0] !in free[1..]
  {
    assert Links(p.cells, free, 0);
    forall i | 0 <= i < |free[1..]|
      ensures Links(p'.cells, free[1..], i)
    {
      assert Links(p.cells, free, i + 1);
    }
  }

  /** Creating hands out a handle that was not live, with a fresh future, and leaves every live
      future as it was, even when the array is reallocated. */
  lemma CreateFresh(p: Pool, free: seq<nat>, fill: seq<Cell>) returns (free': seq<nat>)
    requires FreeList(p, free) && fill != []
    ensures var g := Grown(p, fill); 0 <= g.head < |g.cells|
    ensures var (p', h) := Create(p, fill);
      && FreeList(p', free') && !Live(p, free, h) && Live(p', free', h) && p'.cells[h] == Cell(false, 0, [], 0)
      && forall k: nat :: k != h ==> (Live(p', free', k) <==> Live(p, free, k)) && (k < |p.cells| ==> k < |p'.cells| && p'.cells[k] == p.cells[k])
  {
    GrownFree(p, free, fill);
    var g, n := Grown(p, fill), |p.cells|;
    var f := if free == [] then Upto(n, n + |fill|) else free;
    assert f != [] && Links(g.cells, f, 0);
    var (p', h) := Create(p, fill);
    FrontLinks(g, f, p');
    free' := f[1..];
    assert f == [f[0]] + free';
    forall k: nat | k != h
      ensures Live(p', free', k) <==> Live(p, free, k)
    {
      if free == [] && k in free' { assert k >= n; }
      if free == [] && n <= k < n + |fill| { assert f[k - n] == k; }
    }
  }

  lemma ReleaseLive(p: Pool, free: seq<nat>, h: nat)
    requires FreeList(p, free) && Live(p, free, h)
    ensures FreeList(Release(p, h), [h] + free)
  {
    var p', free' := Release(p, h), [h] + free;
    forall i | 0 <= i < |free'|
      ensures Links(p'.cells, free', i)
    {
      if i > 0 { assert Links(p.cells, free, i - 1) && free'[i] == free[i - 1]; }
    }
  }

  /** Along a list from h into the old list, the links lead back to h. */
  lemma {:induction false} Follow(p: Pool, free: seq<nat>, h: nat, free': seq<nat>, k: nat)
    requires FreeList(p, free) && h < |p.cells| && FreeList(Release(p, h), free') && k < |free| && h !in free[..k]
    ensures |free'| > k + 1 && free'[k + 1] == free[k]
  {
    assert Links(Release(p, h).cells, free', 0);
    if k > 0 {
      assert free[..k - 1] == free[..k][..k - 1];
      Follow(p, free, h, free', k - 1);
      assert free[..k][k - 1] == free[k - 1];
      assert Links(Release(p, h).cells, free', k) && Links(p.cells, free, k - 1);
    }
  }

  /** Releasing keeps a proper free list exactly when the handle was live: releasing a free one
      closes a cycle. */
  lemma ReleaseIff(p: Pool, free: seq<nat>, h: nat)
    requires FreeList(p, free) && h < |p.cells|
    ensures (exists free' :: FreeList(Release(p, h), free')) <==> h !in free
  {
    if h !in free {
      ReleaseLive(p, free, h);
    } else {
      forall free' | FreeList(Release(p, h), free')
        ensures false
      {
        assert free'[0] == h;
        var k := FirstIndex(free, h);
        Follow(p, free, h, free', k);
      }
    }
  }

  lemma {:induction false} FirstIndex(s: seq<nat>, x: nat) returns (k: nat)
    requires x in s
    ensures k < |s| && s[k] == x && x !in s[..k]
  {
    if s[0] == x {
      k := 0;
    } else {
      k := FirstIndex(s[1..], x);
      k := k + 1;
      assert s[..k] == [s[0]] + s[1..][..k - 1];
    }
  }

  /** Changing a live cell leaves the list alone. */
  lemma CellKeeps(p: Pool, free: seq<nat>, h: nat, c: Cell)
    requires FreeList(p, free) && Live(p, free, h)
    ensures FreeList(p.(cells := p.cells[h := c]), free)
  {
    var cells := p.cells[h := c];
    forall i | 0 <= i < |free|
      ensures Links(cells, free, i)
    {
      assert Links(p.cells, free, i) && free[i] in free;
    }
  }

  // ---------------------------------------------------------------- histories

  /** Waited is a thread's call; Resumed is its next look at the future after it was awakened. */
  datatype Event = Created(h: nat) | Released(h: nat) | Set(h: nat, v: int) | Waited(h: nat, t: Tid) | Resumed(h: nat, t: Tid)

  ghost predicate EverCreated(events: seq<Event>, h: nat) {
    if events == [] then false else events[|events| - 1] == Created(h) || EverCreated(events[..|events| - 1], h)
  }

  /** Handles created and not released since. */
  ghost predicate InUse(events: seq<Event>, h: nat) {
    if events == [] then false
    else
      match events[|events| - 1]
      case Created(k) => k == h || InUse(events[..|events| - 1], h)
      case Released(k) => k != h && InUse(events[..|events| - 1], h)
      case _ => InUse(events[..|events| - 1], h)
  }

  /** The value set for the handle since it was created, if any. */
  ghost function LastSet(events: seq<Event>, h: nat): seq<int> {
    if events == [] then []
    else
      match events[|events| - 1]
      case Created(k) => if k == h then [] else LastSet(events[..|events| - 1], h)
      case Set(k, v) => if k == h then [v] else LastSet(events[..|events| - 1], h)
      case _ => LastSet(events[..|events| - 1], h)
  }

  /** Threads that waited since the creation without a value having been set, latest first. */
  ghost function Waiting(events: seq<Event>, h: nat): seq<Tid> {
    if events == [] then []
    else
      var before := events[..|events| - 1];
      match events[|events| - 1]
      case Created(k) => if k == h then [] else Waiting(before, h)
      case Set(k, _) => if k == h then [] else Waiting(before, h)
      case Waited(k, t) => if k == h && LastSet(before, h) == [] then [t] + Waiting(before, h) else Waiting(before, h)
      case Released(_) => Waiting(before, h)
      case Resumed(_, _) => Waiting(before, h)
  }

  /** The pool after an event; the caller uses only handles in use. */
  ghost predicate Next(p: Pool, events: seq<Event>, e: Event, p': Pool) {
    match e
    case Created(h) =>
      exists fill: seq<Cell> ::
        && |fill| == |p.cells| && 0 <= Grown(p, fill).head < |Grown(p, fill).cells|
        && Create(p, fill) == (p', h)
    case Released(h) => InUse(events, h) && h < |p.cells| && p' == Release(p, h)
    case Set(h, v) => InUse(events, h) && h < |p.cells| && p' == SetValue(p, h, v)
    case Waited(h, t) => InUse(events, h) && h < |p.cells| && p' == Wait(p, h, t)
    case Resumed(h, _) => h < |p.cells| && p' == p
  }

  /** Cells hold what history says, also after a release and until they are created again. */
  ghost predicate Agrees(p: Pool, free: seq<nat>, events: seq<Event>, h: nat) {
    && (Live(p, free, h) <==> InUse(events, h)) && (InUse(events, h) ==> EverCreated(events, h))
    && (EverCreated(events, h) ==>
          && h < |p.cells| && p.cells[h].ready == (LastSet(events, h) != [])
          && (p.cells[h].ready ==> [p.cells[h].value] == LastSet(events, h))
          && p.cells[h].waiters == Waiting(events, h))
  }

  ghost predicate Good(p: Pool, free: seq<nat>, events: seq<Event>) {
    p.cells != [] && FreeList(p, free) && forall h: nat :: Agrees(p, free, events, h)
  }

  lemma Extend(events: seq<Event>, e: Event)
    ensures (events + [e])[..|events|] == events
  {
  }

  lemma NextGood(p: Pool, free: seq<nat>, events: seq<Event>, e: Event, p': Pool) returns (free': seq<nat>)
    requires Good(p, free, events) && Next(p, events, e, p')
    ensures Good(p', free', events + [e])
  {
    Extend(events, e);
    free' := free;
    match e
    case Created(h) =>
      var fill: seq<Cell> :| |fill| == |p.cells| && 0 <= Grown(p, fill).head < |Grown(p, fill).cells| && Create(p, fill) == (p', h);
      free' := CreateFresh(p, free, fill);
      forall k: nat
        ensures Agrees(p', free', events + [e], k)
      {
        assert Agrees(p, free, events, k);
      }
    case Released(h) =>
      assert Agrees(p, free, events, h);
      ReleaseLive(p, free, h);
      free' := [h] + free;
      forall k: nat
        ensures Agrees(p', free', events + [e], k)
      {
        assert Agrees(p, free, events, k);
      }
    case Set(h, v) =>
      assert Agrees(p, free, events, h);
      CellKeeps(p, free, h, p'.cells[h]);
      forall k: nat
        ensures Agrees(p', free', events + [e], k)
      {
        assert Agrees(p, free, events, k);
      }
    case Waited(h, t) =>
      assert Agrees(p, free, events, h);
      if !p.cells[h].ready { CellKeeps(p, free, h, p'.cells[h]); }
      forall k: nat
        ensures Agrees(p', free', events + [e], k)
      {
        assert Agrees(p, free, events, k);
      }
    case Resumed(_, _) =>
      forall k: nat
        ensures Agrees(p', free', events + [e], k)
      {
        assert Agrees(p, free, events, k);
      }
  }

  function Blank(fill: seq<Cell>): Pool
    requires |fill| == INITIAL
  {
    Pool(Linked(fill, 0, -1), 0)
  }

  lemma InitialGood(fill: seq<Cell>)
    requires |fill| == INITIAL
    ensures Good(Blank(fill), Upto(0, INITIAL), [])
  {
    GrownFree(Pool([], -1), [], fill);
    assert [] + fill == fill;
    var free := Upto(0, INITIAL);
    forall h: nat
      ensures Agrees(Blank(fill), free, [], h)
    {
      if h < INITIAL { assert free[h] == h; }
    }
  }

  ghost predicate Run(pools: seq<Pool>, events: seq<Event>) {
    && |pools| == |events| + 1
    && (exists fill: seq<Cell> :: |fill| == INITIAL && pools[0] == Blank(fill))
    && forall i :: 0 <= i < |events| ==> Next(pools[i], events[..i], events[i], pools[i + 1])
  }

  lemma {:induction false} RunGood(pools: seq<Pool>, events: seq<Event>, n: nat) returns (free: seq<nat>)
    requires Run(pools, events) && n < |pools|
    ensures Good(pools[n], free, events[..n])
  {
    if n == 0 {
      var fill: seq<Cell> :| |fill| == INITIAL && pools[0] == Blank(fill);
      InitialGood(fill);
      free := Upto(0, INITIAL);
      assert events[..0] == [];
    } else {
      free := RunGood(pools, events, n - 1);
      hide Good, Next;
      free := NextGood(pools[n - 1], free, events[..n - 1], events[n - 1], pools[n]);
      assert events[..n - 1] + [events[n - 1]] == events[..n];
    }
  }

  lemma CreatedUnused(p: Pool, free: seq<nat>, events: seq<Event>, h: nat, p': Pool)
    requires Good(p, free, events) && Next(p, events, Created(h), p')
    ensures !InUse(events, h)
  {
    var fill: seq<Cell> :| |fill| == |p.cells| && 0 <= Grown(p, fill).head < |Grown(p, fill).cells| && Create(p, fill) == (p', h);
    var free' := CreateFresh(p, free, fill);
    assert Agrees(p, free, events, h);
  }

  /** In every run, a handle that was ever created is ready exactly when a value was set since its
      last creation, and then holds the last one set; its waiters are exactly the threads that came
      since that creation and before any value; and a new handle is never one in use. */
  lemma FuturesSound(pools: seq<Pool>, events: seq<Event>, n: nat, h: nat)
    requires Run(pools, events) && n < |pools|
    ensures EverCreated(events[..n], h) ==>
      && h < |pools[n].cells| && pools[n].cells[h].ready == (LastSet(events[..n], h) != [])
      && (pools[n].cells[h].ready ==> [pools[n].cells[h].value] == LastSet(events[..n], h))
      && pools[n].cells[h].waiters == Waiting(events[..n], h)
    ensures n < |events| && events[n] == Created(h) ==> !InUse(events[..n], h)
  {
    var free := RunGood(pools, events, n);
    assert Agrees(pools[n], free, events[..n], h);
    if n < |events| && events[n] == Created(h) {
      assert Next(pools[n], events[..n], events[n], pools[n + 1]);
      CreatedUnused(pools[n], free, events[..n], h, pools[n + 1]);
    }
  }

  // ---------------------------------------------------------------- the array itself

  class FutureState {
    var cells: array<Cell>
    var max: nat
    var freelist: int

    ghost predicate Valid()
      reads this, cells
    {
      max == cells.Length > 0 && exists free :: FreeList(Abs(), free)
    }

    ghost function Abs(): Pool
      reads this, cells
    {
      Pool(cells[..], freelist)
    }

    constructor ()
      ensures Valid() && fresh(cells) && exists fill: seq<Cell> :: |fill| == INITIAL && Abs() == Blank(fill)
    {
      max, freelist := INITIAL, -1;
      cells := new Cell[INITIAL](_ => Cell(false, 0, [], 0));
      new;
      ghost var fill: seq<Cell> := cells[..];
      GrownFree(Pool([], -1), [], fill);
      assert [] + fill == fill;
      AddedFutures(0, INITIAL);
      assert Abs() == Blank(fill);
      assert FreeList(Abs(), Upto(0, INITIAL));
    }

    method AddedFutures(lo: nat, hi: nat)
      requires lo < hi == cells.Length
      modifies this`freelist, cells
      ensures cells[..] == Linked(old(cells[..]), lo, old(freelist)) && freelist == lo
    {
      var i := lo;
      while i < hi
        modifies cells
        invariant lo <= i <= hi
        invariant forall k :: 0 <= k < hi ==> cells[k] == if lo <= k < i then old(cells[k]).(next := k + 1) else old(cells[k])
      {
        cells[i] := cells[i].(next := i + 1);
        i := i + 1;
      }
      cells[hi - 1] := cells[hi - 1].(next := freelist);
      freelist := lo;
    }

    /** Reallocation to twice the size keeps the contents of the old cells. */
    method Grow()
      requires Valid() && freelist == -1
      modifies this
      ensures fresh(cells) && max == cells.Length == 2 * old(max)
      ensures exists fill: seq<Cell> :: |fill| == old(max) && Abs() == Grown(old(Abs()), fill)
    {
      var origsize := max;
      max := max * 2;
      var bigger := new Cell[max](_ => Cell(false, 0, [], 0));
      var i := 0;
      while i < origsize
        modifies bigger
        invariant i <= origsize && forall k :: 0 <= k < i ==> bigger[k] == cells[k]
      {
        bigger[i] := cells[i];
        i := i + 1;
      }
      ghost var fill: seq<Cell> := bigger[origsize..];
      assert bigger[..] == cells[..] + fill;
      cells := bigger;
      AddedFutures(origsize, max);
      assert Abs() == Grown(old(Abs()), fill);
    }

    method CreateFuture() returns (handle: int)
      requires Valid()
      modifies this, cells
      ensures exists fill: seq<Cell> ::
        && |fill| == old(max) && 0 <= Grown(old(Abs()), fill).head < |Grown(old(Abs()), fill).cells|
        && Create(old(Abs()), fill) == (Abs(), handle)
      ensures Valid()
    {
      ghost var p := Abs();
      ghost var free :| FreeList(p, free);
      ghost var fill: seq<Cell> := seq(max, _ => Cell(false, 0, [], 0));
      if freelist == -1 {
        Grow();
        fill :| |fill| == old(max) && Abs() == Grown(p, fill);
      }
      ghost var free' := CreateFresh(p, free, fill);
      handle := freelist;
      freelist := cells[handle].next;
      cells[handle] := Cell(false, 0, [], 0);
      assert Abs() == Create(p, fill).0;
    }

    /** The free list stays one exactly if the handle was not on it. */
    method ReleaseFuture(handle: nat)
      requires Valid() && handle < max
      modifies this`freelist, cells
      ensures Abs() == Release(old(Abs()), handle)
      ensures forall free :: FreeList(old(Abs()), free) ==> (Valid() <==> handle !in free)
    {
      ghost var p := Abs();
      cells[handle] := cells[handle].(next := freelist);
      freelist := handle;
      assert Abs() == Release(p, handle);
      forall free | FreeList(p, free)
        ensures Valid() <==> handle !in free
      {
        ReleaseIff(p, free, handle);
      }
    }

    /** Wakes every thread waiting for the value. */
    method SetFuture(handle: nat, value: int) returns (awakened: seq<Tid>)
      requires Valid() && handle < max
      modifies cells
      ensures Abs() == SetValue(old(Abs()), handle, value) && awakened == old(cells[handle].waiters)
    {
      cells[handle] := cells[handle].(ready := true, value := value);
      awakened := [];
      var t := 0;
      while t < |cells[handle].waiters|
        invariant t <= |cells[handle].waiters| && awakened == cells[handle].waiters[..t]
      {
        awakened := awakened + [cells[handle].waiters[t]];
        t := t + 1;
      }
      cells[handle] := cells[handle].(waiters := []);
      assert Abs() == SetValue(old(Abs()), handle, value);
    }

    /** A resumed thread looks at the cell again, in whatever array there is now: `done` with the
        value, or it suspends once more, without joining the waiters. */
    method ResumeWait(handle: nat) returns (done: bool, value: int)
      requires Valid() && handle < max
      ensures done == Abs().cells[handle].ready && (done ==> value == Abs().cells[handle].value)
    {
      done, value := cells[handle].ready, cells[handle].value;
    }

    /** `done` with the value, or the thread has joined the waiters. */
    method WaitFuture(handle: nat, self: Tid) returns (done: bool, value: int)
      requires Valid() && handle < max
      modifies cells
      ensures Abs() == Wait(old(Abs()), handle, self)
      ensures done == old(cells[handle]).ready && (done ==> value == old(cells[handle]).value)
    {
      done, value := cells[handle].ready, cells[handle].value;
      if !done {
        cells[handle] := cells[handle].(waiters := [self] + cells[handle].waiters);
      }
      assert Abs() == Wait(old(Abs()), handle, self);
    }
  }
}
