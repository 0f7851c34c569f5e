/** Per-object message queues: each message is represented by a token that sits both in the
    scheduler's queue and in its object's queue, and comes from a pool.
 */
module ObjQueue {
  import opened Options
  import opened Seqs

  type Tid = nat
  type Obj = nat
  type Msg = nat

  datatype Tok = Tok(obj: Obj, message: Option<Msg>)

  /** `queues` has the objects alive; `sent` and `released` are, per object, the messages put in
      its queue and those handed on for execution; `freed` are tokens given back to the allocator. */
  datatype Sys = Sys(toks: map<Tid, Tok>, pool: seq<Tid>, freed: set<Tid>, sched: seq<Tid>,
                     queues: map<Obj, seq<Tid>>, sent: map<Obj, seq<Msg>>, released: map<Obj, seq<Msg>>)

  const MAXMSGS := 32

  function At<K, V>(m: map<K, seq<V>>, k: K): seq<V> {
    if k in m then m[k] else []
  }

  // ---------------------------------------------------------------- operations

  /** SafePool.put: a full pool gives the token back to the allocator. */
  function Put(s: Sys, t: Tid): Sys {
    if |s.pool| == MAXMSGS then s.(freed := s.freed + {t}) else s.(pool := s.pool + [t])
  }

  /** _enqObjQueue, with the token the pool or the allocator gave. */
  function Enq(s: Sys, o: Obj, m: Msg, t: Tid): Sys {
    s.(toks := s.toks[t := Tok(o, Some(m))],
       pool := if s.pool == [] then [] else s.pool[..|s.pool| - 1],
       sched := s.sched + [t],
       queues := s.queues[o := At(s.queues, o) + [t]],
       sent := s.sent[o := At(s.sent, o) + [m]])
  }

  /** One turn of the drain loop: a full token releases its message, an empty one goes back. */
  function DrainOne(s: Sys, o: Obj, t: Tid): Sys {
    if t in s.toks && s.toks[t].message.Some? then
      s.(toks := s.toks[t := s.toks[t].(message := None)],
         released := s.released[o := At(s.released, o) + [s.toks[t].message.value]])
    else Put(s, t)
  }

  /** The drain loop of process over the tokens taken off an object's queue, first to last. */
  function Drain(s: Sys, o: Obj, q: seq<Tid>): Sys {
    if q == [] then s else DrainOne(Drain(s, o, q[..|q| - 1]), o, q[|q| - 1])
  }

  function Process(s: Sys, o: Obj): Sys {
    if o in s.queues then Drain(s.(queues := s.queues[o := []]), o, s.queues[o]) else s
  }

  /** _TokenHandler on the i-th token of the scheduler. */
  function Handle(s: Sys, i: nat): Sys
    requires i < |s.sched| && s.sched[i] in s.toks
  {
    var t := s.sched[i];
    var s1 := Put(s.(sched := Seqs.Drop(s.sched, i)), t);
    if s.toks[t].message.None? then s1 else Process(s1, s.toks[t].obj)
  }

  /** The destructor of an object's queue. */
  function Destroy(s: Sys, o: Obj): Sys {
    var s1 := Process(s, o);
    s1.(queues := s1.queues - {o})
  }

  // ---------------------------------------------------------------- invariant

  ghost function Freed(s: Sys, t: Tid): nat { if t in s.freed then 1 else 0 }

  /** A token is in the scheduler, in the pool, or freed: exactly one of them, once. */
  ghost predicate Accounted(s: Sys, t: Tid) {
    Occ(s.sched, t) + Occ(s.pool, t) + Freed(s, t) == if t in s.toks then 1 else 0
  }

  ghost predicate Waiting(s: Sys, o: Obj, t: Tid) {
    t in s.sched && t in s.toks && s.toks[t].obj == o && s.toks[t].message.Some?
  }

  /** What an object's queue holds is exactly the scheduled tokens with a message for it. */
  ghost predicate QueueOk(s: Sys, o: Obj) {
    && Distinct(At(s.queues, o))
    && forall t :: t in At(s.queues, o) <==> Waiting(s, o, t)
  }

  ghost function Messages(toks: map<Tid, Tok>, q: seq<Tid>): seq<Msg> {
    if q == [] then []
    else Messages(toks, q[..|q| - 1]) + if q[|q| - 1] in toks && toks[q[|q| - 1]].message.Some? then [toks[q[|q| - 1]].message.value] else []
  }

  /** Messages are released in the order they were sent; the rest is still queued. */
  ghost predicate InOrder(s: Sys, o: Obj) {
    At(s.sent, o) == At(s.released, o) + Messages(s.toks, At(s.queues, o))
  }

  ghost predicate Good(s: Sys) {
    && |s.pool| <= MAXMSGS
    && (forall t :: Accounted(s, t))
    && (forall o :: QueueOk(s, o))
    && (forall o :: InOrder(s, o))
  }

  // ---------------------------------------------------------------- draining

  /** Tokens with their messages taken. */
  ghost function Emptied(toks: map<Tid, Tok>, q: seq<Tid>): map<Tid, Tok> {
    map t | t in toks :: if t in q then toks[t].(message := None) else toks[t]
  }

  lemma {:induction false} MessagesSame(toks: map<Tid, Tok>, toks': map<Tid, Tok>, q: seq<Tid>)
    requires forall t :: t in q ==> (t in toks <==> t in toks') && (t in toks ==> toks[t].message == toks'[t].message)
    ensures Messages(toks, q) == Messages(toks', q)
  {
    if q != [] {
      assert forall t :: t in q[..|q| - 1] ==> t in q;
      MessagesSame(toks, toks', q[..|q| - 1]);
    }
  }

  lemma Init(q: seq<Tid>)
    requires q != [] && Distinct(q)
    ensures var (front, t) := (q[..|q| - 1], q[|q| - 1]);
      Distinct(front) && t !in front && forall x :: x in q <==> x in front || x == t
  {
    assert q == q[..|q| - 1] + [q[|q| - 1]];
  }

  lemma EmptiedOne(toks: map<Tid, Tok>, q: seq<Tid>)
    requires q != [] && Distinct(q) && q[|q| - 1] in toks
    ensures var t := q[|q| - 1];
      var toks' := Emptied(toks, q[..|q| - 1]);
      t in toks' && toks'[t] == toks[t] && toks'[t := toks[t].(message := None)] == Emptied(toks, q)
  {
    Init(q);
    hide Distinct;
  }

  /** Draining full tokens releases their messages in order and returns none to the pool. */
  lemma {:induction false} DrainAll(s: Sys, o: Obj, q: seq<Tid>)
    requires Distinct(q) && forall t :: t in q ==> t in s.toks && s.toks[t].message.Some?
    ensures var s' := Drain(s, o, q);
      && s' == s.(toks := Emptied(s.toks, q), released := s'.released)
      && At(s'.released, o) == At(s.released, o) + Messages(s.toks, q)
      && forall o' :: o' != o ==> At(s'.released, o') == At(s.released, o')
  {
    if q == [] {
      assert Emptied(s.toks, q) == s.toks;
    } else {
      var front, t := q[..|q| - 1], q[|q| - 1];
      Init(q);
      assert t in q;
      EmptiedOne(s.toks, q);
      var s1 := Drain(s, o, front);
      assert Drain(s, o, q) == DrainOne(s1, o, t);
      assert Messages(s.toks, q) == Messages(s.toks, front) + [s.toks[t].message.value];
      hide Distinct, Emptied, Messages, Drain;
      DrainAll(s, o, front);
    }
  }

  // ---------------------------------------------------------------- steps

  datatype Event = Send(obj: Obj, msg: Msg, tok: Tid) | Take(i: nat) | Create(obj: Obj) | Delete(obj: Obj)

  ghost predicate Enabled(s: Sys, e: Event) {
    match e
    case Send(o, _, t) => o in s.queues && (if s.pool == [] then t !in s.toks else t == s.pool[|s.pool| - 1])
    case Take(i) => i < |s.sched| && s.sched[i] in s.toks
    case Create(o) => o !in s.sent
    case Delete(o) => o in s.queues
  }

  ghost function Step(s: Sys, e: Event): Sys
    requires Enabled(s, e)
  {
    match e
    case Send(o, m, t) => Enq(s, o, m, t)
    case Take(i) => Handle(s, i)
    case Create(o) => s.(queues := s.queues[o := []], sent := s.sent[o := []])
    case Delete(o) => Destroy(s, o)
  }

  lemma SendGood(s: Sys, o: Obj, m: Msg, t: Tid)
    requires Good(s) && Enabled(s, Send(o, m, t))
    ensures Good(Enq(s, o, m, t))
  {
    var s' := Enq(s, o, m, t);
    FreshToken(s, o, m, t);
    forall x
      ensures Accounted(s', x)
    {
      SendAccounted(s, o, m, t, x);
    }
    hide Accounted;
    forall o'
      ensures QueueOk(s', o') && InOrder(s', o')
    {
      SendQueue(s, o, m, t, o');
    }
  }

  /** The token obtained is not in use. */
  lemma FreshToken(s: Sys, o: Obj, m: Msg, t: Tid)
    requires Good(s) && Enabled(s, Send(o, m, t))
    ensures t !in s.sched && t !in s.freed
  {
    assert Accounted(s, t);
    OccIn(s.sched, t);
    OccIn(s.pool, t);
  }

  lemma SendAccounted(s: Sys, o: Obj, m: Msg, t: Tid, x: Tid)
    requires Good(s) && Enabled(s, Send(o, m, t))
    ensures Accounted(Enq(s, o, m, t), x)
  {
    hide Occ;
    assert Accounted(s, x) && Accounted(s, t);
    OccConcat(s.sched, [t], x);
    OccOne(t, x);
    if s.pool != [] {
      OccSplit(s.pool, |s.pool| - 1, x);
      OccIn(s.pool, t);
      OccNone(s.pool[|s.pool|..], x);
    }
    OccNone([], x);
  }

  lemma OccNone(q: seq<Tid>, x: Tid)
    requires q == []
    ensures Occ(q, x) == 0
  {
  }

  lemma SendQueue(s: Sys, o: Obj, m: Msg, t: Tid, o': Obj)
    requires Good(s) && Enabled(s, Send(o, m, t)) && t !in s.sched
    ensures var s' := Enq(s, o, m, t); QueueOk(s', o') && InOrder(s', o')
  {
    assert QueueOk(s, o') && InOrder(s, o');
    hide Good;
    if o' == o { SendSame(s, o, m, t); } else { SendOther(s, o, m, t, o'); }
  }

  lemma SendOther(s: Sys, o: Obj, m: Msg, t: Tid, o': Obj)
    requires QueueOk(s, o') && InOrder(s, o') && t !in s.sched && o' != o
    ensures var s' := Enq(s, o, m, t); QueueOk(s', o') && InOrder(s', o')
  {
    var s', q := Enq(s, o, m, t), At(s.queues, o');
    assert t !in q by { assert !Waiting(s, o', t); }
    MessagesSame(s.toks, s'.toks, q);
    assert forall x :: Waiting(s', o', x) <==> Waiting(s, o', x);
    hide Distinct, Messages;
  }

  lemma SendSame(s: Sys, o: Obj, m: Msg, t: Tid)
    requires QueueOk(s, o) && InOrder(s, o) && t !in s.sched
    ensures var s' := Enq(s, o, m, t); QueueOk(s', o) && InOrder(s', o)
  {
    var s', q := Enq(s, o, m, t), At(s.queues, o);
    assert t !in q by { assert !Waiting(s, o, t); }
    assert At(s'.queues, o) == q + [t] && At(s'.sent, o) == At(s.sent, o) + [m];
    AppendMessage(s.toks, s'.toks, q, t, m);
    AppendDistinct(q, t);
    hide Messages, Distinct;
    assert At(s.released, o) + (Messages(s.toks, q) + [m]) == At(s.released, o) + Messages(s.toks, q) + [m];
    forall x
      ensures x in q + [t] <==> Waiting(s', o, x)
    {
      assert x in q <==> Waiting(s, o, x);
    }
  }

  lemma AppendDistinct(q: seq<Tid>, t: Tid)
    requires Distinct(q) && t !in q
    ensures Distinct(q + [t])
  {
  }

  lemma AppendMessage(toks: map<Tid, Tok>, toks': map<Tid, Tok>, q: seq<Tid>, t: Tid, m: Msg)
    requires t !in q && t in toks' && toks' == toks[t := toks'[t]] && toks'[t].message == Some(m)
    ensures Messages(toks', q + [t]) == Messages(toks, q) + [m]
  {
    MessagesSame(toks, toks', q);
    assert (q + [t])[..|q|] == q;
  }

  lemma ProcessEffect(s: Sys, o: Obj)
    requires o in s.queues && Distinct(s.queues[o])
    requires forall t :: t in s.queues[o] ==> t in s.toks && s.toks[t].message.Some?
    ensures var s' := Process(s, o);
      && s' == s.(toks := Emptied(s.toks, s.queues[o]), released := s'.released, queues := s.queues[o := []])
      && At(s'.released, o) == At(s.released, o) + Messages(s.toks, s.queues[o])
      && forall o' :: o' != o ==> At(s'.released, o') == At(s.released, o')
  {
    DrainAll(s.(queues := s.queues[o := []]), o, s.queues[o]);
  }

  lemma PutAccounted(s: Sys, i: nat, x: Tid)
    requires i < |s.sched| && s.sched[i] in s.toks && Accounted(s, x) && Accounted(s, s.sched[i])
    ensures Accounted(Put(s.(sched := Drop(s.sched, i)), s.sched[i]), x)
  {
    hide Occ;
    OccSplit(s.sched, i, x);
    OccSplit(s.sched, i, s.sched[i]);
    OccConcat(s.pool, [s.sched[i]], x);
    OccOne(s.sched[i], x);
  }

  /** Once a token has left the scheduler, only it can be out of place. */
  lemma DropSched(s: Sys, i: nat, t: Tid)
    requires Good(s) && i < |s.sched|
    ensures t in Drop(s.sched, i) <==> t in s.sched && t != s.sched[i]
  {
    assert Accounted(s, t) && Accounted(s, s.sched[i]);
    hide Occ;
    OccSplit(s.sched, i, t);
    OccSplit(s.sched, i, s.sched[i]);
    OccIn(s.sched, t);
    OccIn(Drop(s.sched, i), t);
  }

  /** A token still holding a message belongs to an object that is alive: so the handler only
      goes to objects that exist. */
  lemma TokenMeansAlive(s: Sys, i: nat)
    requires Good(s) && i < |s.sched| && s.sched[i] in s.toks && s.toks[s.sched[i]].message.Some?
    ensures s.toks[s.sched[i]].obj in s.queues && s.sched[i] in s.queues[s.toks[s.sched[i]].obj]
  {
    var t := s.sched[i];
    assert QueueOk(s, s.toks[t].obj) && Waiting(s, s.toks[t].obj, t);
  }

  lemma EmptyToken(s: Sys, i: nat)
    requires Good(s) && i < |s.sched| && s.sched[i] in s.toks && s.toks[s.sched[i]].message.None?
    ensures Good(Handle(s, i))
  {
    var s' := Handle(s, i);
    forall x
      ensures Accounted(s', x)
    {
      assert Accounted(s, x) && Accounted(s, s.sched[i]);
      PutAccounted(s, i, x);
    }
    forall o
      ensures QueueOk(s', o) && InOrder(s', o)
    {
      assert QueueOk(s, o) && InOrder(s, o);
      forall t
        ensures Waiting(s', o, t) <==> Waiting(s, o, t)
      {
        DropSched(s, i, t);
      }
    }
    hide Accounted;
  }

  /** After draining object o: its tokens are empty, everyone else's untouched. */
  lemma DrainedQueue(s: Sys, s': Sys, o: Obj, gone: set<Tid>, o': Obj)
    requires QueueOk(s, o') && QueueOk(s, o) && InOrder(s, o') && o in s.queues
    requires s'.toks == Emptied(s.toks, s.queues[o]) && s'.queues == s.queues[o := []] && s'.sent == s.sent
    requires forall t :: t in s'.sched <==> t in s.sched && t !in gone
    requires forall t :: t in gone ==> t in s.queues[o]
    requires At(s'.released, o) == At(s.released, o) + Messages(s.toks, s.queues[o])
    requires forall x :: x != o ==> At(s'.released, x) == At(s.released, x)
    ensures QueueOk(s', o') && InOrder(s', o')
  {
    var q := At(s.queues, o');
    if o' == o {
      assert forall t :: !Waiting(s', o, t) by {
        forall t | Waiting(s', o, t)
          ensures false
        {
          assert Waiting(s, o, t);
        }
      }
    } else {
      forall t
        ensures Waiting(s', o', t) <==> Waiting(s, o', t)
      {
        if t in s.queues[o] { assert Waiting(s, o, t); }
      }
      MessagesSame(s.toks, s'.toks, q);
    }
  }

  lemma FullToken(s: Sys, i: nat)
    requires Good(s) && i < |s.sched| && s.sched[i] in s.toks && s.toks[s.sched[i]].message.Some?
    ensures Good(Handle(s, i))
  {
    var t := s.sched[i];
    var o := s.toks[t].obj;
    TokenMeansAlive(s, i);
    var s1 := Put(s.(sched := Drop(s.sched, i)), t);
    assert QueueOk(s, o);
    forall x | x in s1.queues[o]
      ensures x in s1.toks && s1.toks[x].message.Some?
    {
      assert Waiting(s, o, x);
    }
    ProcessEffect(s1, o);
    var s' := Handle(s, i);
    forall x
      ensures Accounted(s', x) && (x in s'.sched <==> x in s.sched && x !in {t})
    {
      assert Accounted(s, x) && Accounted(s, t);
      PutAccounted(s, i, x);
      DropSched(s, i, x);
    }
    hide Accounted, Process;
    forall o'
      ensures QueueOk(s', o') && InOrder(s', o')
    {
      DrainedQueue(s, s', o, {t}, o');
    }
  }

  lemma DeleteGood(s: Sys, o: Obj)
    requires Good(s) && o in s.queues
    ensures Good(Destroy(s, o))
  {
    assert QueueOk(s, o);
    forall x | x in s.queues[o]
      ensures x in s.toks && s.toks[x].message.Some?
    {
      assert Waiting(s, o, x);
    }
    ProcessEffect(s, o);
    var s1, s' := Process(s, o), Destroy(s, o);
    forall x
      ensures Accounted(s', x)
    {
      assert Accounted(s, x);
    }
    hide Accounted, Process;
    forall o'
      ensures QueueOk(s', o') && InOrder(s', o')
    {
      DrainedQueue(s, s1, o, {}, o');
      assert At(s'.queues, o') == At(s1.queues, o');
      assert forall t :: Waiting(s', o', t) <==> Waiting(s1, o', t);
    }
  }

  lemma CreateGood(s: Sys, o: Obj)
    requires Good(s) && o !in s.sent
    ensures Good(Step(s, Create(o)))
  {
    var s' := Step(s, Create(o));
    assert QueueOk(s, o) && InOrder(s, o);
    NoMessages(s, o);
    forall x
      ensures Accounted(s', x)
    {
      assert Accounted(s, x);
    }
    hide Accounted;
    forall o'
      ensures QueueOk(s', o') && InOrder(s', o')
    {
      assert QueueOk(s, o') && InOrder(s, o');
      assert forall t :: Waiting(s', o', t) <==> Waiting(s, o', t);
    }
  }

  /** An object nothing was sent to has nothing queued. */
  lemma NoMessages(s: Sys, o: Obj)
    requires QueueOk(s, o) && InOrder(s, o) && o !in s.sent
    ensures At(s.queues, o) == [] && At(s.released, o) == []
  {
    var q := At(s.queues, o);
    assert q != [] ==> q[|q| - 1] in q;
    assert q != [] ==> Waiting(s, o, q[|q| - 1]);
  }

  lemma StepGood(s: Sys, e: Event)
    requires Good(s) && Enabled(s, e)
    ensures Good(Step(s, e))
  {
    hide Good, Enq, Handle, Destroy;
    match e
    case Send(o, m, t) => SendGood(s, o, m, t);
    case Take(i) => if s.toks[s.sched[i]].message.None? { EmptyToken(s, i); } else { FullToken(s, i); }
    case Create(o) => CreateGood(s, o);
    case Delete(o) => DeleteGood(s, o);
  }

  ghost predicate Initial(s: Sys) {
    && |s.pool| == MAXMSGS && Distinct(s.pool) && s.freed == {} && s.sched == []
    && (forall t :: t in s.toks <==> t in s.pool)
    && s.queues == map[] && s.sent == map[] && s.released == map[]
  }

  ghost predicate Run(states: seq<Sys>, events: seq<Event>) {
    && |states| == |events| + 1 && Initial(states[0])
    && forall i :: 0 <= i < |events| ==> Enabled(states[i], events[i]) && states[i + 1] == Step(states[i], events[i])
  }

  lemma InitialGood(s: Sys)
    requires Initial(s)
    ensures Good(s)
  {
    forall t
      ensures Accounted(s, t)
    {
      OccIn(s.pool, t);
      if Occ(s.pool, t) >= 2 { Twice(s.pool, t); }
    }
  }

  lemma {:induction false} Twice(q: seq<Tid>, t: Tid)
    requires Occ(q, t) >= 2
    ensures !Distinct(q)
  {
    var k := |q| - 1;
    if q[k] == t {
      OccIn(q[..k], t);
      var i :| 0 <= i < k && q[..k][i] == t;
      assert q[i] == q[k];
    } else {
      Twice(q[..k], t);
      var i, j :| 0 <= i < j < k && q[..k][i] == q[..k][j];
      assert q[i] == q[j];
    }
  }

  lemma {:induction false} RunGood(states: seq<Sys>, events: seq<Event>, n: nat)
    requires Run(states, events) && n < |states|
    ensures Good(states[n])
  {
    hide Good, Step, Enabled, Initial;
    if n == 0 {
      InitialGood(states[0]);
    } else {
      RunGood(states, events, n - 1);
      StepGood(states[n - 1], events[n - 1]);
    }
  }

  /** In every run: a scheduled token holds a message exactly while it is in its object's queue,
      and that object is alive; an object's messages are released once each in the order sent;
      and every token is in the scheduler, in the pool or freed, once. */
  lemma TokensSound(states: seq<Sys>, events: seq<Event>, n: nat, o: Obj, t: Tid)
    requires Run(states, events) && n < |states|
    ensures var s := states[n];
      && (t in At(s.queues, o) <==> t in s.sched && t in s.toks && s.toks[t].obj == o && s.toks[t].message.Some?)
      && At(s.sent, o) == At(s.released, o) + Messages(s.toks, At(s.queues, o))
      && Occ(s.sched, t) + Occ(s.pool, t) + Freed(s, t) == if t in s.toks then 1 else 0
  {
    RunGood(states, events, n);
    hide Run;
    assert QueueOk(states[n], o) && InOrder(states[n], o) && Accounted(states[n], t);
  }

  /** The handler returns its token before draining the queue the token is still in.  So it drains
      a token that went back to the allocator exactly when the token held a message and the pool
      was full. */
  lemma DrainsFreedIff(states: seq<Sys>, events: seq<Event>, n: nat, i: nat)
    requires Run(states, events) && n < |states| && i < |states[n].sched| && states[n].sched[i] in states[n].toks
    ensures var (s, t) := (states[n], states[n].sched[i]);
      var s1 := Put(s.(sched := Drop(s.sched, i)), t);
      (s.toks[t].message.Some? && exists x :: x in At(s1.queues, s.toks[t].obj) && x in s1.freed)
        <==> s.toks[t].message.Some? && |s.pool| == MAXMSGS
  {
    RunGood(states, events, n);
    hide Run;
    var s, t := states[n], states[n].sched[i];
    if s.toks[t].message.Some? {
      TokenMeansAlive(s, i);
      forall x | x in At(s.queues, s.toks[t].obj)
        ensures x !in s.freed
      {
        assert QueueOk(s, s.toks[t].obj) && Waiting(s, s.toks[t].obj, x);
        assert Accounted(s, x);
        OccIn(s.sched, x);
      }
    }
  }
}
