/** The token pool and an object's message queue as objects, with tokens shared between the
    queue, the pool and the scheduler.
 */
module ObjectMsgQ {
  import opened Options
  import opened Seqs
  import opened ObjQueue

  class ObjectToken {
    var objPtr: Obj
    var message: Option<Msg>

    constructor ()
      ensures objPtr == 0 && message == None
    {
      objPtr, message := 0, None;
    }
  }

  /** Returning a token to a pool of limited size. */
  function PutOne<T>(pool: seq<T>, t: T): seq<T> {
    if |pool| == MAXMSGS then pool else pool + [t]
  }

  class TokenPool {
    const msgs: array<ObjectToken>
    var num: nat

    ghost predicate Valid()
      reads this
    {
      msgs.Length == MAXMSGS && num <= MAXMSGS
    }

    ghost function Contents(): seq<ObjectToken>
      requires Valid()
      reads this, msgs
    {
      msgs[..num]
    }

    constructor (tokens: array<ObjectToken>)
      requires tokens.Length == MAXMSGS
      ensures Valid() && msgs == tokens && Contents() == tokens[..]
    {
      msgs, num := tokens, MAXMSGS;
    }

    /** From the pool, or newly allocated when it is empty. */
    method Get() returns (t: ObjectToken)
      requires Valid()
      modifies this
      ensures Valid()
      ensures if old(num) > 0 then t == old(Contents())[old(num) - 1] && Contents() == old(Contents())[..old(num) - 1]
              else fresh(t) && Contents() == []
    {
      if num > 0 {
        num := num - 1;
        t := msgs[num];
      } else {
        t := new ObjectToken();
      }
    }

    method Put(t: ObjectToken) returns (freed: bool)
      requires Valid()
      modifies this, msgs
      ensures Valid() && freed == (old(num) == MAXMSGS) && Contents() == PutOne(old(Contents()), t)
    {
      if num == MAXMSGS { return true; }
      msgs[num] := t;
      num := num + 1;
      return false;
    }
  }

  /** The messages among what tokens hold, in order. */
  function Present(ms: seq<Option<Msg>>): seq<Msg> {
    if ms == [] then [] else Present(ms[..|ms| - 1]) + if ms[|ms| - 1].Some? then [ms[|ms| - 1].value] else []
  }

  /** The pool after the tokens without a message were returned to it. */
  function Returned<T>(pool: seq<T>, ts: seq<T>, ms: seq<Option<Msg>>): seq<T>
    requires |ts| == |ms|
  {
    if ts == [] then pool
    else
      var before := Returned(pool, ts[..|ts| - 1], ms[..|ts| - 1]);
      if ms[|ts| - 1].None? then PutOne(before, ts[|ts| - 1]) else before
  }

  lemma {:induction false} NoneReturned<T>(pool: seq<T>, ts: seq<T>, ms: seq<Option<Msg>>)
    requires |ts| == |ms| && forall i :: 0 <= i < |ms| ==> ms[i].Some?
    ensures Returned(pool, ts, ms) == pool && |Present(ms)| == |ms| && forall i :: 0 <= i < |ms| ==> Present(ms)[i] == ms[i].value
  {
    if ts != [] { NoneReturned(pool, ts[..|ts| - 1], ms[..|ts| - 1]); }
  }

  /** The drain loop of the queue is the drain of the abstract system: the same messages released,
      the same tokens returned to the pool. */
  lemma {:induction false} DrainIsProcess(s: Sys, o: Obj, q: seq<Tid>, ms: seq<Option<Msg>>)
    requires |ms| == |q| && Distinct(q) && forall i :: 0 <= i < |q| ==> q[i] in s.toks && s.toks[q[i]].message == ms[i]
    ensures var s' := Drain(s, o, q);
      && s'.pool == Returned(s.pool, q, ms) && At(s'.released, o) == At(s.released, o) + Present(ms)
      && s'.toks == Emptied(s.toks, q)
  {
    if q == [] {
      assert Emptied(s.toks, q) == s.toks;
    } else {
      var k := |q| - 1;
      Init(q);
      EmptiedOne(s.toks, q);
      assert ms[k].None? ==> Emptied(s.toks, q[..k]) == Emptied(s.toks, q);
      var s1 := Drain(s, o, q[..k]);
      assert Drain(s, o, q) == DrainOne(s1, o, q[k]);
      assert Present(ms) == Present(ms[..k]) + if ms[k].Some? then [ms[k].value] else [];
      hide Distinct, Emptied, Drain, Present;
      DrainIsProcess(s, o, q[..k], ms[..k]);
    }
  }

  ghost function Held(q: seq<ObjectToken>): seq<Option<Msg>>
    reads q
  {
    seq(|q|, i requires 0 <= i < |q| reads q => q[i].message)
  }

  lemma NothingYet<T>(pool: seq<T>, q: seq<T>, ms: seq<Option<Msg>>)
    requires |q| == |ms|
    ensures Present(ms[..0]) == [] && Returned(pool, q[..0], ms[..0]) == pool
  {
  }

  lemma OneMore<T>(pool: seq<T>, q: seq<T>, ms: seq<Option<Msg>>, k: nat)
    requires k < |q| == |ms|
    ensures q[k..][0] == q[k] && q[k..][1..] == q[k + 1..]
    ensures Present(ms[..k + 1]) == Present(ms[..k]) + if ms[k].Some? then [ms[k].value] else []
    ensures Returned(pool, q[..k + 1], ms[..k + 1]) ==
            if ms[k].None? then PutOne(Returned(pool, q[..k], ms[..k]), q[k]) else Returned(pool, q[..k], ms[..k])
  {
    assert ms[..k + 1][..k] == ms[..k] && q[..k + 1][..k] == q[..k];
  }

  ghost predicate AllDistinct(q: seq<ObjectToken>) {
    forall i, j :: 0 <= i < j < |q| ==> q[i] != q[j]
  }

  class CkObjectMsgQ {
    var objQ: seq<ObjectToken>

    constructor ()
      ensures objQ == []
    {
      objQ := [];
    }

    /** One token off the queue: its message, or back to the pool with it. */
    static method TakeMessage(tok: ObjectToken, pool: TokenPool) returns (message: Option<Msg>)
      requires pool.Valid()
      modifies tok`message, pool, pool.msgs
      ensures pool.Valid() && message == old(tok.message) && tok.message == None
      ensures pool.Contents() == if message.None? then PutOne(old(pool.Contents()), tok) else old(pool.Contents())
    {
      message := tok.message;
      if message.Some? {
        tok.message := None;
      } else {
        var freed := pool.Put(tok);
      }
    }

    /** Takes every token off the queue: those with a message release it, those without go back
        to the pool. */
    method Process(pool: TokenPool) returns (released: seq<Msg>)
      requires pool.Valid() && AllDistinct(objQ)
      modifies this, objQ, pool, pool.msgs
      ensures pool.Valid() && objQ == [] && released == Present(old(Held(objQ)))
      ensures forall i :: 0 <= i < |old(objQ)| ==> old(objQ)[i].message == None
      ensures pool.Contents() == Returned(old(pool.Contents()), old(objQ), old(Held(objQ)))
    {
      ghost var q, ms := objQ, Held(objQ);
      assert |ms| == |q| && forall i :: 0 <= i < |q| ==> ms[i] == q[i].message;
      hide PutOne, Held, Present, Returned;
      ghost var k: nat := 0;
      released := [];
      NothingYet(pool.Contents(), q, ms);
      while objQ != []
        invariant k <= |q| && objQ == q[k..] && pool.Valid()
        invariant forall i :: 0 <= i < k ==> q[i].message == None
        invariant forall i :: k <= i < |q| ==> q[i].message == ms[i]
        invariant released == Present(ms[..k])
        invariant pool.Contents() == Returned(old(pool.Contents()), q[..k], ms[..k])
        decreases |objQ|
      {
        OneMore(old(pool.Contents()), q, ms, k);
        var tok := objQ[0];
        objQ := objQ[1..];
        var message := TakeMessage(tok, pool);
        if message.Some? { released := released + [message.value]; }
        k := k + 1;
      }
      assert q[..k] == q && ms[..k] == ms;
    }

    /** _enqObjQueue: the same token goes to the scheduler and to this queue. */
    method Enqueue(obj: Obj, env: Msg, pool: TokenPool) returns (token: ObjectToken)
      requires pool.Valid()
      requires forall i :: 0 <= i < pool.num ==> pool.msgs[i] !in objQ
      modifies this, pool, pool.Contents()
      ensures pool.Valid() && objQ == old(objQ) + [token] && token !in old(objQ)
      ensures token.objPtr == obj && token.message == Some(env)
      ensures Held(objQ) == old(Held(objQ)) + [Some(env)]
    {
      token := pool.Get();
      token.objPtr, token.message := obj, Some(env);
      objQ := objQ + [token];
    }
  }

  /** _TokenHandler.  `q` is the queue of the token's object, null if the object is gone; it is
      only looked at when the token holds a message. */
  method HandleToken(token: ObjectToken, q: CkObjectMsgQ?, pool: TokenPool) returns (released: seq<Msg>, freed: bool)
    requires pool.Valid()
    requires token.message.Some? ==> q != null && AllDistinct(q.objQ) && token in q.objQ
    modifies pool, pool.msgs, q, if q == null then {} else set t | t in q.objQ
    ensures pool.Valid() && freed == (old(pool.num) == MAXMSGS)
    ensures old(token.message).None? ==>
      released == [] && pool.Contents() == PutOne(old(pool.Contents()), token) && (q != null ==> q.objQ == old(q.objQ))
    ensures old(token.message).Some? ==>
      && q.objQ == [] && released == Present(old(Held(q.objQ))) && token.message == None
      && pool.Contents() == Returned(PutOne(old(pool.Contents()), token), old(q.objQ), old(Held(q.objQ)))
  {
    var message := token.message;
    freed := pool.Put(token);
    if message == None { return [], freed; }
    released := q.Process(pool);
  }
}
