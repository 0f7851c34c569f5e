/** A run in which the token handler meets a full pool with a message still to release: one
    message for one object, 32 for another, and the tokens of the latter taken first.
 */
module ObjQueueFull {
  import opened Options
  import opened Seqs
  import opened ObjQueue

  /** The token of the message for object 0: the last in the pool at first. */
  const KEPT: Tid := 31

  function Start(): Sys {
    var pool: seq<Tid> := seq(MAXMSGS, i => i);
    Sys(map t | t in pool :: Tok(0, None), pool, {}, [], map[], map[], map[])
  }

  /** The token of object 0 is first in the scheduler, alone in its queue, with its message. */
  ghost predicate Kept(s: Sys) {
    && s.sched != [] && s.sched[0] == KEPT && KEPT in s.toks && s.toks[KEPT] == Tok(0, Some(0))
    && 0 in s.queues && 1 in s.queues && s.queues[0] == [KEPT]
  }

  lemma Extend(states: seq<Sys>, events: seq<Event>, e: Event)
    requires Run(states, events) && Enabled(states[|events|], e)
    ensures Run(states + [Step(states[|events|], e)], events + [e])
  {
    hide Step, Enabled, Initial;
  }

  lemma StartsRun()
    ensures Run([Start()], [])
  {
  }

  lemma SendKeeps(s: Sys, m: Msg, t: Tid)
    requires Good(s) && Kept(s) && Enabled(s, Send(1, m, t))
    ensures var s' := Step(s, Send(1, m, t));
      && Kept(s') && |s'.sched| == |s.sched| + 1 && |s'.pool| == (if s.pool == [] then 0 else |s.pool| - 1)
      && s'.toks.Keys == s.toks.Keys + {t}
  {
    FreshToken(s, 1, m, t);
    hide Good;
  }

  lemma TakeKeeps(s: Sys)
    requires Good(s) && Kept(s) && |s.sched| >= 2 && |s.pool| < MAXMSGS
    ensures Enabled(s, Take(1))
    ensures var s' := Step(s, Take(1)); Kept(s') && |s'.sched| == |s.sched| - 1 && |s'.pool| == |s.pool| + 1
  {
    var t := s.sched[1];
    assert Accounted(s, t) && Accounted(s, KEPT);
    OccIn(s.sched, t);
    if t == KEPT { OccTwo(s.sched, 0, 1); }
    assert t in s.toks && t != KEPT;
    if s.toks[t].message.Some? {
      var o := s.toks[t].obj;
      TokenMeansAlive(s, 1);
      assert QueueOk(s, o) && o != 0;
      var s1 := Put(s.(sched := Drop(s.sched, 1)), t);
      assert forall x :: x in s.queues[o] ==> Waiting(s, o, x);
      assert KEPT !in s.queues[o];
      ProcessEffect(s1, o);
      hide Good, Process;
    } else {
      hide Good, Process;
    }
  }

  lemma Begin() returns (states: seq<Sys>, events: seq<Event>)
    ensures Run(states, events) && Kept(states[|events|])
    ensures var s := states[|events|]; |s.sched| == 1 && |s.pool| == 31 && forall t :: t in s.toks ==> t < MAXMSGS
  {
    var s0 := Start();
    StartsRun();
    Extend([s0], [], Create(0));
    var s1 := Step(s0, Create(0));
    Extend([s0, s1], [Create(0)], Create(1));
    var s2 := Step(s1, Create(1));
    assert s2.pool[31] == KEPT;
    Extend([s0, s1, s2], [Create(0), Create(1)], Send(0, 0, KEPT));
    var s3 := Step(s2, Send(0, 0, KEPT));
    states, events := [s0, s1, s2, s3], [Create(0), Create(1), Send(0, 0, KEPT)];
    assert [s0] + [s1] == [s0, s1] && [s0, s1] + [s2] == [s0, s1, s2] && [s0, s1, s2] + [s3] == states;
    assert [] + [Create(0)] == [Create(0)] && [Create(0)] + [Create(1)] == [Create(0), Create(1)];
    assert [Create(0), Create(1)] + [Send(0, 0, KEPT)] == events;
    hide Run;
  }

  /** k messages for object 1; the last of 32 needs a token of its own. */
  lemma {:induction false} Load(k: nat) returns (states: seq<Sys>, events: seq<Event>)
    requires k <= 32
    ensures Run(states, events) && Kept(states[|events|])
    ensures var s := states[|events|];
      && |s.sched| == k + 1 && |s.pool| == (if k < 32 then 31 - k else 0)
      && (k < 32 ==> forall t :: t in s.toks ==> t < MAXMSGS)
  {
    if k == 0 {
      states, events := Begin();
    } else {
      states, events := Load(k - 1);
      var s := states[|events|];
      RunGood(states, events, |events|);
      var t := if s.pool == [] then MAXMSGS else s.pool[|s.pool| - 1];
      assert Accounted(s, t);
      OccIn(s.pool, t);
      var e := Send(1, k, t);
      SendKeeps(s, k, t);
      Extend(states, events, e);
      states, events := states + [Step(s, e)], events + [e];
      hide Run, Good, Kept;
    }
  }

  /** Then the tokens of object 1 are taken, one after the other. */
  lemma {:induction false} Unload(k: nat) returns (states: seq<Sys>, events: seq<Event>)
    requires k <= 32
    ensures Run(states, events) && Kept(states[|events|])
    ensures var s := states[|events|]; |s.sched| == 33 - k && |s.pool| == k
  {
    if k == 0 {
      states, events := Load(32);
    } else {
      states, events := Unload(k - 1);
      var s := states[|events|];
      RunGood(states, events, |events|);
      TakeKeeps(s);
      Extend(states, events, Take(1));
      states, events := states + [Step(s, Take(1))], events + [Take(1)];
      hide Run, Good, Kept;
    }
  }

  /** The handler does come to drain a token that is already freed. */
  lemma FreedTokenIsDrained() returns (states: seq<Sys>, events: seq<Event>)
    ensures Run(states, events)
    ensures var s := states[|events|];
      && s.sched == [KEPT] && KEPT in s.toks && s.toks[KEPT].message.Some? && |s.pool| == MAXMSGS
      && var s1 := Put(s.(sched := Drop(s.sched, 0)), KEPT);
      exists x :: x in At(s1.queues, s.toks[KEPT].obj) && x in s1.freed
  {
    states, events := Unload(32);
    var s := states[|events|];
    assert s.sched == [KEPT];
    DrainsFreedIff(states, events, |events|, 0);
    hide Run;
  }
}
