/** The broadcaster of one processor as an object, with its queue of old broadcasts rotated in
    place.
 */
module Broadcaster {
  import opened Broadcast

  class ArrayElement {
    var bcastNo: nat
    var got: seq<Msg>

    /** Stamped with the count of the processor that asked for its creation. */
    constructor (stamp: nat)
      ensures bcastNo == stamp && got == []
    {
      bcastNo, got := stamp, [];
    }

    ghost function State(): Ear
      reads this
    {
      Ear(bcastNo, got)
    }
  }

  class ArrayBroadcaster {
    var bcastNo: nat
    var oldBcastNo: nat
    var oldBcasts: seq<Msg>

    constructor ()
      ensures State() == Bc(0, 0, [])
    {
      bcastNo, oldBcastNo, oldBcasts := 0, 0, [];
    }

    ghost function State(): Bc
      reads this
    {
      Bc(bcastNo, oldBcastNo, oldBcasts)
    }

    method Enqueue(m: Msg)
      modifies this`bcastNo, this`oldBcasts
      ensures State() == Incoming(old(State()), m)
    {
      bcastNo := bcastNo + 1;
      oldBcasts := oldBcasts + [m];
    }

    method DeliverTo(m: Msg, el: ArrayElement) returns (invoked: bool)
      modifies el
      ensures el.State() == Deliver(State(), old(el.State()), m)
      ensures invoked == (old(el.bcastNo) < bcastNo)
    {
      if el.bcastNo >= bcastNo { return false; }
      el.bcastNo := el.bcastNo + 1;
      el.got := el.got + [m];
      return true;
    }

    /** deq: None on an empty queue. */
    method Dequeue() returns (m: int, some: bool)
      modifies this`oldBcasts
      ensures some == (old(oldBcasts) != [])
      ensures some ==> m == old(oldBcasts)[0] && oldBcasts == old(oldBcasts)[1..]
      ensures !some ==> oldBcasts == []
    {
      m, some := 0, oldBcasts != [];
      if some { m, oldBcasts := oldBcasts[0], oldBcasts[1..]; }
    }

    method BringUpToDate(el: ArrayElement)
      modifies this`oldBcasts, el
      ensures (State(), el.State()) == CatchUp(old(State()), old(el.State()))
    {
      if el.bcastNo >= bcastNo { return; }
      var nDeliver := bcastNo - el.bcastNo;
      ghost var q0 := oldBcasts;
      ghost var skip := if |q0| > nDeliver then |q0| - nDeliver else 0;
      var i := |oldBcasts| - 1;
      while i >= nDeliver
        modifies this`oldBcasts
        invariant |oldBcasts| == |q0| && i - nDeliver + 1 <= skip && (i >= nDeliver - 1 || skip == 0)
        invariant Rotate(q0, skip) == Rotate(oldBcasts, if i >= nDeliver then i - nDeliver + 1 else 0)
      {
        var m, some := Dequeue();
        oldBcasts := oldBcasts + [m];
        i := i - 1;
      }
      ghost var q, e := oldBcasts, el.State();
      i := nDeliver - 1;
      while i >= 0
        modifies this`oldBcasts, el
        invariant -1 <= i < nDeliver && bcastNo - el.bcastNo >= i + 1
        invariant Dispatch(old(State()), q, e, nDeliver) == Dispatch(old(State()), oldBcasts, el.State(), i + 1)
      {
        var m, some := Dequeue();
        if some {
          oldBcasts := oldBcasts + [m];
          var invoked := DeliverTo(m, el);
        }
        i := i - 1;
      }
    }

    method SpringCleaning()
      modifies this`oldBcasts, this`oldBcastNo
      ensures State() == Broadcast.Clean(old(State()))
    {
      var nDelete := |oldBcasts| - (bcastNo - oldBcastNo);
      ghost var q := oldBcasts;
      var i := 0;
      while i < nDelete
        modifies this`oldBcasts
        invariant 0 <= i && (i <= nDelete || i == 0) && oldBcasts == if i <= |q| then q[i..] else []
      {
        var m, some := Dequeue();
        i := i + 1;
      }
      oldBcastNo := bcastNo;
    }

    /** recvBroadcast: every local element that has not heard the broadcast gets it. */
    method Receive(m: Msg, els: seq<ArrayElement>)
      requires forall i, j :: 0 <= i < j < |els| ==> els[i] != els[j]
      modifies this`bcastNo, this`oldBcasts, els
      ensures State() == Incoming(old(State()), m)
      ensures forall i :: 0 <= i < |els| ==> els[i].State() == Deliver(State(), old(els[i].State()), m)
    {
      Enqueue(m);
      var i := 0;
      while i < |els|
        modifies els
        invariant i <= |els| && State() == Incoming(old(State()), m)
        invariant forall j :: 0 <= j < i ==> els[j].State() == Deliver(State(), old(els[j].State()), m)
        invariant forall j :: i <= j < |els| ==> els[j].State() == old(els[j].State())
      {
        var invoked := DeliverTo(m, els[i]);
        i := i + 1;
      }
    }
  }
}
