/** The message-logging state of one processor: the growable determinant buffer with
    its counters, the determinants kept for other processors, and the message queues.
 */
module MlogPe {
  import opened Tickets
  import opened Determinants
  import opened TicketTable

  const INITIAL_BUFFERED_DETERMINANTS := 1024

  class MlogPe {
    var localDets: array<Det>
    var numBufferedDets: int
    var indexBufferedDets: nat
    var phaseBufferedDets: nat
    var remoteDets: map<ObjId, seq<Det>>
    var outOfOrder: seq<Env>
    var delayed: seq<Env>
    var sched: seq<Env>

    ghost predicate Valid()
      reads this
    {
      0 <= numBufferedDets <= indexBufferedDets <= localDets.Length && localDets.Length > 0
    }

    ghost function Win(): (w: Window)
      requires Valid()
      reads this, localDets
    {
      Window(localDets[..indexBufferedDets], numBufferedDets, phaseBufferedDets)
    }

    constructor ()
      ensures Valid() && fresh(localDets) && Win() == Window([], 0, 0)
      ensures remoteDets == map[] && outOfOrder == delayed == sched == []
    {
      localDets := new Det[INITIAL_BUFFERED_DETERMINANTS];
      numBufferedDets, indexBufferedDets, phaseBufferedDets := 0, 0, 0;
      remoteDets, outOfOrder, delayed, sched := map[], [], [], [];
    }

    /** Appends a determinant; a full buffer is first copied into one twice its size. */
    method AddBufferedDeterminant(d: Det)
      requires Valid()
      modifies this`localDets, this`numBufferedDets, this`indexBufferedDets, localDets
      ensures Valid() && (localDets == old(localDets) || fresh(localDets))
      ensures Win() == AddDet(old(Win()), d)
    {
      if indexBufferedDets >= localDets.Length {
        var bigger := new Det[2 * localDets.Length];
        for i := 0 to indexBufferedDets
          modifies bigger
          invariant bigger[..i] == localDets[..i]
        {
          bigger[i] := localDets[i];
        }
        localDets := bigger;
      }
      localDets[indexBufferedDets] := d;
      numBufferedDets := numBufferedDets + 1;
      indexBufferedDets := indexBufferedDets + 1;
    }

    /** The packets of one remote send, in the order they enter the channel. */
    method SendMsg() returns (packets: seq<Packet>)
      requires Valid()
      ensures packets == SendPackets(Win())
    {
      packets := [];
      if numBufferedDets > 0 {
        packets := [Store(phaseBufferedDets, indexBufferedDets,
                          localDets[indexBufferedDets - numBufferedDets..indexBufferedDets])];
      }
      packets := packets + [App(indexBufferedDets)];
    }

    method RemoveDeterminants(phase: nat, index: nat) returns (ok: bool)
      requires Valid()
      modifies this`numBufferedDets
      ensures Valid()
      ensures ok <==> phase != phaseBufferedDets || index <= indexBufferedDets
      ensures numBufferedDets ==
        if phase == phaseBufferedDets && ok then indexBufferedDets - index else old(numBufferedDets)
      ensures ok ==> OnAck(old(Win()), phase, index) == Done(Win())
      ensures !ok ==> OnAck(old(Win()), phase, index).Abort?
    {
      if phase == phaseBufferedDets {
        if index > indexBufferedDets { return false; }
        numBufferedDets := indexBufferedDets - index;
      }
      ok := true;
    }

    /** Files each determinant under its receiver and answers with the sender's own index. */
    method StoreDeterminants(phase: nat, index: nat, dets: seq<Det>) returns (ack: Packet)
      modifies this`remoteDets
      ensures remoteDets == StoreAll(old(remoteDets), dets)
      ensures ack == Ack(phase, index)
    {
      for i := 0 to |dets|
        invariant remoteDets == StoreAll(old(remoteDets), dets[..i])
      {
        var det := dets[i];
        var vec := if det.receiver in remoteDets then remoteDets[det.receiver] else [];
        remoteDets := remoteDets[det.receiver := vec + [det]];
        assert dets[..i + 1][..i] == dets[..i];
      }
      assert dets[..|dets|] == dets;
      ack := Ack(phase, index);
    }

    /** Queues a ticketed message.  One whose turn has come first sends every parked
        message back to the scheduler, oldest first. */
    method PlaceMessage(env: Env, verdict: Verdict)
      modifies this`outOfOrder, this`sched, this`delayed
      ensures sched == if verdict == Execute then old(sched) + old(outOfOrder) else old(sched)
      ensures outOfOrder == if verdict == Execute then []
                            else if verdict == Park then old(outOfOrder) + [env] else old(outOfOrder)
      ensures delayed == if verdict == Delay then old(delayed) + [env] else old(delayed)
    {
      match verdict
      case Delay => delayed := delayed + [env];
      case Discard =>
      case Park => outOfOrder := outOfOrder + [env];
      case Execute =>
        while outOfOrder != []
          modifies this`outOfOrder, this`sched
          invariant sched + outOfOrder == old(sched) + old(outOfOrder)
          decreases |outOfOrder|
        {
          sched := sched + [outOfOrder[0]];
          outOfOrder := outOfOrder[1..];
        }
        assert sched + [] == sched;
    }

    /** preProcessReceivedMessage: ticket the message, log the determinant of a new ticket,
        place the message. */
    method PreProcess(env: Env, obj: ChareMlogData) returns (ok: bool, verdict: Verdict)
      requires Valid() && obj.Valid() && env.sn > 0
      modifies this, localDets, obj, obj.Rows()
      ensures Valid() && obj.Valid() && remoteDets == old(remoteDets)
      ensures !ok ==> Filter(old(obj.View()), env).Abort? && Win() == old(Win())
      ensures ok ==> Filter(old(obj.View()), env).Done?
      ensures ok ==>
        var t := Filter(old(obj.View()), env).value;
        && obj.View() == t.chare && verdict == t.verdict
        && Win() == if t.isNew then AddDet(old(Win()), Det(env.sender, env.receiver, env.sn, t.tn)) else old(Win())
      ensures ok ==> sched == if verdict == Execute then old(sched) + old(outOfOrder) else old(sched)
      ensures ok ==> outOfOrder == if verdict == Execute then []
                                   else if verdict == Park then old(outOfOrder) + [env] else old(outOfOrder)
      ensures ok ==> delayed == if verdict == Delay then old(delayed) + [env] else old(delayed)
    {
      hide Filter;
      var tn, isNew;
      ok, tn, isNew, verdict := obj.FilterMessage(env);
      if !ok { return; }
      if isNew { AddBufferedDeterminant(Det(env.sender, env.receiver, env.sn, tn)); }
      PlaceMessage(env, verdict);
    }

    /** garbageCollectMlog: a new phase starts with nothing buffered and nothing kept. */
    method GarbageCollect()
      requires Valid()
      modifies this`numBufferedDets, this`indexBufferedDets, this`phaseBufferedDets, this`remoteDets
      ensures Valid() && Win() == Window([], 0, old(phaseBufferedDets) + 1)
      ensures forall o :: At(remoteDets, o) == []
    {
      indexBufferedDets := 0;
      numBufferedDets := 0;
      phaseBufferedDets := phaseBufferedDets + 1;
      remoteDets := map o | o in remoteDets :: [];
    }
  }
}
