/** Determinants: what a processor must remember about each ticket it hands out, the
    window of them not yet known to be stored elsewhere, and the packets that carry them.
 */
module Determinants {
  import opened Tickets

  /** `log` is the determinant buffer of the current phase; its last `num` entries are the window. */
  datatype Window = Window(log: seq<Det>, num: int, phase: nat)

  datatype Packet =
    | Store(phase: nat, index: nat, dets: seq<Det>)
    | Ack(phase: nat, index: nat)
    | App(index: nat)  // a logged message, with the length of the log when it was sent
    | Request  // a restarted processor asks for its determinants

  ghost predicate WindowOk(w: Window) {
    0 <= w.num <= |w.log|
  }

  /** addBufferedDeterminant. */
  function AddDet(w: Window, d: Det): Window {
    w.(log := w.log + [d], num := w.num + 1)
  }

  /** sendMsg: the window goes ahead of the message, if there is one. */
  function SendPackets(w: Window): seq<Packet>
    requires WindowOk(w)
  {
    (if w.num > 0 then [Store(w.phase, |w.log|, w.log[|w.log| - w.num..])] else []) + [App(|w.log|)]
  }

  /** _removeDeterminantsHandler. */
  function OnAck(w: Window, phase: nat, index: nat): Outcome<Window> {
    if phase != w.phase then Done(w)
    else if index > |w.log| then Abort
    else Done(w.(num := |w.log| - index))
  }

  /** An acknowledgement of this phase leaves exactly the determinants from its index on to be sent
      again, none if it covers the whole log; one of another phase changes nothing. */
  lemma AckLeaves(w: Window, phase: nat, index: nat)
    requires WindowOk(w)
    ensures phase != w.phase ==> OnAck(w, phase, index) == Done(w)
    ensures phase == w.phase ==> (OnAck(w, phase, index).Abort? <==> index > |w.log|)
    ensures phase == w.phase && index <= |w.log| ==>
      var w' := OnAck(w, phase, index).value;
      && w'.log == w.log && w'.phase == w.phase && WindowOk(w') && w.log[|w.log| - w'.num..] == w.log[index..]
      && SendPackets(w') ==
         (if index == |w.log| then [] else [Store(w.phase, |w.log|, w.log[index..])]) + [App(|w.log|)]
  {
  }

  function StoreOne(remote: map<ObjId, seq<Det>>, d: Det): map<ObjId, seq<Det>> {
    remote[d.receiver := At(remote, d.receiver) + [d]]
  }

  /** _storeDeterminantsHandler: each determinant goes to the list of its receiver. */
  function StoreAll(remote: map<ObjId, seq<Det>>, dets: seq<Det>): map<ObjId, seq<Det>> {
    if dets == [] then remote
    else StoreOne(StoreAll(remote, dets[..|dets| - 1]), dets[|dets| - 1])
  }

  function At(remote: map<ObjId, seq<Det>>, o: ObjId): seq<Det> {
    if o in remote then remote[o] else []
  }

  /** The determinants of one receiver, in log order. */
  function OfReceiver(log: seq<Det>, o: ObjId): seq<Det> {
    if log == [] then []
    else
      var front := OfReceiver(log[..|log| - 1], o);
      if log[|log| - 1].receiver == o then front + [log[|log| - 1]] else front
  }

  lemma OfReceiverMember(log: seq<Det>, o: ObjId)
    ensures forall d :: d in OfReceiver(log, o) <==> d in log && d.receiver == o
  {
    if log != [] {
      OfReceiverMember(log[..|log| - 1], o);
      assert log == log[..|log| - 1] + [log[|log| - 1]];
    }
  }

  lemma OfReceiverAppend(log: seq<Det>, d: Det, o: ObjId)
    ensures OfReceiver(log + [d], o) == OfReceiver(log, o) + (if d.receiver == o then [d] else [])
  {
    assert (log + [d])[..|log|] == log;
  }

  lemma {:induction false} OfReceiverPrefix(log: seq<Det>, k: nat, o: ObjId)
    requires k <= |log|
    ensures OfReceiver(log[..k], o) <= OfReceiver(log, o)
  {
    if k < |log| {
      var front := log[..|log| - 1];
      OfReceiverPrefix(front, k, o);
      assert front[..k] == log[..k];
      assert log == front + [log[|log| - 1]];
      OfReceiverAppend(front, log[|log| - 1], o);
    } else {
      assert log[..k] == log;
    }
  }

  /** A list holds what it held plus the determinants stored for its receiver. */
  lemma {:induction false} StoreAllAt(remote: map<ObjId, seq<Det>>, dets: seq<Det>, o: ObjId)
    ensures At(StoreAll(remote, dets), o) == At(remote, o) + OfReceiver(dets, o)
  {
    if dets != [] {
      StoreAllAt(remote, dets[..|dets| - 1], o);
    }
  }

  lemma {:induction false} OfReceiverNone(log: seq<Det>, o: ObjId)
    requires forall d :: d in log ==> d.receiver != o
    ensures OfReceiver(log, o) == []
  {
    if log != [] { OfReceiverNone(log[..|log| - 1], o); }
  }
}
