/** An array manager's table of local elements: a map from ID to position, and a vector of
    elements from which removal moves the last one into the gap.
 */
module ElementTable {
  import opened Options

  type Id = nat

  /** An element knows its own ID. */
  datatype Elt = Elt(id: Id, data: int)

  datatype Table = Table(offsets: map<Id, nat>, elems: seq<Elt>)

  /** Map and vector are mutually inverse. */
  ghost predicate Inverse(t: Table) {
    && (forall id :: id in t.offsets ==> t.offsets[id] < |t.elems| && t.elems[t.offsets[id]].id == id)
    && (forall i :: 0 <= i < |t.elems| ==> t.elems[i].id in t.offsets && t.offsets[t.elems[i].id] == i)
  }

  /** What the table stands for. */
  ghost function Contents(t: Table): map<Id, Elt>
    requires Inverse(t)
  {
    map id | id in t.offsets :: t.elems[t.offsets[id]]
  }

  function Put(t: Table, e: Elt): Table {
    Table(t.offsets[e.id := |t.elems|], t.elems + [e])
  }

  function Erase(t: Table, id: Id): Table {
    if id !in t.offsets || t.elems == [] then t
    else
      var (at, last) := (t.offsets[id], |t.elems| - 1);
      var offsets := t.offsets - {id};
      if at < last then Table(offsets[t.elems[last].id := at], t.elems[at := t.elems[last]][..last])
      else Table(offsets, t.elems[..last])
  }

  /** Inserting keeps the table consistent exactly when the ID was not there yet. */
  lemma PutIff(t: Table, e: Elt)
    requires Inverse(t)
    ensures Inverse(Put(t, e)) <==> e.id !in t.offsets
    ensures e.id !in t.offsets ==> Contents(Put(t, e)) == Contents(t)[e.id := e]
  {
    var t' := Put(t, e);
    if e.id in t.offsets {
      var i := t.offsets[e.id];
      assert t'.elems[i].id == e.id && t'.offsets[e.id] == |t.elems| != i;
    } else {
      assert forall i :: 0 <= i < |t.elems| ==> t'.elems[i] == t.elems[i];
      assert Contents(t') == Contents(t)[e.id := e];
    }
  }

  /** Taking the last element out of the vector. */
  function Pop(t: Table): Table
    requires t.elems != []
  {
    Table(t.offsets - {t.elems[|t.elems| - 1].id}, t.elems[..|t.elems| - 1])
  }

  /** Swapping the last element to a position. */
  function SwapLast(t: Table, at: nat): Table
    requires at < |t.elems|
  {
    var last := |t.elems| - 1;
    Table(t.offsets[t.elems[last].id := at][t.elems[at].id := last],
          t.elems[at := t.elems[last]][last := t.elems[at]])
  }

  lemma PopRemoves(t: Table)
    requires Inverse(t) && t.elems != []
    ensures Inverse(Pop(t)) && Contents(Pop(t)) == Contents(t) - {t.elems[|t.elems| - 1].id}
  {
    assert forall i :: 0 <= i < |t.elems| - 1 ==> Pop(t).elems[i] == t.elems[i];
  }

  lemma SwapInverse(t: Table, at: nat)
    requires Inverse(t) && at < |t.elems|
    ensures Inverse(SwapLast(t, at))
  {
    var t', last := SwapLast(t, at), |t.elems| - 1;
    forall i | 0 <= i < |t'.elems|
      ensures t'.elems[i].id in t'.offsets && t'.offsets[t'.elems[i].id] == i
    {
      if i == at {
        assert t'.elems[i] == t.elems[last];
      } else if i == last {
        assert t'.elems[i] == t.elems[at];
      } else {
        assert t'.elems[i] == t.elems[i];
      }
    }
    forall id | id in t'.offsets
      ensures t'.offsets[id] < |t'.elems| && t'.elems[t'.offsets[id]].id == id
    {
      var i := t.offsets[id];
      assert t.elems[i].id == id;
      if i != at && i != last { assert t'.offsets[id] == i; }
    }
  }

  lemma SwapKeeps(t: Table, at: nat)
    requires Inverse(t) && at < |t.elems|
    ensures Inverse(SwapLast(t, at)) && Contents(SwapLast(t, at)) == Contents(t)
  {
    SwapInverse(t, at);
    var t', last := SwapLast(t, at), |t.elems| - 1;
    forall id | id in t.offsets
      ensures t'.elems[t'.offsets[id]] == t.elems[t.offsets[id]]
    {
      var i := t.offsets[id];
      if i != at && i != last { assert t'.offsets[id] == i; }
    }
  }

  /** Removing takes out exactly the one element, wherever the others have moved to: it is a
      swap with the last and a pop. */
  lemma EraseIsRemoval(t: Table, id: Id)
    requires Inverse(t)
    ensures Inverse(Erase(t, id)) && Contents(Erase(t, id)) == Contents(t) - {id}
  {
    if id in t.offsets {
      var at, last := t.offsets[id], |t.elems| - 1;
      SwapKeeps(t, at);
      PopRemoves(SwapLast(t, at));
      assert t.elems[at].id == id && (at < last ==> t.elems[last].id != id);
      hide Inverse, Contents;
      assert Erase(t, id).elems == Pop(SwapLast(t, at)).elems;
      assert Erase(t, id).offsets == Pop(SwapLast(t, at)).offsets;
    } else {
      assert Contents(t) - {id} == Contents(t);
    }
  }

  // ---------------------------------------------------------------- histories

  datatype Op = Insert(elt: Elt) | Remove(id: Id)

  ghost function Tables(ops: seq<Op>): Table {
    if ops == [] then Table(map[], [])
    else
      var t := Tables(ops[..|ops| - 1]);
      match ops[|ops| - 1]
      case Insert(e) => Put(t, e)
      case Remove(id) => Erase(t, id)
  }

  /** The same history on a plain map. */
  ghost function Plain(ops: seq<Op>): map<Id, Elt> {
    if ops == [] then map[]
    else
      var m := Plain(ops[..|ops| - 1]);
      match ops[|ops| - 1]
      case Insert(e) => m[e.id := e]
      case Remove(id) => m - {id}
  }

  /** Nothing is inserted under an ID that is in use. */
  ghost predicate NoReuse(ops: seq<Op>) {
    forall k :: 0 <= k < |ops| && ops[k].Insert? ==> ops[k].elt.id !in Plain(ops[..k])
  }

  /** After any history of insertions and removals, looking up an ID gives what a plain map would. */
  lemma {:induction false} LookupAgrees(ops: seq<Op>)
    requires NoReuse(ops)
    ensures Inverse(Tables(ops)) && Contents(Tables(ops)) == Plain(ops)
  {
    if ops != [] {
      var k := |ops| - 1;
      forall j | 0 <= j < k && ops[..k][j].Insert?
        ensures ops[..k][j].elt.id !in Plain(ops[..k][..j])
      {
        assert ops[..k][..j] == ops[..j];
      }
      LookupAgrees(ops[..k]);
      match ops[k]
      case Insert(e) => PutIff(Tables(ops[..k]), e);
      case Remove(id) => EraseIsRemoval(Tables(ops[..k]), id);
    }
  }

  class LocalElements {
    var localElems: map<Id, nat>
    var localElemVec: seq<Elt>

    ghost function Abs(): Table
      reads this
    {
      Table(localElems, localElemVec)
    }

    constructor ()
      ensures Inverse(Abs()) && Contents(Abs()) == map[]
    {
      localElems, localElemVec := map[], [];
    }

    method Get(id: Id) returns (e: Option<Elt>)
      requires Inverse(Abs())
      ensures e == if id in Contents(Abs()) then Some(Contents(Abs())[id]) else None
    {
      if id !in localElems { return None; }
      return Some(localElemVec[localElems[id]]);
    }

    method PutElt(e: Elt)
      modifies this
      ensures Abs() == Put(old(Abs()), e)
    {
      localElems := localElems[e.id := |localElemVec|];
      localElemVec := localElemVec + [e];
    }

    method EraseElt(id: Id)
      requires Inverse(Abs())
      modifies this
      ensures Abs() == Erase(old(Abs()), id) && Inverse(Abs()) && Contents(Abs()) == old(Contents(Abs())) - {id}
    {
      EraseIsRemoval(Abs(), id);
      if id in localElems {
        var offset := localElems[id];
        localElems := localElems - {id};
        if offset != |localElemVec| - 1 {
          var moved := localElemVec[|localElemVec| - 1];
          localElemVec := localElemVec[offset := moved];
          localElems := localElems[moved.id := offset];
        }
        localElemVec := localElemVec[..|localElemVec| - 1];
      }
    }
  }
}
