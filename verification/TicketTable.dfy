/** The ticket table as it is kept in memory: one growing vector per sender
    (SNToTicket), reached through a hash table of the chare's log data.
 */
module TicketTable {
  import opened Tickets
  import opened Restart

  const INITIAL_SIZE := 100

  function Slot(vec: seq<nat>, start: nat, sn: nat): nat {
    if start <= sn < start + |vec| then vec[sn - start] else 0
  }

  /** A vector of tickets read as a row: slot i belongs to SN `start + i`, 0 is "none". */
  function RowOf(start: nat, vec: seq<nat>): (row: Row) {
    Row(start, map sn | start <= sn < start + |vec| && Slot(vec, start, sn) != 0 :: Slot(vec, start, sn))
  }

  lemma RowUpdated(start: nat, vec: seq<nat>, vec': seq<nat>, sn: nat, tn: nat)
    requires start <= sn < start + |vec'| && tn > 0
    requires forall n :: n != sn ==> Slot(vec', start, n) == Slot(vec, start, n)
    requires Slot(vec', start, sn) == tn
    ensures RowOf(start, vec') == Row(start, RowOf(start, vec).tns[sn := tn])
  {
    var m, m' := RowOf(start, vec).tns, RowOf(start, vec').tns;
    forall n
      ensures n in m' <==> n in m || n == sn
    {
      assert n != sn ==> Slot(vec', start, n) == Slot(vec, start, n);
    }
    assert m' == m[sn := tn];
  }

  class SnToTicket {
    var ticketVec: seq<nat>
    var startSN: nat
    var finishSN: nat
    ghost var row: Row  // what the vector stands for

    ghost predicate Valid()
      reads this
    {
      && row == RowOf(startSN, ticketVec)
      && |ticketVec| >= INITIAL_SIZE
      && (startSN == 0 ==> forall i :: 0 <= i < |ticketVec| ==> ticketVec[i] == 0)
    }

    constructor ()
      ensures Valid() && row == Row(0, map[]) && finishSN == 0
    {
      ticketVec := seq(INITIAL_SIZE, _ => 0);
      startSN, finishSN := 0, 0;
      row := Row(0, map[]);
    }

    /** Stores a ticket.  Slots below the first SN do not exist, so the caller
        must not go below it; past its end the vector is reallocated at twice
        the index asked for, the new slots empty. */
    method Put(sn: nat, tn: nat)
      requires Valid() && sn > 0 && tn > 0
      requires startSN == 0 || startSN <= sn
      modifies this
      ensures Valid()
      ensures row == Row(if old(startSN) == 0 then sn else old(startSN), old(row).tns[sn := tn])
      ensures finishSN == if sn > old(finishSN) then sn else old(finishSN)
    {
      if sn > finishSN { finishSN := sn; }
      ghost var vec := ticketVec;
      if startSN == 0 {
        startSN := sn;
        assert old(row).tns == map[] == RowOf(sn, vec).tns;
      }
      var index := sn - startSN;
      if index >= |ticketVec| {
        ticketVec := ticketVec + seq(index * 2 - |ticketVec|, _ => 0);
      }
      ticketVec := ticketVec[index := tn];
      RowUpdated(startSN, vec, ticketVec, sn, tn);
      row := RowOf(startSN, ticketVec);
    }

    /** Reads a ticket; an SN below the row's first one trips the source's assertion. */
    method Get(sn: nat) returns (r: Outcome<nat>)
      requires Valid()
      ensures r.Abort? <==> sn < row.start
      ensures r.Done? ==> r.value == if sn in row.tns then row.tns[sn] else 0
    {
      var index := sn - startSN;
      if index < 0 {
        r := Abort;
      } else if index >= |ticketVec| {
        r := Done(0);
      } else {
        r := Done(ticketVec[index]);
        assert r.value == Slot(ticketVec, startSN, sn);
      }
    }
  }

  class ChareMlogData {
    var tCount: nat
    var tProcessed: nat
    var ticketTable: map<ObjId, SnToTicket>
    var restartFlag: bool
    var resendReplyRecvd: nat
    var receivedTNs: seq<nat>
    ghost var rows: map<ObjId, Row>  // what the table stands for

    ghost function Rows(): set<SnToTicket>
      reads this
    {
      set s | s in ticketTable :: ticketTable[s]
    }

    ghost predicate Valid()
      reads this, Rows()
    {
      && rows.Keys == ticketTable.Keys
      && (forall s :: s in ticketTable ==>
            ticketTable[s].Valid() && ticketTable[s].row.start > 0 && rows[s] == ticketTable[s].row)
      && (forall s, t :: s in ticketTable && t in ticketTable && s != t ==>
            ticketTable[s] != ticketTable[t])
    }

    ghost function View(): (c: Chare)
      reads this
    {
      Chare(tCount, tProcessed, rows, restartFlag, resendReplyRecvd, receivedTNs)
    }

    constructor ()
      ensures Valid() && ticketTable == map[]
      ensures View() == Chare(0, 0, map[], false, 0, [])
    {
      tCount, tProcessed, ticketTable := 0, 0, map[];
      restartFlag, resendReplyRecvd, receivedTNs := false, 0, [];
      rows := map[];
    }

    method GetTicket(sender: ObjId, sn: nat) returns (r: Outcome<nat>)
      requires Valid()
      ensures r == Lookup(View(), sender, sn)
    {
      if sender in ticketTable {
        r := ticketTable[sender].Get(sn);
      } else {
        r := Done(0);
      }
    }

    method PutOld(sender: ObjId, sn: nat, tn: nat)
      requires Valid() && sn > 0 && tn > 0
      requires sender in ticketTable && ticketTable[sender].row.start <= sn
      modifies this`rows, Rows()
      ensures Valid()
      ensures View() == Record(old(View()), sender, sn, tn)
    {
      ticketTable[sender].Put(sn, tn);
      rows := rows[sender := ticketTable[sender].row];
    }

    static method NewRow(sn: nat, tn: nat) returns (row: SnToTicket)
      requires sn > 0 && tn > 0
      ensures fresh(row) && row.Valid() && row.row == Row(sn, map[sn := tn])
    {
      row := new SnToTicket();
      row.Put(sn, tn);
    }

    method PutNew(sender: ObjId, sn: nat, tn: nat)
      requires Valid() && sn > 0 && tn > 0
      requires sender !in ticketTable
      modifies this`rows, this`ticketTable
      ensures Valid() && fresh(Rows() - old(Rows()))
      ensures View() == Record(old(View()), sender, sn, tn)
    {
      var row := NewRow(sn, tn);
      assert Record(View(), sender, sn, tn) == View().(rows := rows[sender := row.row]);
      hide Record;
      ticketTable := ticketTable[sender := row];
      rows := rows[sender := row.row];
      assert rows.Keys == ticketTable.Keys;
      forall s | s in ticketTable
        ensures ticketTable[s].Valid() && ticketTable[s].row.start > 0 && rows[s] == ticketTable[s].row
      {
        if s != sender { assert ticketTable[s] in old(Rows()); }
      }
      forall s, t | s in ticketTable && t in ticketTable && s != t
        ensures ticketTable[s] != ticketTable[t]
      {
        if s != sender { assert ticketTable[s] in old(Rows()); }
        if t != sender { assert ticketTable[t] in old(Rows()); }
      }
    }

    /** Shared tail of verifyTicket and next_ticket. */
    method PutTicket(sender: ObjId, sn: nat, tn: nat)
      requires Valid() && sn > 0 && tn > 0
      requires !RowBelow(View(), sender, sn)
      modifies this, Rows()
      ensures Valid() && fresh(Rows() - old(Rows()))
      ensures View() == Record(old(View()), sender, sn, tn)
    {
      if sender in ticketTable {
        PutOld(sender, sn, tn);
      } else {
        PutNew(sender, sn, tn);
      }
    }

    method VerifyTicket(sender: ObjId, sn: nat, tn: nat) returns (ok: bool)
      requires Valid() && sn > 0 && tn > 0
      modifies this, Rows()
      ensures Valid() && fresh(Rows() - old(Rows()))
      ensures ok ==> Verify(old(View()), sender, sn, tn) == Done(View())
      ensures !ok ==> Verify(old(View()), sender, sn, tn).Abort? && View() == old(View())
    {
      var known := GetTicket(sender, sn);
      if known.Abort? { return false; }
      if known.value != 0 { return known.value == tn; }
      PutTicket(sender, sn, tn);
      ok := true;
    }

    method IssueTicket(sender: ObjId, sn: nat) returns (tn: nat)
      requires Valid() && sn > 0 && !RowBelow(View(), sender, sn)
      modifies this, Rows()
      ensures Valid() && fresh(Rows() - old(Rows()))
      ensures tn == old(tCount) + 1 && View() == Record(old(View()).(tCount := tn), sender, sn, tn)
    {
      tCount := tCount + 1;
      tn := tCount;
      hide Record;
      PutTicket(sender, sn, tn);
    }

    /** next_ticket; 0 while the chare is restarting. */
    method NextTicketNumber(sender: ObjId, sn: nat) returns (ok: bool, tn: nat)
      requires Valid() && sn > 0
      modifies this, Rows()
      ensures Valid() && fresh(Rows() - old(Rows()))
      ensures old(restartFlag) ==> ok && tn == 0 && View() == old(View())
      ensures !old(restartFlag) && ok ==> NextTicket(old(View()), sender, sn) == Done((View(), tn))
      ensures !ok ==> !old(restartFlag) && NextTicket(old(View()), sender, sn).Abort? && View() == old(View())
    {
      if restartFlag { return true, 0; }
      var known := GetTicket(sender, sn);
      if known.Abort? { return false, 0; }
      if known.value != 0 { return known.value <= tCount, known.value; }
      hide Record;
      tn := IssueTicket(sender, sn);
      ok := true;
    }

    /** The filter in front of the chare: ticket the message, then place it. */
    method FilterMessage(env: Env) returns (ok: bool, tn: nat, isNew: bool, verdict: Verdict)
      requires Valid() && env.sn > 0
      modifies this, Rows()
      ensures Valid() && fresh(Rows() - old(Rows()))
      ensures ok ==> Filter(old(View()), env) == Done(Ticketed(View(), tn, isNew, verdict))
      ensures !ok ==> Filter(old(View()), env).Abort? && View() == old(View())
    {
      if restartFlag { return true, 0, false, Delay; }
      isNew, verdict := false, Delay;
      var known := GetTicket(env.sender, env.sn);
      if known.Abort? { return false, 0, false, Delay; }
      tn := known.value;
      if tn == 0 {
        ok, tn := NextTicketNumber(env.sender, env.sn);
        isNew := true;
        if !ok { return; }
      }
      ok := true;
      verdict := if tn == tProcessed + 1 then Execute else if tn <= tProcessed then Discard else Park;
    }

    method PostProcess()
      requires Valid()
      modifies this
      ensures Valid() && ticketTable == old(ticketTable)
      ensures View() == Finish(old(View()))
    {
      tProcessed := tProcessed + 1;
    }

    /** initializeRestart: from now on messages are held back, until every survivor has replied. */
    method InitializeRestart()
      requires Valid()
      modifies this`resendReplyRecvd, this`receivedTNs, this`restartFlag
      ensures Valid() && restartFlag && resendReplyRecvd == 0 && receivedTNs == []
      ensures View() == Begin(old(View()))
    {
      resendReplyRecvd := 0;
      receivedTNs := [];
      restartFlag := true;
    }

    /** Records the determinants a survivor returned, in the order received. */
    method ProcessReceivedDet(dets: seq<Det>) returns (ok: bool)
      requires Valid() && forall d :: d in dets ==> d.sn > 0 && d.tn > 0
      modifies this, Rows()
      ensures Valid() && fresh(Rows() - old(Rows()))
      ensures ok ==> RestoreDets(old(View()), dets) == Done(View())
      ensures !ok ==> RestoreDets(old(View()), dets).Abort?
    {
      ghost var c := View();
      hide Verify;
      for i := 0 to |dets|
        invariant Valid() && fresh(Rows() - old(Rows()))
        invariant RestoreDets(c, dets[..i]) == Done(View())
      {
        assert dets[i] in dets;
        RestoreNext(c, dets, i);
        ok := VerifyTicket(dets[i].sender, dets[i].sn, dets[i].tn);
        if !ok { return; }
      }
      assert dets[..|dets|] == dets;
      ok := true;
    }

    /** Collects the tickets survivors know; with the last reply the object resumes. */
    method ProcessReceivedTN(tns: seq<nat>, numPes: nat)
      requires Valid()
      modifies this
      ensures Valid() && ticketTable == old(ticketTable)
      ensures View() == OnTns(old(View()), tns, numPes)
    {
      resendReplyRecvd := resendReplyRecvd + 1;
      receivedTNs := receivedTNs + tns;
      if resendReplyRecvd == numPes - 1 {
        resendReplyRecvd := 0;
        if |receivedTNs| > 0 { tCount := MaxVec(receivedTNs); }
        receivedTNs := [];
        restartFlag := false;
      }
    }
  }

  method MaxVec(tns: seq<nat>) returns (max: nat)
    ensures max == MaxTn(tns)
  {
    max := 0;
    for i := 0 to |tns|
      invariant max == MaxTn(tns[..i])
    {
      assert tns[..i + 1][..i] == tns[..i];
      if tns[i] > max { max := tns[i]; }
    }
    assert tns[..|tns|] == tns;
  }
}
