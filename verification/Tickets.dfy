/** Ticket bookkeeping of causal message logging.

    A receiving chare hands out ticket numbers (TN): one per (sender, SN) pair,
    numbered from 1.  The functions below say what the methods of ChareMlogData
    and the message filter in front of a chare compute, over plain values; the
    classes in TicketTable.dfy and MlogPe.dfy are proved to implement them.
 */
module Tickets {

  type ObjId = nat

  /** A step either completes or trips one of the source's assertions. */
  datatype Outcome<+T> = Done(value: T) | Abort

  datatype Env = Env(sender: ObjId, receiver: ObjId, sn: nat)

  /** A determinant: the fact that a ticket went to a pair. */
  datatype Det = Det(sender: ObjId, receiver: ObjId, sn: nat, tn: nat)

  /** One sender's row of the ticket table.  `start` is the first SN ever put. */
  datatype Row = Row(start: nat, tns: map<nat, nat>)

  datatype Chare = Chare(tCount: nat, tProcessed: nat, rows: map<ObjId, Row>,
                         restarting: bool, replies: nat, received: seq<nat>)

  /** What becomes of a message that reaches the filter. */
  datatype Verdict = Execute | Discard | Park | Delay

  datatype Ticketed = Ticketed(chare: Chare, tn: nat, isNew: bool, verdict: Verdict)

  /** The ticket table as a total map: 0 stands for "no ticket". */
  function TicketOf(c: Chare, sender: ObjId, sn: nat): nat {
    if sender in c.rows && sn in c.rows[sender].tns then c.rows[sender].tns[sn] else 0
  }

  predicate RowBelow(c: Chare, sender: ObjId, sn: nat) {
    sender in c.rows && sn < c.rows[sender].start
  }

  function Lookup(c: Chare, sender: ObjId, sn: nat): Outcome<nat> {
    if RowBelow(c, sender, sn) then Abort else Done(TicketOf(c, sender, sn))
  }

  function Record(c: Chare, sender: ObjId, sn: nat, tn: nat): Chare {
    var row := if sender in c.rows then c.rows[sender] else Row(sn, map[]);
    c.(rows := c.rows[sender := row.(tns := row.tns[sn := tn])])
  }

  /** ChareMlogData::verifyTicket. */
  function Verify(c: Chare, sender: ObjId, sn: nat, tn: nat): Outcome<Chare> {
    match Lookup(c, sender, sn)
    case Abort => Abort
    case Done(known) =>
      if known == 0 then Done(Record(c, sender, sn, tn))
      else if known == tn then Done(c)
      else Abort
  }

  /** ChareMlogData::next_ticket, without a restart in progress. */
  function NextTicket(c: Chare, sender: ObjId, sn: nat): Outcome<(Chare, nat)> {
    match Lookup(c, sender, sn)
    case Abort => Abort
    case Done(known) =>
      if known == 0 then
        Done((Record(c.(tCount := c.tCount + 1), sender, sn, c.tCount + 1), c.tCount + 1))
      else if known <= c.tCount then Done((c, known))
      else Abort
  }

  /** _getTicket followed by the decision of preProcessReceivedMessage. */
  function Filter(c: Chare, env: Env): Outcome<Ticketed> {
    if c.restarting then Done(Ticketed(c, 0, false, Delay))
    else match Lookup(c, env.sender, env.sn)
      case Abort => Abort
      case Done(known) =>
        match (if known == 0 then NextTicket(c, env.sender, env.sn) else Done((c, known)))
        case Abort => Abort
        case Done((c', tn)) =>
          Done(Ticketed(c', tn, known == 0,
                        if tn == c.tProcessed + 1 then Execute
                        else if tn <= c.tProcessed then Discard
                        else Park))
  }

  /** postProcessReceivedMessage. */
  function Finish(c: Chare): Chare {
    c.(tProcessed := c.tProcessed + 1)
  }

  // ---------------------------------------------------------------- invariant

  ghost predicate RowsOk(c: Chare) {
    && (forall s :: s in c.rows ==> c.rows[s].start >= 1)
    && (forall s, n :: s in c.rows && n in c.rows[s].tns ==>
          c.rows[s].start <= n && c.rows[s].tns[n] != 0)
  }

  ghost predicate Injective(c: Chare) {
    forall s, n, s', n' :: TicketOf(c, s, n) != 0 && TicketOf(c, s, n) == TicketOf(c, s', n') ==>
      s == s' && n == n'
  }

  ghost predicate InRange(c: Chare) {
    forall s, n :: TicketOf(c, s, n) <= c.tCount
  }

  ghost predicate Held(c: Chare, tn: nat) {
    exists s, n :: TicketOf(c, s, n) == tn
  }

  /** Tickets in the table are exactly 1..tCount, one pair each. */
  ghost predicate Consistent(c: Chare) {
    && RowsOk(c) && Injective(c) && InRange(c)
    && (forall tn :: 1 <= tn <= c.tCount ==> Held(c, tn))
    && c.tProcessed <= c.tCount
  }

  /** Every pair ticketed in c has the same ticket in c'. */
  ghost predicate Keeps(c: Chare, c': Chare) {
    forall s, n :: TicketOf(c, s, n) != 0 ==> TicketOf(c', s, n) == TicketOf(c, s, n)
  }

  lemma RecordTicket(c: Chare, sender: ObjId, sn: nat, tn: nat)
    ensures forall s, n :: TicketOf(Record(c, sender, sn, tn), s, n) ==
                           if s == sender && n == sn then tn else TicketOf(c, s, n)
  {
    var c' := Record(c, sender, sn, tn);
    forall s, n
      ensures TicketOf(c', s, n) == if s == sender && n == sn then tn else TicketOf(c, s, n)
    {
      if s == sender { assert c'.rows[s].tns.Keys == (if s in c.rows then c.rows[s].tns.Keys else {}) + {sn}; }
    }
  }

  /** Recording a determinant fails exactly for an SN below the sender's row and for a pair that has
      another ticket; otherwise the pair has the ticket and every other pair what it had. */
  lemma VerifyIff(c: Chare, sender: ObjId, sn: nat, tn: nat)
    ensures Verify(c, sender, sn, tn).Abort? <==> RowBelow(c, sender, sn) || TicketOf(c, sender, sn) !in {0, tn}
    ensures Verify(c, sender, sn, tn).Done? ==>
      forall s, n :: TicketOf(Verify(c, sender, sn, tn).value, s, n) == if s == sender && n == sn then tn else TicketOf(c, s, n)
  {
    if TicketOf(c, sender, sn) == 0 { RecordTicket(c, sender, sn, tn); }
  }

  /** Asking for a ticket fails exactly for an SN below the sender's row and for a ticket beyond the
      count; otherwise a pair keeps the ticket it has, and one without gets the next. */
  lemma NextTicketIff(c: Chare, sender: ObjId, sn: nat)
    ensures NextTicket(c, sender, sn).Abort? <==> RowBelow(c, sender, sn) || TicketOf(c, sender, sn) > c.tCount
    ensures NextTicket(c, sender, sn).Done? ==>
      var ((c', tn), known) := (NextTicket(c, sender, sn).value, TicketOf(c, sender, sn));
      && (known != 0 ==> tn == known && c' == c)
      && (known == 0 ==> tn == c'.tCount == c.tCount + 1)
      && forall s, n :: TicketOf(c', s, n) == if s == sender && n == sn then tn else TicketOf(c, s, n)
  {
    var bumped := c.(tCount := c.tCount + 1);
    assert forall s, n :: TicketOf(bumped, s, n) == TicketOf(c, s, n);
    RecordTicket(bumped, sender, sn, c.tCount + 1);
    hide Record;
  }

  /** The filter aborts exactly for an SN below the first one its sender was given a row with. */
  lemma FilterAborts(c: Chare, env: Env)
    requires Consistent(c)
    ensures Filter(c, env).Abort? <==> !c.restarting && RowBelow(c, env.sender, env.sn)
  {
    assert TicketOf(c, env.sender, env.sn) <= c.tCount;
  }

  /** The filter keeps the table consistent, never changes a ticket, and gives a
      pair without one the next number. */
  lemma FilterKeeps(c: Chare, env: Env)
    requires Consistent(c) && env.sn > 0 && Filter(c, env).Done?
    ensures var r := Filter(c, env).value;
      && Consistent(r.chare) && Keeps(c, r.chare)
      && r.chare.tProcessed == c.tProcessed
      && (r.verdict != Delay ==> 0 < r.tn <= r.chare.tCount && TicketOf(r.chare, env.sender, env.sn) == r.tn)
      && r.chare.tCount == c.tCount + (if r.isNew then 1 else 0)
      && (r.isNew ==> r.tn == c.tCount + 1 && r.chare == Record(c.(tCount := r.tn), env.sender, env.sn, r.tn))
      && (!r.isNew ==> r.chare == c)
      && (r.isNew <==> !c.restarting && TicketOf(c, env.sender, env.sn) == 0)
  {
    var r := Filter(c, env).value;
    assert TicketOf(c, env.sender, env.sn) <= c.tCount;
    if r.isNew {
      IssueKeeps(c, env.sender, env.sn);
      RecordTicket(c.(tCount := r.tn), env.sender, env.sn, r.tn);
    }
    hide Consistent, Record;
  }

  /** A new ticket, the next number for a pair without one, keeps the table consistent. */
  lemma IssueKeeps(c: Chare, sender: ObjId, sn: nat)
    requires Consistent(c) && sn > 0 && TicketOf(c, sender, sn) == 0 && !RowBelow(c, sender, sn)
    ensures var c' := Record(c.(tCount := c.tCount + 1), sender, sn, c.tCount + 1); Consistent(c') && Keeps(c, c')
  {
    var bumped := c.(tCount := c.tCount + 1);
    var c' := Record(bumped, sender, sn, bumped.tCount);
    RecordTicket(bumped, sender, sn, bumped.tCount);
    assert forall s, n :: TicketOf(bumped, s, n) == TicketOf(c, s, n);
    assert RowsOk(c');
    hide Record, TicketOf, RowsOk, RowBelow;
    assert TicketOf(c', sender, sn) == c'.tCount;
    forall tn | 1 <= tn <= c'.tCount
      ensures Held(c', tn)
    {
      if tn <= c.tCount {
        assert Held(c, tn);
        var s, n :| TicketOf(c, s, n) == tn;
        assert TicketOf(c', s, n) == tn;
      }
    }
  }

  lemma FinishKeeps(c: Chare)
    requires Consistent(c) && c.tProcessed < c.tCount
    ensures Consistent(Finish(c)) && Keeps(c, Finish(c))
  {
    assert forall s, n :: TicketOf(Finish(c), s, n) == TicketOf(c, s, n);
    forall tn | 1 <= tn <= c.tCount
      ensures Held(Finish(c), tn)
    {
      assert Held(c, tn);
    }
  }

}
