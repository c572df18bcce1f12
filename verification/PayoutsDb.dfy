/**
  * payouts and payout_ledger as a database, and payoutService.ts and b2cCallbackService.ts statement
  * by statement. Reads another request may have overtaken are arguments.
  */
module PayoutsDb {
  import opened Common
  import opened Charges
  import opened Payouts
  import opened PayoutProtocol

  // How b2cPayment comes back.
  datatype B2CReply = B2CAccepted(conversation: Conversation) | B2CUncertain | B2CRejected(response: Option<int>) | B2CError

  datatype CreateReply =
    | NewlyCreated(payoutId: PayoutId)
    | AlreadyThere(payoutId: PayoutId, resent: bool)
    | LedgerMissing
    | NothingToPay
    | NotWholeShillings
    | Threw

  predicate ConversationTaken(t: PayoutTables, pid: PayoutId, c: Conversation) {
    exists other :: other in t.payouts && other != pid && t.payouts[other].conversation == Some(c)
  }

  /** An error that is neither a rejection nor a timeout, or a unique key, leaves sendB2C half done. */
  predicate SendThrows(t: PayoutTables, pid: PayoutId, reply: B2CReply) {
    reply.B2CError? || (reply.B2CAccepted? && ConversationTaken(t, pid, reply.conversation))
  }

  function AfterSend(t: PayoutTables, pid: PayoutId, lid: LedgerId, reply: B2CReply): PayoutTables {
    var counted := CountSend(t, pid);
    if SendThrows(t, pid, reply) then counted
    else
      match reply
      case B2CUncertain => NoteUncertain(counted, pid)
      case B2CRejected(response) => RefuseLedger(RefusePayout(counted, pid, response), lid)
      case B2CAccepted(c) => AckLedger(AckPayout(counted, pid, c), lid)
      case B2CError => counted
  }

  ghost function PayoutOf(t: PayoutTables, lid: LedgerId): (pid: PayoutId)
    requires HasPayout(t, lid)
    ensures pid in t.payouts && t.payouts[pid].ledgerId == lid
  {
    var pid :| pid in t.payouts && t.payouts[pid].ledgerId == lid;
    pid
  }

  /** createPayout; `seen` is what its first SELECT read, `pid` the id it makes up. */
  ghost function CreateTx(seen: PayoutTables, t: PayoutTables, lid: LedgerId, pid: PayoutId, reply: B2CReply)
    : (PayoutTables, CreateReply)
  {
    if HasPayout(seen, lid) then
      var existing := PayoutOf(seen, lid);
      if NeverReached(seen.payouts[existing]) && lid in t.ledger then
        (AfterSend(t, existing, lid, reply),
          if SendThrows(t, existing, reply) then Threw else AlreadyThere(existing, true))
      else (t, AlreadyThere(existing, false))
    else if lid !in t.ledger then (t, LedgerMissing)
    else if t.ledger[lid].figures.payout == 0 then (t, NothingToPay)
    else if t.ledger[lid].figures.payout % 100 != 0 then (t, NotWholeShillings)
    else if HasPayout(t, lid) then (t, AlreadyThere(PayoutOf(t, lid), false))
    else
      var made := InsertPayout(t, pid, lid, t.ledger[lid]);
      (AfterSend(made, pid, lid, reply), if SendThrows(made, pid, reply) then Threw else NewlyCreated(pid))
  }

  /** Once Daraja has acknowledged or ended a payout, asking again sends nothing and writes nothing. */
  lemma AskingAgainIsNoOp(t: PayoutTables, lid: LedgerId, pid: PayoutId, reply: B2CReply)
    requires HasPayout(t, lid) && !NeverReached(t.payouts[PayoutOf(t, lid)])
    ensures CreateTx(t, t, lid, pid, reply) == (t, AlreadyThere(PayoutOf(t, lid), false))
  {
  }

  /** Any definite answer to the first request makes every later request such a no-op. */
  lemma SecondRequestSendsNothing(t: PayoutTables, lid: LedgerId, pid: PayoutId, reply: B2CReply, next: PayoutId,
                                  again: B2CReply)
    requires !HasPayout(t, lid) && pid !in t.payouts
    requires reply.B2CAccepted? || reply.B2CRejected?
    requires CreateTx(t, t, lid, pid, reply).1.NewlyCreated?
    ensures var once := CreateTx(t, t, lid, pid, reply).0;
      CreateTx(once, once, lid, next, again) == (once, AlreadyThere(pid, false))
  {
    var once := CreateTx(t, t, lid, pid, reply).0;
    NewIsOnly(t, lid, pid, reply);
    AskingAgainIsNoOp(once, lid, next, again);
  }

  lemma NewIsOnly(t: PayoutTables, lid: LedgerId, pid: PayoutId, reply: B2CReply)
    requires !HasPayout(t, lid) && pid !in t.payouts
    requires CreateTx(t, t, lid, pid, reply).1.NewlyCreated?
    ensures var once := CreateTx(t, t, lid, pid, reply).0;
      && HasPayout(once, lid) && PayoutOf(once, lid) == pid && once.payouts.Keys == t.payouts.Keys + {pid}
      && (reply.B2CAccepted? || reply.B2CRejected? ==> !NeverReached(once.payouts[pid]))
  {
    var once := CreateTx(t, t, lid, pid, reply).0;
    assert pid in once.payouts && once.payouts[pid].ledgerId == lid;
    assert forall q :: q in once.payouts && once.payouts[q].ledgerId == lid ==> q == pid;
  }

  /** A timed-out first request is sent again under the same payout, and so the same originator. */
  lemma TimedOutRequestIsResent(t: PayoutTables, lid: LedgerId, pid: PayoutId, next: PayoutId, again: B2CReply)
    requires !HasPayout(t, lid) && pid !in t.payouts
    requires CreateTx(t, t, lid, pid, B2CUncertain).1.NewlyCreated?
    ensures var once := CreateTx(t, t, lid, pid, B2CUncertain).0;
      && once.payouts.Keys == t.payouts.Keys + {pid}
      && CreateTx(once, once, lid, next, again).0 == AfterSend(once, pid, lid, again)
  {
    NewIsOnly(t, lid, pid, B2CUncertain);
  }

  class PayoutDatabase {
    var ledger: map<LedgerId, LedgerRow>
    var payouts: map<PayoutId, Payout>
    var events: map<EventKey, Event>
    var nextId: nat  // stands for randomUUID

    constructor ()
      ensures Rows() == NoPayouts && Valid()
    {
      ledger, payouts, events, nextId := map[], map[], map[], 0;
    }

    ghost function Rows(): PayoutTables
      reads this
    {
      PayoutTables(ledger, payouts, events)
    }

    ghost predicate Valid()
      reads this
    {
      && (forall id :: id in ledger ==> id < nextId) && (forall id :: id in payouts ==> id < nextId)
      && OneRowPerKey(Rows()) && OnePayoutPerRow(Rows())
    }

    /** The close's INSERT ... ON CONFLICT DO NOTHING. */
    method WriteLedger(key: Key, f: Figures, runId: RunId) returns (created: bool)
      requires Valid()
      modifies this`ledger, this`nextId
      ensures Valid() && nextId == old(nextId) + 1
      ensures Rows() == Payouts.WriteLedger(old(Rows()), old(nextId), key, f, runId)
      ensures created <==> !KeyTaken(old(Rows()), key)
    {
      var lid := nextId;
      nextId := nextId + 1;
      created := !exists id :: id in ledger && ledger[id].key == key;
      if created {
        ledger := ledger[lid := LedgerRow(key, f, runId, StatusFor(f))];
      }
    }

    method SendB2C(pid: PayoutId, lid: LedgerId, reply: B2CReply) returns (threw: bool)
      requires pid in payouts
      modifies this`payouts, this`ledger
      ensures Rows() == AfterSend(old(Rows()), pid, lid, reply)
      ensures threw <==> SendThrows(old(Rows()), pid, reply)
    {
      payouts := payouts[pid := payouts[pid].(attempts := payouts[pid].attempts + 1)];
      match reply
      case B2CError => return true;
      case B2CUncertain =>
        payouts := payouts[pid := payouts[pid].(uncertain := true)];
        return false;
      case B2CRejected(response) =>
        if payouts[pid].status.PayoutPending? {
          payouts := payouts[pid := payouts[pid].(
            status := PayoutFailed, ending := Some(ByRefusal(response)), uncertain := true)];
        }
        if lid in ledger && (ledger[lid].status.LedgerComputed? || ledger[lid].status.LedgerRequested?) {
          ledger := ledger[lid := ledger[lid].(status := LedgerFailed)];
        }
        return false;
      case B2CAccepted(c) =>
        if other :| other in payouts && other != pid && payouts[other].conversation == Some(c) {
          assert old(payouts)[other].conversation == Some(c);
          return true;
        }
        assert !ConversationTaken(old(Rows()), pid, c) by {
          assert forall other :: other in old(payouts) && other != pid ==> payouts[other] == old(payouts)[other];
        }
        payouts := payouts[pid := payouts[pid].(conversation := Some(c), uncertain := false)];
        if lid in ledger && ledger[lid].status.LedgerComputed? {
          ledger := ledger[lid := ledger[lid].(status := LedgerRequested)];
        }
        return false;
    }

    method CreatePayout(seen: PayoutTables, lid: LedgerId, reply: B2CReply) returns (result: CreateReply)
      requires Valid() && OnePayoutPerRow(seen) && PayoutsEvolve(seen, Rows())
      modifies this
      ensures Valid() && events == old(events) && old(nextId) <= nextId
      ensures (Rows(), result) == CreateTx(seen, old(Rows()), lid, old(nextId), reply)
    {
      if existing :| existing in seen.payouts && seen.payouts[existing].ledgerId == lid {
        assert existing == PayoutOf(seen, lid);
        assert PayoutEvolves(seen.payouts[existing], payouts[existing]);
        if NeverReached(seen.payouts[existing]) && lid in ledger {
          SendKeepsKeys(Rows(), existing, lid, reply);
          var threw := SendB2C(existing, lid, reply);
          return if threw then Threw else AlreadyThere(existing, true);
        }
        return AlreadyThere(existing, false);
      }
      assert !HasPayout(seen, lid);
      if lid !in ledger { return LedgerMissing; }
      var row := ledger[lid];
      if row.figures.payout == 0 { return NothingToPay; }
      if row.figures.payout % 100 != 0 { return NotWholeShillings; }
      var pid := nextId;
      nextId := nextId + 1;
      if winner :| winner in payouts && payouts[winner].ledgerId == lid {
        assert winner == PayoutOf(Rows(), lid);
        return AlreadyThere(winner, false);
      }
      assert !HasPayout(Rows(), lid);
      payouts := payouts[pid := NewPayout(lid, row)];
      SendKeepsKeys(Rows(), pid, lid, reply);
      var threw := SendB2C(pid, lid, reply);
      return if threw then Threw else NewlyCreated(pid);
    }

    /** `seen` is what the SELECT ... WHERE originator_conversation_id read. */
    method ApplyB2CCallback(seen: PayoutTables, body: ResultBody) returns (outcome: B2COutcome)
      requires seen.payouts.Keys <= payouts.Keys
      modifies this`payouts, this`ledger, this`events
      ensures (Rows(), outcome) == ResultTx(seen, old(Rows()), body)
    {
      var k, pid := ResultKey(body), body.originator;
      if k in events {
        events := events[k := events[k].(duplicates := events[k].duplicates + 1)];
        return B2CDuplicate;
      }
      events := events[k := Event(false, false, 0)];
      if pid !in seen.payouts { return B2CUnmatched; }
      if body.code == SUCCESS && body.amount != Some(seen.payouts[pid].amount) {
        events := events[k := Event(true, false, 0)];
        assert events == old(events)[k := Event(true, false, 0)];
        return B2CHeld(pid);
      }
      if !payouts[pid].status.PayoutPending? {
        events := events[k := Event(true, false, 0)];
        assert events == old(events)[k := Event(true, false, 0)];
        return B2CSettled(pid, false);
      }
      payouts := payouts[pid := payouts[pid].(
        status := if body.code == SUCCESS then PayoutPaid else PayoutFailed, ending := Some(ByResult(body.code)))];
      var lid := payouts[pid].ledgerId;
      if lid in ledger && (ledger[lid].status.LedgerComputed? || ledger[lid].status.LedgerRequested?) {
        ledger := ledger[lid := ledger[lid].(status := if body.code == SUCCESS then LedgerPaid else LedgerFailed)];
      }
      events := events[k := Event(true, true, 0)];
      assert events == old(events)[k := Event(true, true, 0)];
      return B2CSettled(pid, true);
    }
  }

  // Ledger rows differ at most in their status.
  ghost predicate SameFigures(t: PayoutTables, t': PayoutTables) {
    t'.ledger.Keys == t.ledger.Keys
    && forall id :: id in t.ledger ==> t'.ledger[id].(status := t.ledger[id].status) == t.ledger[id]
  }

  ghost predicate SamePayouts(t: PayoutTables, t': PayoutTables) {
    t'.payouts.Keys == t.payouts.Keys
    && forall id :: id in t.payouts ==> t'.payouts[id].ledgerId == t.payouts[id].ledgerId
  }

  // No row appears, disappears or changes hands; ledger rows keep every computed column.
  ghost predicate StatusOnly(t: PayoutTables, t': PayoutTables) {
    SameFigures(t, t') && SamePayouts(t, t') && t'.events == t.events
  }

  lemma StatusOnlyTransitive(a: PayoutTables, b: PayoutTables, c: PayoutTables)
    requires StatusOnly(a, b) && StatusOnly(b, c)
    ensures StatusOnly(a, c)
  {
  }

  lemma PayoutWritesStatusOnly(t: PayoutTables, pid: PayoutId, response: Option<int>, c: Conversation)
    ensures StatusOnly(t, CountSend(t, pid)) && StatusOnly(t, NoteUncertain(t, pid))
    ensures StatusOnly(t, RefusePayout(t, pid, response)) && StatusOnly(t, AckPayout(t, pid, c))
  {
    WriteStatusOnly(t, pid, t.payouts);
    if pid in t.payouts {
      var p := t.payouts[pid];
      WriteStatusOnly(t, pid, t.payouts[pid := p.(attempts := p.attempts + 1)]);
      WriteStatusOnly(t, pid, t.payouts[pid := p.(uncertain := true)]);
      var refused := p.(status := PayoutFailed, ending := Some(ByRefusal(response)), uncertain := true);
      WriteStatusOnly(t, pid, t.payouts[pid := refused]);
      WriteStatusOnly(t, pid, t.payouts[pid := p.(conversation := Some(c), uncertain := false)]);
    }
    hide StatusOnly;
  }

  lemma WriteStatusOnly(t: PayoutTables, pid: PayoutId, payouts: map<PayoutId, Payout>)
    requires payouts.Keys == t.payouts.Keys && forall q :: q in payouts ==> payouts[q].ledgerId == t.payouts[q].ledgerId
    ensures StatusOnly(t, t.(payouts := payouts))
  {
  }

  lemma LedgerMovesStatusOnly(t: PayoutTables, lid: LedgerId)
    ensures StatusOnly(t, RefuseLedger(t, lid)) && StatusOnly(t, AckLedger(t, lid))
  {
  }

  lemma SendChangesStatusOnly(t: PayoutTables, pid: PayoutId, lid: LedgerId, reply: B2CReply)
    ensures StatusOnly(t, AfterSend(t, pid, lid, reply))
  {
    hide StatusOnly, CountSend, NoteUncertain, RefusePayout, AckPayout, RefuseLedger, AckLedger, SendThrows;
    var counted := CountSend(t, pid);
    PayoutWritesStatusOnly(t, pid, None, 0);
    match reply
    case B2CUncertain =>
      PayoutWritesStatusOnly(counted, pid, None, 0);
      StatusOnlyTransitive(t, counted, NoteUncertain(counted, pid));
    case B2CRejected(response) =>
      PayoutWritesStatusOnly(counted, pid, response, 0);
      var refused := RefusePayout(counted, pid, response);
      LedgerMovesStatusOnly(refused, lid);
      StatusOnlyTransitive(t, counted, refused);
      StatusOnlyTransitive(t, refused, RefuseLedger(refused, lid));
    case B2CAccepted(c) =>
      PayoutWritesStatusOnly(counted, pid, None, c);
      var acked := AckPayout(counted, pid, c);
      LedgerMovesStatusOnly(acked, lid);
      StatusOnlyTransitive(t, counted, acked);
      StatusOnlyTransitive(t, acked, AckLedger(acked, lid));
    case B2CError =>
  }

  lemma SendKeepsKeys(t: PayoutTables, pid: PayoutId, lid: LedgerId, reply: B2CReply)
    requires pid in t.payouts && OneRowPerKey(t) && OnePayoutPerRow(t)
    ensures var t' := AfterSend(t, pid, lid, reply);
      && OneRowPerKey(t') && OnePayoutPerRow(t') && t'.events == t.events
      && t'.ledger.Keys == t.ledger.Keys && t'.payouts.Keys == t.payouts.Keys
  {
    SendChangesStatusOnly(t, pid, lid, reply);
    hide AfterSend;
  }

  /** Asking for a payout never touches a computed column. */
  lemma CreateKeepsFigures(seen: PayoutTables, t: PayoutTables, lid: LedgerId, pid: PayoutId, reply: B2CReply)
    requires seen.payouts.Keys <= t.payouts.Keys
    ensures SameFigures(t, CreateTx(seen, t, lid, pid, reply).0)
  {
    hide AfterSend;
    if HasPayout(seen, lid) {
      SendChangesStatusOnly(t, PayoutOf(seen, lid), lid, reply);
    } else if lid in t.ledger {
      var made := InsertPayout(t, pid, lid, t.ledger[lid]);
      if pid in made.payouts { SendChangesStatusOnly(made, pid, lid, reply); }
    }
  }
}
