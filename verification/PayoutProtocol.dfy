/**
  * The payout protocol as a transition system: closes that overlap, crash and repeat, the un-acked
  * statements of sendB2C, result callbacks in any number and order, and a provider that pays at most
  * one request per OriginatorConversationID.
  */
module PayoutProtocol {
  import opened Common
  import opened Charges
  import opened Payouts

  datatype Request = Request(originator: PayoutId, amount: nat, msisdn: Phone)
  datatype LedgerWrite = LedgerWrite(key: Key, figures: Figures)
  type SendId = nat  // one execution of sendB2C

  datatype PayoutLog = PayoutLog(
    writes: seq<LedgerWrite>,               // every ledger insert attempted, in order
    counted: map<SendId, PayoutId>,         // every b2c_attempts + 1, by the execution that made it
    sent: set<SendId>,                      // the executions whose request left
    requests: set<Request>,                 // every B2C request that left
    acks: set<(PayoutId, Conversation)>,
    refusals: set<PayoutId>,
    bodies: set<ResultBody>,                // result bodies received, honest or not
    transfers: seq<Request>)                // money the provider moved

  datatype PayoutWorld = PayoutWorld(tables: PayoutTables, log: PayoutLog)

  datatype PayoutStep =
    | LedgerWritten(lid: LedgerId, key: Key, figures: Figures, runId: RunId)
    | PayoutInserted(pid: PayoutId, lid: LedgerId)
    | SendCounted(pid: PayoutId, send: SendId)
    | RequestSent(pid: PayoutId, send: SendId)
    | RequestAcked(pid: PayoutId, conversation: Conversation)
    | RequestRefused(pid: PayoutId)
    | UncertainNoted(pid: PayoutId)
    | PayoutRefusalRecorded(pid: PayoutId, response: Option<int>)
    | LedgerRefusalRecorded(pid: PayoutId)
    | PayoutAckRecorded(pid: PayoutId, conversation: Conversation)
    | LedgerAckRecorded(pid: PayoutId)
    | ResultReceived(body: ResultBody)
    | ResultApplied(body: ResultBody)
    | MoneyMoved(request: Request)

  ghost predicate PayoutInit(w: PayoutWorld) {
    w == PayoutWorld(NoPayouts, PayoutLog([], map[], {}, {}, {}, {}, {}, []))
  }

  // v is an earlier moment of the run: what the step's actor had read or written before.
  ghost predicate CanStep(v: PayoutWorld, w: PayoutWorld, s: PayoutStep) {
    match s
    case LedgerWritten(lid, _, figures, _) => lid !in w.tables.ledger && figures.payout % 100 == 0
    // The close asks only for rows it read as COMPUTED, and createPayout checks the amount.
    case PayoutInserted(pid, lid) =>
      pid !in w.tables.payouts && lid in v.tables.ledger && v.tables.ledger[lid].status.LedgerComputed?
      && Payable(v.tables.ledger[lid])
    case SendCounted(pid, n) =>
      pid in v.tables.payouts && NeverReached(v.tables.payouts[pid]) && n !in w.log.counted
    // sendB2C counts, then sends, once.
    case RequestSent(pid, n) =>
      n in v.log.counted && v.log.counted[n] == pid && n !in w.log.sent
      && pid in v.tables.payouts && v.tables.payouts[pid].ledgerId in v.tables.ledger
    case RequestAcked(pid, _) => exists r :: r in w.log.requests && r.originator == pid
    case RequestRefused(pid) => exists r :: r in w.log.requests && r.originator == pid
    case PayoutRefusalRecorded(pid, _) => pid in w.log.refusals
    // Second statements: their own first statement has run.
    case LedgerRefusalRecorded(pid) =>
      pid in w.log.refusals && pid in v.tables.payouts && !v.tables.payouts[pid].status.PayoutPending?
    case PayoutAckRecorded(pid, c) => (pid, c) in w.log.acks
    case LedgerAckRecorded(pid) => pid in v.tables.payouts && v.tables.payouts[pid].conversation.Some?
    case ResultApplied(body) => body in v.log.bodies
    case MoneyMoved(r) =>
      r in w.log.requests && forall i :: 0 <= i < |w.log.transfers| ==> w.log.transfers[i].originator != r.originator
    case _ => true
  }

  function TablesNext(v: PayoutWorld, w: PayoutWorld, s: PayoutStep): PayoutTables {
    var t := w.tables;
    match s
    case LedgerWritten(lid, key, figures, runId) => WriteLedger(t, lid, key, figures, runId)
    case PayoutInserted(pid, lid) =>
      if lid !in v.tables.ledger then t else InsertPayout(t, pid, lid, v.tables.ledger[lid])
    case SendCounted(pid, _) => CountSend(t, pid)
    case UncertainNoted(pid) => NoteUncertain(t, pid)
    case PayoutRefusalRecorded(pid, response) => RefusePayout(t, pid, response)
    case LedgerRefusalRecorded(pid) =>
      if pid !in v.tables.payouts then t else RefuseLedger(t, v.tables.payouts[pid].ledgerId)
    case PayoutAckRecorded(pid, c) => AckPayout(t, pid, c)
    case LedgerAckRecorded(pid) =>
      if pid !in v.tables.payouts then t else AckLedger(t, v.tables.payouts[pid].ledgerId)
    case ResultApplied(body) => ResultTx(v.tables, t, body).0
    case _ => t
  }

  function LogNext(v: PayoutWorld, w: PayoutWorld, s: PayoutStep): PayoutLog {
    var l := w.log;
    match s
    case LedgerWritten(_, key, figures, _) => l.(writes := l.writes + [LedgerWrite(key, figures)])
    case SendCounted(pid, n) => l.(counted := l.counted[n := pid])
    case RequestSent(pid, n) =>
      if pid !in v.tables.payouts || v.tables.payouts[pid].ledgerId !in v.tables.ledger then l
      else
        var figures := v.tables.ledger[v.tables.payouts[pid].ledgerId].figures;
        l.(sent := l.sent + {n}, requests := l.requests + {Request(pid, figures.payout, figures.msisdn)})
    case RequestAcked(pid, c) => l.(acks := l.acks + {(pid, c)})
    case RequestRefused(pid) => l.(refusals := l.refusals + {pid})
    case ResultReceived(body) => l.(bodies := l.bodies + {body})
    case MoneyMoved(r) => l.(transfers := l.transfers + [r])
    case _ => l
  }

  ghost predicate PayoutNext(v: PayoutWorld, w: PayoutWorld, w': PayoutWorld, s: PayoutStep) {
    CanStep(v, w, s) && w' == PayoutWorld(TablesNext(v, w, s), LogNext(v, w, s))
  }

  datatype PayoutAct = PayoutAct(step: PayoutStep, v: nat)

  ghost predicate IsPayoutRun(run: seq<PayoutWorld>, acts: seq<PayoutAct>) {
    && |run| == |acts| + 1 && PayoutInit(run[0])
    && forall i :: 0 <= i < |acts| ==> acts[i].v <= i && PayoutNext(run[acts[i].v], run[i], run[i + 1], acts[i].step)
  }

  // ---------------------------------------------------------------- the invariant

  /** The left-biased merge: for every key, the figures of the first write. */
  function FirstWrite(writes: seq<LedgerWrite>, key: Key): Option<Figures> {
    if writes == [] then None
    else if writes[0].key == key then Some(writes[0].figures)
    else FirstWrite(writes[1..], key)
  }

  ghost predicate OneRowPerKey(t: PayoutTables) {
    forall i, j :: i in t.ledger && j in t.ledger && t.ledger[i].key == t.ledger[j].key ==> i == j
  }

  ghost predicate OnePayoutPerRow(t: PayoutTables) {
    forall i, j :: i in t.payouts && j in t.payouts && t.payouts[i].ledgerId == t.payouts[j].ledgerId ==> i == j
  }

  // SKIPPED is exactly nothing to send or nowhere to send it.
  ghost predicate SkippedRight(t: PayoutTables) {
    forall id :: id in t.ledger ==>
      (t.ledger[id].status.LedgerSkipped? <==> t.ledger[id].figures.payout == 0 || t.ledger[id].figures.msisdn == NO_MSISDN)
  }

  ghost predicate LedgerIsMerge(w: PayoutWorld) {
    && (forall id :: id in w.tables.ledger ==>
          FirstWrite(w.log.writes, w.tables.ledger[id].key) == Some(w.tables.ledger[id].figures))
    && (forall i :: 0 <= i < |w.log.writes| ==> KeyTaken(w.tables, w.log.writes[i].key))
  }

  // A payout pays what its ledger row says, to whom it says.
  ghost predicate PayoutFits(t: PayoutTables, p: Payout) {
    && p.ledgerId in t.ledger
    && var row := t.ledger[p.ledgerId];
       p.amount == row.figures.payout && p.msisdn == row.figures.msisdn && p.tenantId == row.key.tenantId
       && p.amount > 0 && p.amount % 100 == 0 && !row.status.LedgerSkipped?
  }

  // The two status columns, however far apart sendB2C's statements are torn.
  ghost predicate InStep(p: Payout, row: LedgerRow) {
    && (p.status.PayoutPending? ==> row.status.LedgerComputed? || row.status.LedgerRequested?)
    && (p.status.PayoutPaid? <==> row.status.LedgerPaid?)
    && (row.status.LedgerFailed? ==> p.status.PayoutFailed?)
    && (row.status.LedgerRequested? ==> p.conversation.Some?)
    && (p.status.PayoutPending? <==> p.ending.None?)
    && (p.status.PayoutPaid? ==> p.ending == Some(ByResult(SUCCESS)))
    && (p.status.PayoutFailed? && p.ending.value.ByResult? ==> row.status.LedgerFailed? && p.ending.value.code != SUCCESS)
  }

  ghost predicate PairInStep(t: PayoutTables, pid: PayoutId) {
    && pid in t.payouts && PayoutFits(t, t.payouts[pid])
    && InStep(t.payouts[pid], t.ledger[t.payouts[pid].ledgerId])
  }

  predicate Moved(row: LedgerRow) {
    !row.status.LedgerComputed? && !row.status.LedgerSkipped?
  }

  ghost predicate AllInStep(t: PayoutTables) {
    && (forall pid :: pid in t.payouts ==> PairInStep(t, pid))
    && (forall lid :: lid in t.ledger && Moved(t.ledger[lid]) ==> HasPayout(t, lid))
  }

  // Every request that left says what its payout says.
  ghost predicate RequestsFit(w: PayoutWorld) {
    forall r :: r in w.log.requests ==>
      r.originator in w.tables.payouts
      && r.amount == w.tables.payouts[r.originator].amount && r.msisdn == w.tables.payouts[r.originator].msisdn
  }

  // Money moves only on a request, and once per originator.
  ghost predicate TransfersOnce(log: PayoutLog) {
    && (forall i :: 0 <= i < |log.transfers| ==> log.transfers[i] in log.requests)
    && (forall i, j :: 0 <= i < j < |log.transfers| ==> log.transfers[i].originator != log.transfers[j].originator)
  }

  ghost predicate PayoutEvidence(log: PayoutLog, pid: PayoutId, p: Payout) {
    && (p.conversation.Some? ==> (pid, p.conversation.value) in log.acks)
    && (p.status.PayoutPaid? ==>
          exists b :: b in log.bodies && b.originator == pid && b.code == SUCCESS && b.amount == Some(p.amount))
    && (p.status.PayoutFailed? ==>
          pid in log.refusals || exists b :: b in log.bodies && b.originator == pid && b.code != SUCCESS)
  }

  ghost predicate AllEvidenced(w: PayoutWorld) {
    forall pid :: pid in w.tables.payouts ==> PayoutEvidence(w.log, pid, w.tables.payouts[pid])
  }

  ghost predicate PayoutInv(w: PayoutWorld) {
    && OneRowPerKey(w.tables) && OnePayoutPerRow(w.tables) && SkippedRight(w.tables)
    && LedgerIsMerge(w) && AllInStep(w.tables)
    && RequestsFit(w) && TransfersOnce(w.log) && AllEvidenced(w)
  }

  // How rows may change between two moments.
  ghost predicate LedgerRowEvolves(a: LedgerRow, b: LedgerRow) {
    && b.key == a.key && b.figures == a.figures && b.runId == a.runId
    && (a.status.LedgerPaid? || a.status.LedgerFailed? || a.status.LedgerSkipped? ==> b.status == a.status)
    && (a.status.LedgerRequested? ==> !b.status.LedgerComputed? && !b.status.LedgerSkipped?)
    && (a.status.LedgerComputed? ==> !b.status.LedgerSkipped?)
  }

  ghost predicate PayoutEvolves(a: Payout, b: Payout) {
    && b.ledgerId == a.ledgerId && b.amount == a.amount && b.msisdn == a.msisdn && b.tenantId == a.tenantId
    && (!a.status.PayoutPending? ==> b.status == a.status && b.ending == a.ending)
    && (a.conversation.Some? ==> b.conversation.Some?)
    && a.attempts <= b.attempts
  }

  ghost predicate PayoutsEvolve(a: PayoutTables, b: PayoutTables) {
    && (forall id :: id in a.ledger ==> id in b.ledger && LedgerRowEvolves(a.ledger[id], b.ledger[id]))
    && (forall id :: id in a.payouts ==> id in b.payouts && PayoutEvolves(a.payouts[id], b.payouts[id]))
  }

  ghost predicate PayoutLogGrows(a: PayoutLog, b: PayoutLog) {
    && (forall n :: n in a.counted ==> n in b.counted && b.counted[n] == a.counted[n])
    && a.sent <= b.sent
    && a.writes <= b.writes && a.requests <= b.requests && a.acks <= b.acks && a.refusals <= b.refusals
    && a.bodies <= b.bodies && a.transfers <= b.transfers
  }

  ghost predicate PayoutGrows(a: PayoutWorld, b: PayoutWorld) {
    PayoutsEvolve(a.tables, b.tables) && PayoutLogGrows(a.log, b.log)
  }
}
