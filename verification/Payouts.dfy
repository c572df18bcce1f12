/**
  * The payout side: payout_ledger, payouts and the B2C rows of callback_events, and every statement or
  * transaction that writes them, each as one function from tables to tables.
  */
module Payouts {
  import opened Common
  import opened Charges

  type LedgerId = nat
  type PayoutId = nat       // also the OriginatorConversationID of its requests
  type Conversation = nat
  type RunId = nat

  const B2C_MAX_ATTEMPTS: nat := 3
  const NO_MSISDN: Phone := 0

  // UNIQUE(tenant_id, attendant_id, business_day)
  datatype Key = Key(tenantId: TenantId, attendantId: AttendantId, day: string)

  // The columns computed at close time; no UPDATE writes them.
  datatype Figures = Figures(
    amount: nat, payout: nat, remainder: nat, rateBps: nat, msisdn: Phone, saleCount: nat, saleTotal: nat)

  datatype LedgerStatus = LedgerComputed | LedgerRequested | LedgerPaid | LedgerFailed | LedgerSkipped
  datatype LedgerRow = LedgerRow(key: Key, figures: Figures, runId: RunId, status: LedgerStatus)

  // result_code and result_desc: how a payout ended.
  datatype Ending = ByRefusal(response: Option<int>) | ByResult(code: int)
  datatype PayoutStatus = PayoutPending | PayoutPaid | PayoutFailed

  datatype Payout = Payout(
    ledgerId: LedgerId,
    tenantId: TenantId,
    amount: nat,
    msisdn: Phone,
    status: PayoutStatus,
    conversation: Option<Conversation>,
    attempts: nat,
    uncertain: bool,           // last_request_error
    ending: Option<Ending>)

  // A body POSTed to /callbacks/b2c; amount None: absent or not a number.
  datatype ResultBody = ResultBody(originator: PayoutId, code: int, amount: Option<int>, digest: nat)

  datatype PayoutTables = PayoutTables(
    ledger: map<LedgerId, LedgerRow>,
    payouts: map<PayoutId, Payout>,
    events: map<EventKey, Event>)   // kind = 'b2c'

  const NoPayouts := PayoutTables(map[], map[], map[])

  predicate KeyTaken(t: PayoutTables, key: Key) {
    exists id :: id in t.ledger && t.ledger[id].key == key
  }

  predicate HasPayout(t: PayoutTables, lid: LedgerId) {
    exists pid :: pid in t.payouts && t.payouts[pid].ledgerId == lid
  }

  // ---------------------------------------------------------------- the close's insert

  /** A row nobody can be paid for is ledgered as SKIPPED. */
  function StatusFor(f: Figures): LedgerStatus {
    if f.payout > 0 && f.msisdn != NO_MSISDN then LedgerComputed else LedgerSkipped
  }

  /** INSERT ... ON CONFLICT (tenant_id, attendant_id, business_day) DO NOTHING. */
  function WriteLedger(t: PayoutTables, lid: LedgerId, key: Key, f: Figures, runId: RunId): PayoutTables {
    if KeyTaken(t, key) then t
    else t.(ledger := t.ledger[lid := LedgerRow(key, f, runId, StatusFor(f))])
  }

  // ---------------------------------------------------------------- createPayout

  predicate Payable(row: LedgerRow) {
    row.figures.payout > 0 && row.figures.payout % 100 == 0
  }

  function NewPayout(lid: LedgerId, row: LedgerRow): Payout {
    Payout(lid, row.key.tenantId, row.figures.payout, row.figures.msisdn, PayoutPending, None, 0, false, None)
  }

  /** INSERT INTO payouts, with UNIQUE(ledger_id); `row` is the ledger row as createPayout read it. */
  function InsertPayout(t: PayoutTables, pid: PayoutId, lid: LedgerId, row: LedgerRow): PayoutTables {
    if HasPayout(t, lid) then t else t.(payouts := t.payouts[pid := NewPayout(lid, row)])
  }

  /** A payout that never reached Daraja, as far as anybody knows, may be sent again. */
  predicate NeverReached(p: Payout) {
    p.status.PayoutPending? && p.conversation.None? && p.attempts < B2C_MAX_ATTEMPTS
  }

  function Write(t: PayoutTables, pid: PayoutId, p: Payout): PayoutTables {
    t.(payouts := t.payouts[pid := p])
  }

  function CountSend(t: PayoutTables, pid: PayoutId): PayoutTables {
    if pid !in t.payouts then t else Write(t, pid, t.payouts[pid].(attempts := t.payouts[pid].attempts + 1))
  }

  function NoteUncertain(t: PayoutTables, pid: PayoutId): PayoutTables {
    if pid !in t.payouts then t else Write(t, pid, t.payouts[pid].(uncertain := true))
  }

  function RefusePayout(t: PayoutTables, pid: PayoutId, response: Option<int>): PayoutTables {
    if pid in t.payouts && t.payouts[pid].status.PayoutPending? then
      Write(t, pid, t.payouts[pid].(status := PayoutFailed, ending := Some(ByRefusal(response)), uncertain := true))
    else t
  }

  /** SET conversation_id, whatever the status; UNIQUE(conversation_id) may refuse it. */
  function AckPayout(t: PayoutTables, pid: PayoutId, c: Conversation): PayoutTables {
    if pid !in t.payouts || (exists other :: other in t.payouts && other != pid && t.payouts[other].conversation == Some(c))
    then t
    else Write(t, pid, t.payouts[pid].(conversation := Some(c), uncertain := false))
  }

  // ---------------------------------------------------------------- the ledger's status

  function MoveLedger(t: PayoutTables, lid: LedgerId, from: set<LedgerStatus>, to: LedgerStatus): PayoutTables {
    if lid in t.ledger && t.ledger[lid].status in from then
      t.(ledger := t.ledger[lid := t.ledger[lid].(status := to)])
    else t
  }

  function RefuseLedger(t: PayoutTables, lid: LedgerId): PayoutTables {
    MoveLedger(t, lid, {LedgerComputed, LedgerRequested}, LedgerFailed)
  }

  function AckLedger(t: PayoutTables, lid: LedgerId): PayoutTables {
    MoveLedger(t, lid, {LedgerComputed}, LedgerRequested)
  }

  // ---------------------------------------------------------------- b2cCallbackService.ts

  datatype B2COutcome =
    | B2CDuplicate
    | B2CUnmatched
    | B2CHeld(payoutId: PayoutId)
    | B2CSettled(payoutId: PayoutId, applied: bool)

  function ResultKey(b: ResultBody): EventKey {
    EventKey(b.originator, b.code, b.digest)
  }

  function MarkEvent(t: PayoutTables, k: EventKey, applied: bool): PayoutTables {
    t.(events := t.events[k := Event(true, applied, 0)])
  }

  function EndPayout(t: PayoutTables, pid: PayoutId, code: int): PayoutTables
    requires pid in t.payouts
  {
    var done := Write(t, pid, t.payouts[pid].(
      status := if code == SUCCESS then PayoutPaid else PayoutFailed, ending := Some(ByResult(code))));
    MoveLedger(done, t.payouts[pid].ledgerId, {LedgerComputed, LedgerRequested},
      if code == SUCCESS then LedgerPaid else LedgerFailed)
  }

  /** applyB2CCallback's one transaction; `seen` is what SELECT ... WHERE originator_conversation_id read. */
  function ResultTx(seen: PayoutTables, t: PayoutTables, b: ResultBody): (PayoutTables, B2COutcome) {
    var k, pid := ResultKey(b), b.originator;
    if k in t.events then
      (t.(events := t.events[k := t.events[k].(duplicates := t.events[k].duplicates + 1)]), B2CDuplicate)
    else if pid !in seen.payouts then
      (t.(events := t.events[k := Event(false, false, 0)]), B2CUnmatched)
    else if b.code == SUCCESS && b.amount != Some(seen.payouts[pid].amount) then
      (MarkEvent(t, k, false), B2CHeld(pid))
    else if pid in t.payouts && t.payouts[pid].status.PayoutPending? then
      (EndPayout(MarkEvent(t, k, true), pid, b.code), B2CSettled(pid, true))
    else (MarkEvent(t, k, false), B2CSettled(pid, false))
  }
}
