/**
  * The tables a charge touches (charges, callback_events, outbox_events) and every statement or
  * transaction that writes them, each as one atomic function from tables to tables.
  *
  * What a transaction READ may be older than the tables it commits to, so the rows it read are
  * separate arguments; every guarded UPDATE looks at the tables at commit.
  */
module Charges {
  import opened Common

  const ADOPTION_WINDOW: int := 30 * MINUTE
  const SUCCESS := 0

  datatype Status = Pending | Paid | Failed
  datatype Source = ByCallback | ByQuery

  // last_push_error
  datatype PushNote = Clean | Unacknowledged | Refused | LateAck(reference: Reference)

  // hold_reason: the amount a success callback reported (None: not a number)
  datatype Hold = AmountMismatch(reported: Option<int>)

  // The columns INSERT writes and no UPDATE ever does.
  datatype Facts = Facts(saleId: SaleId, tenantId: TenantId, amount: nat, msisdn: Phone, createdAt: Instant)

  datatype Charge = Charge(
    facts: Facts,
    status: Status,
    reference: Option<Reference>,
    hold: Option<Hold>,
    resolvedBy: Option<Source>,
    resultCode: Option<int>,
    paidAt: Option<Instant>,
    stkAttempts: nat,
    reconcileAttempts: nat,
    pushNote: PushNote)

  // A body POSTed to /callbacks/stk; digest is the checksum of its canonical form.
  datatype StkBody = StkBody(
    reference: Reference, code: int, amount: Option<int>, msisdn: Phone, paidAt: Option<Instant>, digest: nat)

  // (kind, reference, result_code, checksum) with kind = 'stk'
  datatype EventKey = EventKey(reference: Reference, code: int, digest: nat)
  datatype Event = Event(matched: bool, applied: bool, duplicates: nat)

  datatype SalePaid = SalePaid(
    chargeId: ChargeId, saleId: SaleId, tenantId: TenantId, amount: nat, paidAt: Instant)

  // Stored under its aggregate_id: UNIQUE(event_type, aggregate_id), and sale.paid is the only type.
  datatype OutboxRow = OutboxRow(event: SalePaid, published: bool, attempts: nat)

  // `born` remembers the facts of every row ever inserted, so that a purged id is known to be used up.
  datatype Tables = Tables(
    born: map<ChargeId, Facts>,
    charges: map<ChargeId, Charge>,
    events: map<EventKey, Event>,
    outbox: map<ChargeId, OutboxRow>)

  // What a call to Daraja comes back with.
  datatype PushReply = Acknowledged(reference: Reference) | NoReply | Rejected(response: Option<int>) | OtherError
  datatype QueryReply = StillProcessing | Complete(result: int) | Unreachable

  const Empty := Tables(map[], map[], map[], map[])

  // A transaction either commits with a value, or a unique key it hits rolls all of it back.
  datatype Tx<+T> = Committed(tables: Tables, value: T) | Aborted

  function NewCharge(facts: Facts): Charge {
    Charge(facts, Pending, None, None, None, None, None, 0, 0, Clean)
  }

  predicate SaleTaken(t: Tables, saleId: SaleId) {
    exists id :: id in t.charges && t.charges[id].facts.saleId == saleId
  }

  predicate ReferenceTaken(t: Tables, r: Reference) {
    exists id :: id in t.charges && t.charges[id].reference == Some(r)
  }

  // ---------------------------------------------------------------- creating and pushing a charge

  /** INSERT INTO charges, with UNIQUE(sale_id). */
  function InsertCharge(t: Tables, id: ChargeId, facts: Facts): Tx<()> {
    if SaleTaken(t, facts.saleId) then Aborted
    else Committed(t.(born := t.born[id := facts], charges := t.charges[id := NewCharge(facts)]), ())
  }

  function Update(t: Tables, id: ChargeId, c: Charge): Tables {
    t.(charges := t.charges[id := c])
  }

  function CountPush(t: Tables, id: ChargeId): Tables {
    if id !in t.charges then t
    else Update(t, id, t.charges[id].(stkAttempts := t.charges[id].stkAttempts + 1))
  }

  function NotePush(t: Tables, id: ChargeId, note: PushNote): Tables {
    if id !in t.charges then t else Update(t, id, t.charges[id].(pushNote := note))
  }

  /** A synchronous rejection: the one path from a push to FAILED. There is no hold guard here. */
  function RecordRefusal(t: Tables, id: ChargeId, code: Option<int>): Tables {
    if id in t.charges && t.charges[id].status.Pending? then
      Update(t, id, t.charges[id].(status := Failed, resultCode := code, pushNote := Refused))
    else t
  }

  /** UPDATE ... SET checkout_request_id WHERE it is NULL and the charge is PENDING; did a row take it? */
  function ClaimReference(t: Tables, id: ChargeId, r: Reference): Tx<bool> {
    if !(id in t.charges && t.charges[id].status.Pending? && t.charges[id].reference.None?) then Committed(t, false)
    else if ReferenceTaken(t, r) then Aborted
    else Committed(Update(t, id, t.charges[id].(reference := Some(r))), true)
  }

  /** An acknowledgement claims its reference and clears last_push_error. */
  function ClaimAck(t: Tables, id: ChargeId, r: Reference): Tx<bool> {
    match ClaimReference(t, id, r)
    case Aborted => Aborted
    case Committed(t', claimed) => Committed(if claimed then NotePush(t', id, Clean) else t', claimed)
  }

  // ---------------------------------------------------------------- resolving a charge

  datatype Resolution = Resolution(paid: bool, code: int, paidAt: Option<Instant>, source: Source)

  predicate Open(t: Tables, id: ChargeId) {
    id in t.charges && t.charges[id].status.Pending? && t.charges[id].hold.None?
  }

  /** applyChargeResolution: `row` is the caller's copy, possibly stale; the guard is re-read in `t`. */
  function Resolve(t: Tables, id: ChargeId, row: Charge, r: Resolution, now: Instant): Tx<bool> {
    if row.hold.Some? || !Open(t, id) then Committed(t, false)
    else if !r.paid then
      Committed(Update(t, id, t.charges[id].(
        status := Failed, resultCode := Some(r.code), resolvedBy := Some(r.source))), true)
    else if id in t.outbox then Aborted
    else
      var at := GetOr(r.paidAt, now);
      var event := SalePaid(id, row.facts.saleId, row.facts.tenantId, row.facts.amount, at);
      Committed(Update(t, id, t.charges[id].(
        status := Paid, resultCode := Some(r.code), resolvedBy := Some(r.source), paidAt := Some(at)))
        .(outbox := t.outbox[id := OutboxRow(event, false, 0)]), true)
  }

  // ---------------------------------------------------------------- callbacks

  // What the confirming stkQuery said.
  datatype Verdict = Confirmed | Contradicted | Unconfirmed | Skipped | NotRequired

  datatype Disposition =
    | Duplicate
    | Unmatched
    | Ambiguous
    | HeldForReview(chargeId: ChargeId, adopted: bool)
    | Withheld(chargeId: ChargeId, adopted: bool)
    | Settled(chargeId: ChargeId, adopted: bool, applied: bool)

  function KeyOf(body: StkBody): EventKey {
    EventKey(body.reference, body.code, body.digest)
  }

  predicate Adoptable(c: Charge, amount: int, msisdn: Phone, now: Instant) {
    && c.status.Pending? && c.reference.None? && c.hold.None?
    && c.facts.amount == amount && c.facts.msisdn == msisdn
    && c.facts.createdAt >= now - ADOPTION_WINDOW
  }

  function Candidates(t: Tables, amount: int, msisdn: Phone, now: Instant): set<ChargeId> {
    set id | id in t.charges && Adoptable(t.charges[id], amount, msisdn, now)
  }

  function Holders(t: Tables, r: Reference): set<ChargeId> {
    set id | id in t.charges && t.charges[id].reference == Some(r)
  }

  /** The cheap test confirmSuccess makes before it spends a query. */
  predicate PreCheck(t: Tables, body: StkBody, at: Instant) {
    exists id :: id in t.charges && Open(t, id)
      && (t.charges[id].reference == Some(body.reference)
          || (body.amount.Some? && Adoptable(t.charges[id], body.amount.value, body.msisdn, at)))
  }

  function Mark(t: Tables, key: EventKey, applied: bool): Tables {
    if key !in t.events then t
    else t.(events := t.events[key := t.events[key].(matched := true, applied := applied)])
  }

  function PutOnHold(t: Tables, id: ChargeId, reported: Option<int>): Tables {
    if Open(t, id) then Update(t, id, t.charges[id].(hold := Some(AmountMismatch(reported)))) else t
  }

  function ResolutionOf(body: StkBody): Resolution {
    if body.code == SUCCESS then Resolution(true, body.code, body.paidAt, ByCallback)
    else Resolution(false, body.code, None, ByCallback)
  }

  /** Steps 3 to 5 of a callback, once it is matched to charge `id`, whose row was read as `row`. */
  function Settle(t: Tables, id: ChargeId, row: Charge, adopted: bool, body: StkBody, verdict: Verdict, now: Instant)
    : Tx<Disposition>
  {
    if body.code == SUCCESS && body.amount != Some(row.facts.amount) then
      Committed(Mark(PutOnHold(t, id, body.amount), KeyOf(body), false), HeldForReview(id, adopted))
    else if body.code == SUCCESS && (verdict.Contradicted? || verdict.Unconfirmed?) then
      Committed(Mark(t, KeyOf(body), false), Withheld(id, adopted))
    else
      match Resolve(t, id, row, ResolutionOf(body), now)
      case Aborted => Aborted
      case Committed(t', applied) => Committed(Mark(t', KeyOf(body), applied), Settled(id, adopted, applied))
  }

  /** Re-association: exactly one candidate in what was read, and it is still claimable at commit. */
  ghost function Adopt(pool: Tables, t: Tables, body: StkBody, verdict: Verdict, now: Instant): Tx<Disposition>
    requires body.amount.Some?
  {
    var found := Candidates(pool, body.amount.value, body.msisdn, now);
    if found == {} then Committed(t, Unmatched)
    else
      var id :| id in found;
      if found != {id} then Committed(t, Ambiguous)
      else
        match ClaimReference(t, id, body.reference)
        case Aborted => Aborted
        case Committed(t', claimed) =>
          if !claimed then Committed(t, Unmatched)
          else Settle(t', id, pool.charges[id].(reference := Some(body.reference)), true, body, verdict, now)
  }

  function Record(t: Tables, body: StkBody): Tables {
    t.(events := t.events[KeyOf(body) := Event(false, false, 0)])
  }

  /**
    * applyStkCallback's one transaction. `seen` is what SELECT ... WHERE checkout_request_id read,
    * `pool` is what findAdoptableCharge read, `t` is what the transaction commits to.
    */
  ghost function CallbackTx(seen: Tables, pool: Tables, t: Tables, body: StkBody, verdict: Verdict, now: Instant)
    : Tx<Disposition>
  {
    var key := KeyOf(body);
    if key in t.events then
      Committed(t.(events := t.events[key := t.events[key].(duplicates := t.events[key].duplicates + 1)]), Duplicate)
    else
      var holders := Holders(seen, body.reference);
      if holders != {} then
        var id :| id in holders;
        Settle(Record(t, body), id, seen.charges[id], false, body, verdict, now)
      else if body.code == SUCCESS && body.amount.Some? then
        Adopt(pool, Record(t, body), body, verdict, now)
      else
        Committed(Record(t, body), Unmatched)
  }

  // ---------------------------------------------------------------- reconciler and operator

  function CountAttempt(t: Tables, id: ChargeId): Tables {
    if id !in t.charges then t
    else Update(t, id, t.charges[id].(reconcileAttempts := t.charges[id].reconcileAttempts + 1))
  }

  /** The reconciler's transaction for a complete answer: re-read (as `reread`), count, resolve. */
  function QueryTx(reread: Tables, t: Tables, id: ChargeId, code: int, now: Instant): Tx<bool> {
    if id !in reread.charges then Committed(t, false)
    else Resolve(CountAttempt(t, id), id, reread.charges[id], Resolution(code == SUCCESS, code, None, ByQuery), now)
  }

  function Release(t: Tables, id: ChargeId): Tables {
    if id in t.charges && t.charges[id].status.Pending? && t.charges[id].hold.Some? then
      Update(t, id, t.charges[id].(hold := None, reconcileAttempts := 0))
    else t
  }

  /** The WHERE of purge-abandoned; `tenants` None means all of them. */
  predicate Abandoned(c: Charge, cutoff: Instant, tenants: Option<set<TenantId>>) {
    && c.status.Pending? && c.reference.None? && c.hold.None? && c.facts.createdAt < cutoff
    && (tenants.Some? ==> c.facts.tenantId in tenants.value)
  }

  function Purge(t: Tables, cutoff: Instant, tenants: Option<set<TenantId>>): Tables {
    t.(charges := map id | id in t.charges && !Abandoned(t.charges[id], cutoff, tenants) :: t.charges[id])
  }

  // ---------------------------------------------------------------- outbox relay

  function MarkPublished(t: Tables, id: ChargeId): Tables {
    if id !in t.outbox then t else t.(outbox := t.outbox[id := t.outbox[id].(published := true)])
  }

  function MarkAttempt(t: Tables, id: ChargeId): Tables {
    if id !in t.outbox then t else t.(outbox := t.outbox[id := t.outbox[id].(attempts := t.outbox[id].attempts + 1)])
  }
}
