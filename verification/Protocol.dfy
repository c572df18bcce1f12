/**
  * The money-integrity protocol as one transition system: the charge tables, the provider's side of
  * the wire (the log), the queue and the POS tables. Every statement, transaction and network event
  * is one step, so any interleaving, crash or redelivery is a run.
  */
module Protocol {
  import opened Common
  import opened Charges
  import opened PosTables

  datatype Push = Push(chargeId: ChargeId, amount: nat, msisdn: Phone)

  // What has crossed the wire so far.
  datatype Log = Log(
    pushes: map<Reference, Push>,         // requests that reached the provider, by the reference it gave
    acks: set<(ChargeId, Reference)>,     // acknowledgements that came back
    refusals: set<ChargeId>,              // synchronous rejections
    answers: set<(Reference, int)>,       // complete stkQuery answers
    bodies: set<StkBody>)                 // callback bodies received

  type MessageId = nat

  datatype Delivery = Delivery(
    pos: Pos,
    queue: map<MessageId, SalePaid>,      // sent and not yet acked
    sent: set<ChargeId>,                  // outbox rows whose send has returned
    handled: set<MessageId>)              // messages whose apply has committed

  datatype World = World(tables: Tables, log: Log, clock: Instant, delivery: Delivery)

  datatype Step =
    | Tick(to: Instant)
    | Insert(id: ChargeId, facts: Facts)
    | PushCounted(id: ChargeId)
    | PushReaches(id: ChargeId, reference: Reference, acknowledged: bool)
    | PushRefused(id: ChargeId)
    | NoAckNoted(id: ChargeId)
    | RefusalRecorded(id: ChargeId, responseCode: Option<int>)
    | AckClaimed(id: ChargeId, reference: Reference)
    | LateAckNoted(id: ChargeId, reference: Reference)
    | BodyReceived(body: StkBody)
    | QueryAnswered(reference: Reference, code: int)
    | QueryInconclusive(reference: Reference)
    | CallbackApplied(body: StkBody, confirm: bool, at: Instant, verdict: Verdict, now: Instant)
    | AttemptCounted(id: ChargeId)
    | QueryApplied(id: ChargeId, code: int, now: Instant)
    | Released(id: ChargeId)
    | Purged(now: Instant, age: int, tenants: Option<set<TenantId>>)
    | SaleCreated(saleId: SaleId, sale: Sale)
    | ChargeIdStored(saleId: SaleId, tenantId: TenantId, chargeId: ChargeId)
    | EventSent(id: ChargeId, message: MessageId)
    | EventMarked(id: ChargeId)
    | SendFailed(id: ChargeId)
    | MessageRepeated(id: ChargeId, message: MessageId)
    | MessageApplied(message: MessageId)
    | MessageAcked(message: MessageId)

  const MIN_PURGE_AGE: int := 5 * MINUTE

  ghost predicate Init(w: World) {
    && w.tables == Empty && w.log == Log(map[], {}, {}, {}, {})
    && w.delivery.pos.paidEvents == {} && w.delivery.queue == map[] && w.delivery.sent == {} && w.delivery.handled == {}
    && (forall s :: s in w.delivery.pos.sales ==> !w.delivery.pos.sales[s].status.PaidSale?)
  }

  // What confirmSuccess may conclude from the tables it pre-checks and the answers the provider gave.
  ghost predicate VerdictFor(pre: Tables, log: Log, body: StkBody, confirm: bool, at: Instant, verdict: Verdict) {
    if body.code != SUCCESS then verdict.NotRequired?
    else if !confirm then verdict.Skipped?
    else if !PreCheck(pre, body, at) then verdict.NotRequired?
    else
      match verdict
      case Confirmed => (body.reference, SUCCESS) in log.answers
      case Contradicted => exists a :: a in log.answers && a.0 == body.reference && a.1 != SUCCESS
      case Unconfirmed => true
      case _ => false
  }

  function Rolled<T>(tx: Tx<T>, t: Tables): Tables {
    match tx case Committed(t', _) => t' case Aborted => t
  }

  // The step's guard. p, v, u are views of the same run, oldest first: what the actor had read.
  ghost predicate Enabled(p: World, v: World, u: World, w: World, s: Step) {
    match s
    case Tick(to) => w.clock <= to
    case Insert(id, facts) => id !in w.tables.born && facts.createdAt <= w.clock
    case PushReaches(id, r, _) => id in v.tables.charges && r !in w.log.pushes
    case PushRefused(id) => id in v.tables.charges
    case RefusalRecorded(id, _) => id in w.log.refusals
    case AckClaimed(id, r) => (id, r) in w.log.acks
    case LateAckNoted(id, r) => (id, r) in w.log.acks
    case CallbackApplied(body, confirm, at, verdict, now) =>
      && body in v.log.bodies && at <= p.clock && at <= now <= v.clock
      && VerdictFor(p.tables, w.log, body, confirm, at, verdict)
    case QueryApplied(id, code, _) =>
      id in v.tables.charges && v.tables.charges[id].reference.Some?
      && (v.tables.charges[id].reference.value, code) in w.log.answers
    case Purged(now, age, _) => now <= w.clock && MIN_PURGE_AGE <= age
    case SaleCreated(saleId, sale) =>
      saleId !in w.delivery.pos.sales && sale.status.Unpaid? && sale.chargeId.None? && sale.paidAt.None?
    case EventSent(id, m) =>
      id in v.tables.outbox && !v.tables.outbox[id].published
      && m !in w.delivery.queue && m !in w.delivery.handled
    case EventMarked(id) => id in w.delivery.sent
    case MessageRepeated(id, m) =>
      id in w.delivery.sent && id in v.tables.outbox && m !in w.delivery.queue && m !in w.delivery.handled
    case MessageApplied(m) => m in w.delivery.queue
    case MessageAcked(m) => m in w.delivery.handled
    case _ => true
  }

  ghost function TablesAfter(v: World, u: World, w: World, s: Step): Tables {
    var t := w.tables;
    match s
    case Insert(id, facts) => Rolled(InsertCharge(t, id, facts), t)
    case PushCounted(id) => CountPush(t, id)
    case NoAckNoted(id) => NotePush(t, id, Unacknowledged)
    case RefusalRecorded(id, code) => RecordRefusal(t, id, code)
    case AckClaimed(id, r) => Rolled(ClaimAck(t, id, r), t)
    case LateAckNoted(id, r) => NotePush(t, id, LateAck(r))
    case CallbackApplied(body, _, _, verdict, now) =>
      Rolled(CallbackTx(v.tables, u.tables, t, body, verdict, now), t)
    case AttemptCounted(id) => CountAttempt(t, id)
    case QueryApplied(id, code, now) => Rolled(QueryTx(u.tables, t, id, code, now), t)
    case Released(id) => Release(t, id)
    case Purged(now, age, tenants) => Purge(t, now - age, tenants)
    case EventMarked(id) => MarkPublished(t, id)
    case SendFailed(id) => MarkAttempt(t, id)
    case _ => t
  }

  ghost function LogAfter(v: World, w: World, s: Step): Log {
    var l := w.log;
    match s
    case PushReaches(id, r, acknowledged) =>
      if id !in v.tables.charges then l
      else
        var facts := v.tables.charges[id].facts;
        l.(pushes := l.pushes[r := Push(id, facts.amount, facts.msisdn)],
           acks := if acknowledged then l.acks + {(id, r)} else l.acks)
    case PushRefused(id) => l.(refusals := l.refusals + {id})
    case BodyReceived(body) => l.(bodies := l.bodies + {body})
    case QueryAnswered(r, code) => l.(answers := l.answers + {(r, code)})
    case _ => l
  }

  ghost function DeliveryAfter(v: World, w: World, s: Step): Delivery {
    var d := w.delivery;
    match s
    case SaleCreated(saleId, sale) => d.(pos := d.pos.(sales := d.pos.sales[saleId := sale]))
    case ChargeIdStored(saleId, tenantId, chargeId) => d.(pos := StoreChargeId(d.pos, saleId, tenantId, chargeId))
    case EventSent(id, m) =>
      if id !in v.tables.outbox then d
      else d.(queue := d.queue[m := v.tables.outbox[id].event], sent := d.sent + {id})
    case MessageRepeated(id, m) =>
      if id !in v.tables.outbox then d else d.(queue := d.queue[m := v.tables.outbox[id].event])
    case MessageApplied(m) =>
      if m !in d.queue then d
      else
        var after := ApplySalePaid(d.pos, d.queue[m]);
        if after.None? then d else d.(pos := after.value, handled := d.handled + {m})
    case MessageAcked(m) => d.(queue := d.queue - {m})
    case _ => d
  }

  ghost predicate Next(p: World, v: World, u: World, w: World, w': World, s: Step) {
    && Enabled(p, v, u, w, s)
    && w' == World(TablesAfter(v, u, w, s), LogAfter(v, w, s), if s.Tick? then s.to else w.clock, DeliveryAfter(v, w, s))
  }

  // ---------------------------------------------------------------- runs

  // A step together with the moments of the run its actor read: p (pre-check), v and u (the two reads).
  datatype Act = Act(step: Step, p: nat, v: nat, u: nat)

  ghost predicate Linked(run: seq<World>, acts: seq<Act>, i: nat)
    requires |run| == |acts| + 1 && i < |acts|
  {
    var a := acts[i];
    a.p <= a.v <= a.u <= i && Next(run[a.p], run[a.v], run[a.u], run[i], run[i + 1], a.step)
  }

  ghost predicate IsRun(run: seq<World>, acts: seq<Act>) {
    |run| == |acts| + 1 && Init(run[0]) && forall i :: 0 <= i < |acts| ==> Linked(run, acts, i)
  }
}
