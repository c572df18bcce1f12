/**
  * The POS database: createSale, paySale and applySalePaid statement by statement, and the sale.paid
  * consumer loop over an at-least-once queue.
  */
module PosDb {
  import opened Common
  import opened Charges
  import opened PosTables
  import opened Sales
  import Money

  type MessageId = nat

  // createCharge as POS sees it over HTTP.
  datatype ChargeReply = ChargeUnknown | ChargeKnown(chargeId: ChargeId)

  datatype PayFailure = SaleMissing | SaleAlreadyPaid | SaleVoided | SaleNotPayable | BadMsisdn | TenantMissing
  datatype PayReply = PayFailed(failure: PayFailure) | PayUnknown | PayPending(chargeId: ChargeId)

  // What a queue message holds: isSalePaidEvent decides.
  datatype Message = Malformed | WellFormed(event: SalePaid)

  /** What paySale refuses, from the sale row it read. */
  function Unpayable(seen: map<SaleId, Sale>, tenantId: TenantId, saleId: SaleId): Option<PayFailure> {
    if saleId !in seen || seen[saleId].tenantId != tenantId then Some(SaleMissing)
    else
      match seen[saleId].status
      case PaidSale => Some(SaleAlreadyPaid)
      case Void => Some(SaleVoided)
      case Unpaid => None
      case _ => Some(SaleNotPayable)
  }

  lemma {:induction false} PricedStops(catalog: Catalog, tenantId: TenantId, items: seq<ItemInput>, n: nat)
    requires n <= |items| && Priced(catalog, tenantId, items[..n]).Err?
    ensures Priced(catalog, tenantId, items) == Priced(catalog, tenantId, items[..n])
  {
    if n < |items| {
      var front := items[..|items| - 1];
      assert front[..n] == items[..n];
      PricedStops(catalog, tenantId, front, n);
    } else {
      assert items[..n] == items;
    }
  }

  class PosDatabase {
    var sales: map<SaleId, Sale>
    var items: map<SaleId, seq<SaleItem>>
    var keys: map<SaleKey, KeyRow>
    var paidEvents: set<SaleId>

    constructor ()
      ensures Rows() == Store(map[], map[], map[]) && Paid() == Pos(map[], {})
    {
      sales, items, keys, paidEvents := map[], map[], map[], {};
    }

    ghost function Rows(): Store
      reads this
    {
      Store(sales, items, keys)
    }

    ghost function Paid(): Pos
      reads this
    {
      Pos(sales, paidEvents)
    }

    /** Pass 1: resolve and price every line; nothing is written. */
    method PriceLines(catalog: Catalog, tenantId: TenantId, wanted: seq<ItemInput>)
      returns (lines: Result<(seq<SaleItem>, seq<nat>), Failure>)
      ensures match Priced(catalog, tenantId, wanted)
        case Err(e) => lines == Err(e)
        case Ok(priced) => lines == Ok((priced, Lines(priced)))
    {
      var resolved: seq<SaleItem> := [];
      var lineTotals: seq<nat> := [];
      for i := 0 to |wanted|
        invariant Priced(catalog, tenantId, wanted[..i]) == Ok(resolved) && lineTotals == Lines(resolved)
      {
        var item := wanted[i];
        assert wanted[..i + 1][..i] == wanted[..i];
        if !(item.productId in catalog.products && catalog.products[item.productId].tenantId == tenantId
             && catalog.products[item.productId].active)
        {
          PricedStops(catalog, tenantId, wanted, i + 1);
          return Err(ProductMissing(item.productId));
        }
        var price := Money.ToMinorUnits(Money.Whole(catalog.products[item.productId].unitPrice));
        if price.Err? {
          PricedStops(catalog, tenantId, wanted, i + 1);
          return Err(BadAmount(price.error));
        }
        var line := Money.LineItemTotal(price.value, item.quantity);
        if line.Err? {
          PricedStops(catalog, tenantId, wanted, i + 1);
          return Err(BadAmount(line.error));
        }
        lineTotals := lineTotals + [line.value];
        resolved := resolved + [SaleItem(item.productId, item.quantity, price.value)];
      }
      assert wanted[..|wanted|] == wanted;
      return Ok((resolved, lineTotals));
    }

    /** `seen` is what the first SELECT read; `saleId` is the id the transaction makes up. */
    method CreateSale(seen: Store, catalog: Catalog, c: Call, saleId: SaleId, now: Instant)
      returns (answer: Result<Response, Failure>)
      requires saleId !in sales && saleId !in items
      modifies this`sales, this`items, this`keys
      ensures (Rows(), answer) == Sales.CreateSale(seen, old(Rows()), catalog, c, saleId, now)
    {
      var key, r := SaleKey(c.request.tenantId, c.idempotencyKey), c.request;
      if key in seen.keys {
        var row := seen.keys[key];
        return if row.request != r then Err(Conflict) else Ok(row.response);
      }
      if |r.items| == 0 { return Err(EmptySale); }
      var sales0, items0 := sales, items;  // BEGIN
      if r.attendantId !in catalog.attendants || catalog.attendants[r.attendantId] != r.tenantId {
        return Err(AttendantMissing);
      }
      var lines := PriceLines(catalog, r.tenantId, r.items);
      if lines.Err? { return Err(lines.error); }
      var (resolved, lineTotals) := lines.value;
      var total := Money.SumMinor(lineTotals);
      if total.Err? { return Err(BadAmount(total.error)); }
      sales := sales[saleId := Sale(r.tenantId, r.attendantId, total.value, Unpaid, None, None)];
      items := items[saleId := []];
      for i := 0 to |resolved|
        invariant items == items0[saleId := resolved[..i]]
        invariant sales == sales0[saleId := Sale(r.tenantId, r.attendantId, total.value, Unpaid, None, None)]
        invariant keys == old(keys)
      {
        items := items[saleId := items[saleId] + [resolved[i]]];
        assert resolved[..i + 1] == resolved[..i] + [resolved[i]];
      }
      assert resolved[..|resolved|] == resolved;
      var response := Response(CREATED, Body(saleId, r.tenantId, r.attendantId, total.value, now, resolved));
      if key in keys {  // unique violation: ROLLBACK, then read the winner
        sales, items := sales0, items0;
        var winner := keys[key];
        return if winner.request != r then Err(Conflict) else Ok(winner.response);
      }
      keys := keys[key := KeyRow(r, saleId, response)];
      return Ok(response);
    }

    /**
      * `seen` is what getSale read. A charge is asked for only for an UNPAID sale without one, and for its
      * whole total; an unknown outcome leaves the sale as it was, to be tried again.
      */
    method PaySale(seen: map<SaleId, Sale>, tenantId: TenantId, saleId: SaleId, msisdnValid: bool, tillKnown: bool,
                   charge: ChargeReply)
      returns (reply: PayReply, asked: Option<nat>)
      modifies this`sales
      ensures Unpayable(seen, tenantId, saleId).Some? ==> reply == PayFailed(Unpayable(seen, tenantId, saleId).value)
      ensures asked.Some? ==>
        && saleId in seen && seen[saleId].tenantId == tenantId && seen[saleId].status.Unpaid? && seen[saleId].chargeId.None?
        && asked.value == seen[saleId].total && msisdnValid && tillKnown
      ensures asked.None? ==> Paid() == old(Paid()) && !reply.PayUnknown?
      ensures asked.None? && reply.PayPending? ==> saleId in seen && seen[saleId].chargeId == Some(reply.chargeId)
      ensures asked.Some? && charge.ChargeKnown? && saleId in old(sales) && old(sales)[saleId].tenantId == tenantId ==>
        sales == old(sales)[saleId := old(sales)[saleId].(chargeId := Some(charge.chargeId))]
      ensures asked.Some? ==>
        match charge
        case ChargeUnknown => reply == PayUnknown && Paid() == old(Paid())
        case ChargeKnown(id) => reply == PayPending(id) && Paid() == StoreChargeId(old(Paid()), saleId, tenantId, id)
    {
      if !(saleId in seen && seen[saleId].tenantId == tenantId) { return PayFailed(SaleMissing), None; }
      var sale := seen[saleId];
      if sale.status.PaidSale? { return PayFailed(SaleAlreadyPaid), None; }
      if sale.status.Void? { return PayFailed(SaleVoided), None; }
      if !sale.status.Unpaid? { return PayFailed(SaleNotPayable), None; }
      if sale.chargeId.Some? { return PayPending(sale.chargeId.value), None; }
      if !msisdnValid { return PayFailed(BadMsisdn), None; }
      if !tillKnown { return PayFailed(TenantMissing), None; }
      match charge
      case ChargeUnknown => return PayUnknown, Some(sale.total);
      case ChargeKnown(id) =>
        if saleId in sales && sales[saleId].tenantId == tenantId {
          sales := sales[saleId := sales[saleId].(chargeId := Some(id))];
        }
        return PayPending(id), Some(sale.total);
    }

    /** False: the foreign key to sales rolled the transaction back. */
    method ApplySalePaid(e: SalePaid) returns (committed: bool)
      modifies this`sales, this`paidEvents
      ensures Paid() == Applied(old(Paid()), e)
      ensures committed <==> PosTables.ApplySalePaid(old(Paid()), e).Some?
      ensures old(paidEvents) <= paidEvents && (committed ==> e.saleId in paidEvents)
    {
      if e.saleId in paidEvents { return true; }
      if e.saleId !in sales { return false; }
      paidEvents := paidEvents + {e.saleId};
      var sale := sales[e.saleId];
      if sale.tenantId == e.tenantId && !sale.status.PaidSale? {
        sale := sale.(status := PaidSale, paidAt := Some(e.paidAt));
      }
      sales := sales[e.saleId := sale];
      return true;
    }
  }

  /** applySalePaid as a change of tables: a rollback changes nothing. */
  function Applied(p: Pos, e: SalePaid): Pos {
    GetOr(PosTables.ApplySalePaid(p, e), p)
  }

  function AppliedAll(p: Pos, events: seq<SalePaid>): Pos {
    if events == [] then p else Applied(AppliedAll(p, events[..|events| - 1]), events[|events| - 1])
  }

  function EventsOf(messages: seq<Message>): seq<SalePaid> {
    if messages == [] then []
    else
      var n := |messages| - 1;
      EventsOf(messages[..n]) + if messages[n].WellFormed? then [messages[n].event] else []
  }

  class EventQueue {
    var waiting: map<MessageId, Message>

    constructor (waiting: map<MessageId, Message>)
      ensures this.waiting == waiting
    {
      this.waiting := waiting;
    }
  }

  // A message whose transaction commits: its sale exists, or it was applied before.
  predicate Settles(p: Pos, m: Message) {
    m.WellFormed? && (m.event.saleId in p.sales || m.event.saleId in p.paidEvents)
  }

  lemma SettlesAsBefore(p: Pos, q: Pos, m: Message)
    requires q.sales.Keys == p.sales.Keys && p.paidEvents <= q.paidEvents
    requires forall s :: s in q.paidEvents ==> s in p.paidEvents || s in p.sales
    ensures Settles(p, m) <==> Settles(q, m)
  {
  }

  /** One message: apply, then ack what committed. */
  method ConsumeMessage(db: PosDatabase, queue: EventQueue, id: MessageId, ackWorks: bool)
    requires id in queue.waiting
    modifies db`sales, db`paidEvents, queue
    ensures db.Paid() ==
      if old(queue.waiting)[id].WellFormed? then Applied(old(db.Paid()), old(queue.waiting)[id].event) else old(db.Paid())
    ensures old(db.paidEvents) <= db.paidEvents
    ensures queue.waiting ==
      if Settles(old(db.Paid()), old(queue.waiting)[id]) && ackWorks then old(queue.waiting) - {id} else old(queue.waiting)
    ensures Settles(old(db.Paid()), old(queue.waiting)[id]) ==> old(queue.waiting)[id].event.saleId in db.paidEvents
    ensures db.sales.Keys == old(db.sales).Keys
    ensures forall s :: s in db.paidEvents ==> s in old(db.paidEvents) || s in db.sales
  {
    match queue.waiting[id]
    case Malformed =>
    case WellFormed(event) =>
      var committed := db.ApplySalePaid(event);
      if committed && ackWorks { queue.waiting := queue.waiting - {id}; }
  }

  /**
    * One batch of the consumer: apply, then ack. A malformed message, a rolled-back apply or a failed ack
    * leaves the message for redelivery, so nothing leaves the queue that has not been applied.
    */
  method ConsumeOnce(db: PosDatabase, queue: EventQueue, batch: seq<MessageId>, ackWorks: MessageId -> bool)
    returns (received: nat)
    requires forall i :: 0 <= i < |batch| ==> batch[i] in queue.waiting
    requires forall i, j :: 0 <= i < j < |batch| ==> batch[i] != batch[j]
    modifies db`sales, db`paidEvents, queue
    ensures received == |batch|
    ensures db.Paid() == AppliedAll(old(db.Paid()), EventsOf(Bodies(old(queue.waiting), batch)))
    ensures Consumed(old(queue.waiting), queue.waiting, batch, old(db.Paid()), ackWorks)
    ensures AllPaid(old(queue.waiting), batch, old(db.Paid()), db.paidEvents)
  {
    ghost var before, tables := queue.waiting, db.Paid();
    assert AppliedAll(tables, EventsOf(Bodies(before, batch[..0]))) == tables;
    hide AppliedAll, Applied, EventsOf, Bodies, Settles, Consumed, AllPaid;
    NothingConsumed(before, tables, db.paidEvents, ackWorks);
    for i := 0 to |batch|
      invariant db.Paid() == AppliedAll(tables, EventsOf(Bodies(before, batch[..i])))
      invariant db.sales.Keys == tables.sales.Keys && tables.paidEvents <= db.paidEvents
      invariant forall s :: s in db.paidEvents ==> s in tables.paidEvents || s in tables.sales
      invariant Consumed(before, queue.waiting, batch[..i], tables, ackWorks)
      invariant AllPaid(before, batch[..i], tables, db.paidEvents)
    {
      var id := batch[i];
      assert batch[..i + 1] == batch[..i] + [id] && id !in batch[..i];
      ghost var waiting, paid := queue.waiting, db.paidEvents;
      StillWaiting(before, waiting, batch[..i], id, tables, ackWorks);
      OneMoreEvent(before, batch, i, tables);
      SettlesAsBefore(tables, db.Paid(), before[id]);
      ConsumeMessage(db, queue, id, ackWorks(id));
      OneMoreConsumed(before, waiting, queue.waiting, batch[..i], id, tables, paid, db.paidEvents, ackWorks);
    }
    assert batch[..|batch|] == batch;
    return |batch|;
  }

  // What is gone from the queue is exactly what was consumed, settled and acked.
  ghost predicate Consumed(before: map<MessageId, Message>, waiting: map<MessageId, Message>, batch: seq<MessageId>,
                           p: Pos, ackWorks: MessageId -> bool)
  {
    && (forall id :: id in waiting ==> id in before && waiting[id] == before[id])
    && (forall id :: id in before ==> (id in waiting <==> !(id in batch && Settles(p, before[id]) && ackWorks(id))))
  }

  // Whatever settles has been applied.
  ghost predicate AllPaid(before: map<MessageId, Message>, batch: seq<MessageId>, p: Pos, paid: set<SaleId>) {
    forall id :: id in batch && id in before && Settles(p, before[id]) ==> before[id].event.saleId in paid
  }

  lemma NothingConsumed(before: map<MessageId, Message>, p: Pos, paid: set<SaleId>, ackWorks: MessageId -> bool)
    ensures Consumed(before, before, [], p, ackWorks) && AllPaid(before, [], p, paid)
  {
  }

  lemma StillWaiting(before: map<MessageId, Message>, waiting: map<MessageId, Message>, batch: seq<MessageId>, id: MessageId,
                     p: Pos, ackWorks: MessageId -> bool)
    requires Consumed(before, waiting, batch, p, ackWorks) && id in before && id !in batch
    ensures id in waiting && waiting[id] == before[id]
  {
    hide Settles;
  }

  lemma OneMoreConsumed(before: map<MessageId, Message>, waiting: map<MessageId, Message>, waiting': map<MessageId, Message>,
                        batch: seq<MessageId>, id: MessageId, p: Pos, paid: set<SaleId>, paid': set<SaleId>,
                        ackWorks: MessageId -> bool)
    requires Consumed(before, waiting, batch, p, ackWorks) && AllPaid(before, batch, p, paid) && id in before && id !in batch
    requires waiting' == if Settles(p, before[id]) && ackWorks(id) then waiting - {id} else waiting
    requires paid <= paid' && (Settles(p, before[id]) ==> before[id].event.saleId in paid')
    ensures Consumed(before, waiting', batch + [id], p, ackWorks) && AllPaid(before, batch + [id], p, paid')
  {
    hide Settles;
    assert forall other :: other in batch + [id] <==> other in batch || other == id;
  }

  function Bodies(waiting: map<MessageId, Message>, batch: seq<MessageId>): seq<Message>
    requires forall i :: 0 <= i < |batch| ==> batch[i] in waiting
  {
    seq(|batch|, i requires 0 <= i < |batch| => waiting[batch[i]])
  }

  lemma OneMoreEvent(waiting: map<MessageId, Message>, batch: seq<MessageId>, i: nat, p: Pos)
    requires i < |batch| && forall k :: 0 <= k < |batch| ==> batch[k] in waiting
    ensures var before := AppliedAll(p, EventsOf(Bodies(waiting, batch[..i])));
      AppliedAll(p, EventsOf(Bodies(waiting, batch[..i + 1]))) ==
        if waiting[batch[i]].WellFormed? then Applied(before, waiting[batch[i]].event) else before
  {
    var now, next := Bodies(waiting, batch[..i]), Bodies(waiting, batch[..i + 1]);
    assert next[..|next| - 1] == now && next[|next| - 1] == waiting[batch[i]];
    if waiting[batch[i]].WellFormed? {
      assert EventsOf(next) == EventsOf(now) + [waiting[batch[i]].event];
      assert EventsOf(next)[..|EventsOf(now)|] == EventsOf(now);
    } else {
      assert EventsOf(next) == EventsOf(now);
    }
  }

  // ---------------------------------------------------------------- order and repetition do not matter

  // Events for one sale are one event, as the outbox makes them.
  ghost predicate OneEventPerSale(events: seq<SalePaid>) {
    forall i, j :: 0 <= i < |events| && 0 <= j < |events| && events[i].saleId == events[j].saleId ==> events[i] == events[j]
  }

  // What a set of events makes of the tables, all at once.
  ghost predicate MadePaid(p: Pos, events: seq<SalePaid>, q: Pos) {
    && q.sales.Keys == p.sales.Keys
    && (forall id :: id in p.sales ==>
          && (id in p.paidEvents || (forall e :: e in events ==> e.saleId != id) ==> q.sales[id] == p.sales[id])
          && (forall e :: e in events && e.saleId == id && id !in p.paidEvents ==>
                q.sales[id] == if p.sales[id].tenantId == e.tenantId && !p.sales[id].status.PaidSale?
                               then p.sales[id].(status := PaidSale, paidAt := Some(e.paidAt)) else p.sales[id]))
    && (forall id :: id in q.paidEvents <==>
          id in p.paidEvents || (id in p.sales && exists e :: e in events && e.saleId == id))
  }

  lemma {:induction false} AppliedAtOnce(p: Pos, events: seq<SalePaid>)
    requires OneEventPerSale(events)
    ensures MadePaid(p, events, AppliedAll(p, events))
  {
    if events != [] {
      var n := |events| - 1;
      AppliedAtOnce(p, events[..n]);
      assert events == events[..n] + [events[n]];
      OneMoreApplied(p, events[..n], events[n], AppliedAll(p, events[..n]));
    }
  }

  lemma OneMoreApplied(p: Pos, events: seq<SalePaid>, last: SalePaid, q: Pos)
    requires MadePaid(p, events, q) && OneEventPerSale(events + [last])
    ensures MadePaid(p, events + [last], Applied(q, last))
  {
    var all, q' := events + [last], Applied(q, last);
    assert forall e :: e in all <==> e in events || e == last;
    assert all[|events|] == last;
    forall e | e in events && e.saleId == last.saleId ensures e == last {
      var i :| 0 <= i < |events| && events[i] == e;
      assert all[i] == e;
    }
  }

  /** However often and in whatever order the same events arrive, the tables end the same. */
  lemma OrderAndRepetitionIrrelevant(p: Pos, some: seq<SalePaid>, others: seq<SalePaid>)
    requires OneEventPerSale(some) && OneEventPerSale(others) && forall e :: e in some <==> e in others
    ensures AppliedAll(p, some) == AppliedAll(p, others)
  {
    AppliedAtOnce(p, some);
    AppliedAtOnce(p, others);
    var q, r := AppliedAll(p, some), AppliedAll(p, others);
    forall id | id in p.sales ensures q.sales[id] == r.sales[id] {
      if e :| e in some && e.saleId == id && id !in p.paidEvents { assert e in others; }
    }
    assert q.sales == r.sales && q.paidEvents == r.paidEvents;
  }
}
