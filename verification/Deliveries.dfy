/**
  * From a PAID charge to a PAID sale: the outbox, the relay, the queue and the consumer lose nothing
  * and apply nothing twice, whatever crashes, repeats or is reordered.
  */
module Deliveries {
  import opened Common
  import opened Charges
  import opened ChargeInvariants
  import opened PosTables
  import opened Protocol
  import opened ProtocolInvariants

  // createCharge is called by paySale, which read the sale at v.
  ghost predicate FromPos(v: World, s: Step) {
    s.Insert? ==>
      s.facts.saleId in v.delivery.pos.sales
      && var sale := v.delivery.pos.sales[s.facts.saleId];
         sale.status.Unpaid? && sale.chargeId.None? && sale.total == s.facts.amount && sale.tenantId == s.facts.tenantId
  }

  ghost predicate PosRun(run: seq<World>, acts: seq<Act>) {
    IsRun(run, acts) && forall i :: 0 <= i < |acts| ==> acts[i].v <= i && FromPos(run[acts[i].v], acts[i].step)
  }

  // ---------------------------------------------------------------- the invariant

  ghost predicate Queued(d: Delivery, id: ChargeId) {
    exists m :: m in d.queue && d.queue[m].chargeId == id
  }

  // Every message is the event of an outbox row.
  ghost predicate QueueRight(w: World) {
    forall m :: m in w.delivery.queue ==>
      var e := w.delivery.queue[m];
      e.chargeId in w.tables.outbox && w.tables.outbox[e.chargeId].event == e
  }

  // A row marked published was sent; a sent event waits in the queue or is applied; acks follow applies.
  ghost predicate NothingDropped(w: World) {
    && (forall id :: id in w.tables.outbox && w.tables.outbox[id].published ==> id in w.delivery.sent)
    && (forall id :: id in w.delivery.sent ==>
          id in w.tables.outbox
          && (Queued(w.delivery, id) || w.tables.outbox[id].event.saleId in w.delivery.pos.paidEvents))
    && (forall m :: m in w.delivery.queue && m in w.delivery.handled ==>
          w.delivery.queue[m].saleId in w.delivery.pos.paidEvents)
  }

  ghost predicate ChargesMatchSales(w: World) {
    forall id :: id in w.tables.born ==>
      var f := w.tables.born[id];
      f.saleId in w.delivery.pos.sales
      && w.delivery.pos.sales[f.saleId].total == f.amount && w.delivery.pos.sales[f.saleId].tenantId == f.tenantId
  }

  // The PAID charge behind a PAID sale.
  ghost predicate PaidBy(w: World, saleId: SaleId, id: ChargeId) {
    && id in w.tables.outbox && w.tables.outbox[id].event.saleId == saleId
    && saleId in w.delivery.pos.sales && w.delivery.pos.sales[saleId].status.PaidSale?
    && w.delivery.pos.sales[saleId].paidAt == Some(w.tables.outbox[id].event.paidAt)
  }

  ghost predicate SalesRight(w: World) {
    && (forall s :: s in w.delivery.pos.paidEvents ==> exists id :: PaidBy(w, s, id))
    && (forall s :: s in w.delivery.pos.sales && w.delivery.pos.sales[s].status.PaidSale? ==>
          s in w.delivery.pos.paidEvents)
  }

  ghost predicate Delivering(w: World) {
    QueueRight(w) && NothingDropped(w) && ChargesMatchSales(w) && SalesRight(w)
  }

  // How a sale may change between two moments.
  ghost predicate SaleEvolves(a: Sale, b: Sale) {
    && b.tenantId == a.tenantId && b.attendantId == a.attendantId && b.total == a.total
    && (a.status.PaidSale? ==> b.status.PaidSale? && b.paidAt == a.paidAt)
  }

  ghost predicate PosGrows(a: Pos, b: Pos) {
    && a.paidEvents <= b.paidEvents
    && (forall s :: s in a.sales ==> s in b.sales && SaleEvolves(a.sales[s], b.sales[s]))
  }

  // ---------------------------------------------------------------- what the tables do

  ghost predicate OutboxAfter(t: Tables, t': Tables) {
    forall id :: id in t'.outbox && t'.outbox[id].published ==> id in t.outbox && t.outbox[id].published
  }

  // What settling and claiming leave alone: rows ever born, and which outbox rows are published.
  ghost predicate Aside(t: Tables, tx: Tx<Disposition>) {
    tx.Committed? ==> tx.tables.born == t.born && OutboxAfter(t, tx.tables)
  }

  lemma SettleAside(t: Tables, id: ChargeId, row: Charge, adopted: bool, body: StkBody, verdict: Verdict, now: Instant)
    ensures Aside(t, Settle(t, id, row, adopted, body, verdict, now))
  {
  }

  lemma ClaimedAside(t: Tables, id: ChargeId, row: Charge, body: StkBody, verdict: Verdict, now: Instant)
    ensures var claim := ClaimReference(t, id, body.reference);
      claim.Committed? ==> Aside(t, Settle(claim.tables, id, row, true, body, verdict, now))
  {
    var claim := ClaimReference(t, id, body.reference);
    if claim.Committed? { SettleAside(claim.tables, id, row, true, body, verdict, now); }
  }

  lemma AdoptAside(pool: Tables, t: Tables, body: StkBody, verdict: Verdict, now: Instant)
    requires body.amount.Some?
    ensures Aside(t, Adopt(pool, t, body, verdict, now))
  {
    hide Settle;
    var found := Candidates(pool, body.amount.value, body.msisdn, now);
    forall id | id in found && found == {id} {
      ClaimedAside(t, id, pool.charges[id].(reference := Some(body.reference)), body, verdict, now);
    }
  }

  lemma CallbackAside(seen: Tables, pool: Tables, t: Tables, body: StkBody, verdict: Verdict, now: Instant)
    ensures Aside(t, CallbackTx(seen, pool, t, body, verdict, now))
  {
    var holders := Holders(seen, body.reference);
    if KeyOf(body) in t.events {
    } else if holders != {} {
      forall id | id in holders {
        SettleAside(Record(t, body), id, seen.charges[id], false, body, verdict, now);
      }
    } else if body.code == SUCCESS && body.amount.Some? {
      AdoptAside(pool, Record(t, body), body, verdict, now);
    }
  }

  /** Only the relay's mark publishes a row. */
  lemma OnlyMarkPublishes(v: World, u: World, w: World, s: Step)
    requires !s.EventMarked?
    ensures OutboxAfter(w.tables, TablesAfter(v, u, w, s))
  {
    hide CallbackTx;
    if s.CallbackApplied? { CallbackAside(v.tables, u.tables, w.tables, s.body, s.verdict, s.now); }
  }

  /** Outbox rows keep their events, and a marked row was sent. */
  lemma OutboxStep(p: World, v: World, u: World, w: World, w': World, s: Step)
    requires Behind(p, v, u, w) && Next(p, v, u, w, w', s) && NothingDropped(w)
    ensures forall id :: id in w.tables.outbox ==>
      id in w'.tables.outbox && w'.tables.outbox[id].event == w.tables.outbox[id].event
    ensures forall id :: id in w'.tables.outbox && w'.tables.outbox[id].published ==> id in w.delivery.sent
  {
    hide Sound, CallbackTx, QueryTx, AppliedOnce, Evidence, VerdictFor, LogAfter, DeliveryAfter, LogGrows;
    StepKeeps(p, v, u, w, w', s);
    if !s.EventMarked? { OnlyMarkPublishes(v, u, w, s); }
  }

  lemma OutboxKeptFrom(v: World, w: World, id: ChargeId)
    requires Grows(v, w) && id in v.tables.outbox
    ensures id in w.tables.outbox && w.tables.outbox[id].event == v.tables.outbox[id].event
  {
  }

  lemma EventsSayTheirCharge(w: World, id: ChargeId)
    requires Inv(w) && id in w.tables.outbox
    ensures w.tables.outbox[id].event.chargeId == id && id in w.tables.charges && id in w.tables.born
    ensures w.tables.charges[id].status.Paid?
    ensures w.tables.outbox[id].event.saleId == w.tables.born[id].saleId
    ensures w.tables.outbox[id].event.tenantId == w.tables.born[id].tenantId
    ensures w.tables.outbox[id].event.amount == w.tables.born[id].amount
  {
    assert id in w.tables.charges;
  }

  // ---------------------------------------------------------------- one step

  lemma PosStep(p: World, v: World, u: World, w: World, w': World, s: Step)
    requires Behind(p, v, u, w) && Next(p, v, u, w, w', s) && Delivering(w)
    ensures PosGrows(w.delivery.pos, w'.delivery.pos)
  {
    hide Sound, Evolves, CallbackTx, QueryTx, AppliedOnce, Evidence, VerdictFor, LogAfter, TablesAfter, LogGrows;
    if s.MessageApplied? { AppliedMessage(w, s.message); }
  }

  lemma AppliedMessage(w: World, m: MessageId)
    requires Inv(w) && Delivering(w) && m in w.delivery.queue
    ensures var e := w.delivery.queue[m];
      && ApplySalePaid(w.delivery.pos, e).Some?
      && (e.saleId !in w.delivery.pos.paidEvents ==>
            w.delivery.pos.sales[e.saleId].tenantId == e.tenantId && !w.delivery.pos.sales[e.saleId].status.PaidSale?)
      && PosGrows(w.delivery.pos, ApplySalePaid(w.delivery.pos, e).value)
  {
    hide Sound, AppliedOnce, Evidence;
    var e := w.delivery.queue[m];
    EventsSayTheirCharge(w, e.chargeId);
  }

  lemma QueueStep(p: World, v: World, u: World, w: World, w': World, s: Step)
    requires Behind(p, v, u, w) && Next(p, v, u, w, w', s) && QueueRight(w) && NothingDropped(w)
    ensures QueueRight(w')
  {
    hide Sound, Evolves, CallbackTx, QueryTx, AppliedOnce, Evidence, VerdictFor, LogAfter, TablesAfter, LogGrows, Grows,
      ApplySalePaid;
    OutboxStep(p, v, u, w, w', s);
    if s.EventSent? || s.MessageRepeated? {
      OutboxKeptFrom(v, w, s.id);
      EventsSayTheirCharge(v, s.id);
    }
  }

  lemma StillQueued(d: Delivery, d': Delivery, id: ChargeId)
    requires Queued(d, id)
    requires forall m :: m in d.queue && d.queue[m].chargeId == id ==> m in d'.queue && d'.queue[m] == d.queue[m]
    ensures Queued(d', id)
  {
    var m :| m in d.queue && d.queue[m].chargeId == id;
    assert m in d'.queue && d'.queue[m].chargeId == id;
  }

  lemma NothingDroppedStep(p: World, v: World, u: World, w: World, w': World, s: Step)
    requires Behind(p, v, u, w) && Next(p, v, u, w, w', s) && Delivering(w)
    ensures NothingDropped(w')
  {
    hide Sound, Evolves, CallbackTx, QueryTx, AppliedOnce, Evidence, VerdictFor, LogAfter, TablesAfter, LogGrows, Grows;
    hide SalesRight, ChargesMatchSales, Queued;
    OutboxStep(p, v, u, w, w', s);
    PosStep(p, v, u, w, w', s);
    if s.EventSent? { OutboxKeptFrom(v, w, s.id); EventsSayTheirCharge(v, s.id); }
    forall id | id in w'.delivery.sent
      ensures id in w'.tables.outbox
      ensures Queued(w'.delivery, id) || w'.tables.outbox[id].event.saleId in w'.delivery.pos.paidEvents
    {
      SentStays(w, w', v, s, id);
    }
  }

  lemma SentStays(w: World, w': World, v: World, s: Step, id: ChargeId)
    requires QueueRight(w) && NothingDropped(w) && w'.delivery == DeliveryAfter(v, w, s) && id in w'.delivery.sent
    requires s.MessageAcked? ==> s.message in w.delivery.handled
    requires s.EventSent? || s.MessageRepeated? ==> s.message !in w.delivery.queue
    requires s.EventSent? && s.id in v.tables.outbox ==>
      v.tables.outbox[s.id].event.chargeId == s.id && s.id in w.tables.outbox
    requires PosGrows(w.delivery.pos, w'.delivery.pos)
    requires forall id :: id in w.tables.outbox ==>
      id in w'.tables.outbox && w'.tables.outbox[id].event == w.tables.outbox[id].event
    ensures id in w'.tables.outbox
    ensures Queued(w'.delivery, id) || w'.tables.outbox[id].event.saleId in w'.delivery.pos.paidEvents
  {
    hide ApplySalePaid;
    if id !in w.delivery.sent {
      assert s.message in w'.delivery.queue && w'.delivery.queue[s.message].chargeId == id;
    } else if Queued(w.delivery, id) {
      if s.MessageAcked? && s.message in w.delivery.queue && w.delivery.queue[s.message].chargeId == id {
        assert w.delivery.queue[s.message].saleId in w.delivery.pos.paidEvents;
      } else {
        StillQueued(w.delivery, w'.delivery, id);
      }
    }
  }

  lemma ChargesMatchStep(p: World, v: World, u: World, w: World, w': World, s: Step)
    requires Behind(p, v, u, w) && Next(p, v, u, w, w', s) && Delivering(w) && FromPos(v, s)
    requires PosGrows(v.delivery.pos, w.delivery.pos)
    ensures ChargesMatchSales(w')
  {
    hide Sound, Evolves, CallbackTx, QueryTx, AppliedOnce, Evidence, VerdictFor, LogAfter, DeliveryAfter, LogGrows, Grows;
    hide NothingDropped, QueueRight, SalesRight;
    PosStep(p, v, u, w, w', s);
    BornStep(p, v, u, w, s);
  }

  lemma BornStep(p: World, v: World, u: World, w: World, s: Step)
    requires Behind(p, v, u, w) && Enabled(p, v, u, w, s)
    ensures forall id :: id in TablesAfter(v, u, w, s).born ==>
      || (id in w.tables.born && TablesAfter(v, u, w, s).born[id] == w.tables.born[id])
      || (s.Insert? && id == s.id && TablesAfter(v, u, w, s).born[id] == s.facts)
  {
    hide Sound, Evolves, CallbackTx, QueryTx, AppliedOnce, Evidence, VerdictFor, LogAfter, DeliveryAfter, LogGrows, Grows;
    if s.CallbackApplied? {
      CallbackAside(v.tables, u.tables, w.tables, s.body, s.verdict, s.now);
    } else if s.QueryApplied? {
      QueryBorn(u.tables, w.tables, s.id, s.code, s.now);
    }
  }

  lemma QueryBorn(u: Tables, t: Tables, id: ChargeId, code: int, now: Instant)
    ensures Rolled(QueryTx(u, t, id, code, now), t).born == t.born
  {
  }

  lemma SalesStep(p: World, v: World, u: World, w: World, w': World, s: Step)
    requires Behind(p, v, u, w) && Next(p, v, u, w, w', s) && Delivering(w)
    ensures SalesRight(w')
  {
    hide Sound, Evolves, CallbackTx, QueryTx, AppliedOnce, Evidence, VerdictFor, LogAfter, TablesAfter, LogGrows, Grows;
    OutboxStep(p, v, u, w, w', s);
    PosStep(p, v, u, w, w', s);
    forall saleId | saleId in w'.delivery.pos.paidEvents ensures exists id :: PaidBy(w', saleId, id) {
      if saleId in w.delivery.pos.paidEvents {
        var id :| PaidBy(w, saleId, id);
        assert PaidBy(w', saleId, id);
      } else {
        AppliedMessage(w, s.message);
        assert PaidBy(w', saleId, w.delivery.queue[s.message].chargeId);
      }
    }
  }

  lemma DeliveringStep(p: World, v: World, u: World, w: World, w': World, s: Step)
    requires Behind(p, v, u, w) && Next(p, v, u, w, w', s) && Delivering(w) && FromPos(v, s)
    requires PosGrows(v.delivery.pos, w.delivery.pos)
    ensures Delivering(w') && PosGrows(w.delivery.pos, w'.delivery.pos)
  {
    hide Behind, Next, FromPos, QueueRight, NothingDropped, ChargesMatchSales, SalesRight, PosGrows;
    QueueStep(p, v, u, w, w', s);
    NothingDroppedStep(p, v, u, w, w', s);
    ChargesMatchStep(p, v, u, w, w', s);
    SalesStep(p, v, u, w, w', s);
    PosStep(p, v, u, w, w', s);
  }

  // ---------------------------------------------------------------- every run

  ghost predicate DeliveringUpTo(run: seq<World>, n: nat) {
    && n < |run|
    && (forall i :: 0 <= i <= n ==> Delivering(run[i]))
    && (forall i, j :: 0 <= i <= j <= n ==> PosGrows(run[i].delivery.pos, run[j].delivery.pos))
  }

  lemma {:induction false} DeliveringRun(run: seq<World>, acts: seq<Act>, n: nat)
    requires PosRun(run, acts) && n < |run|
    ensures DeliveringUpTo(run, n)
  {
    hide Delivering, Inv, Grows, Next, Behind, FromPos, PosGrows;
    if n == 0 {
      DeliveringInitially(run[0]);
    } else {
      DeliveringRun(run, acts, n - 1);
      RunKeeps(run, acts, n);
      assert Linked(run, acts, n - 1);
      var a := acts[n - 1];
      BehindInRun(run, n, a.p, a.v, a.u, n - 1);
      DeliveringStep(run[a.p], run[a.v], run[a.u], run[n - 1], run[n], a.step);
      forall j | 0 <= j <= n ensures PosGrows(run[j].delivery.pos, run[n].delivery.pos) {
        if j < n {
          PosGrowsTransitive(run[j].delivery.pos, run[n - 1].delivery.pos, run[n].delivery.pos);
        } else {
          PosGrowsItself(run[n].delivery.pos);
        }
      }
    }
  }

  lemma PosGrowsItself(p: Pos)
    ensures PosGrows(p, p)
  {
  }

  lemma PosGrowsTransitive(a: Pos, b: Pos, c: Pos)
    requires PosGrows(a, b) && PosGrows(b, c)
    ensures PosGrows(a, c)
  {
  }

  lemma DeliveringInitially(w: World)
    requires Init(w)
    ensures Delivering(w) && PosGrows(w.delivery.pos, w.delivery.pos)
  {
  }

  /** A PAID charge's event is unpublished in the outbox, un-acked in the queue, or applied to its sale. */
  lemma NothingLost(run: seq<World>, acts: seq<Act>, i: nat, id: ChargeId)
    requires PosRun(run, acts) && i < |run|
    requires id in run[i].tables.charges && run[i].tables.charges[id].status.Paid?
    ensures var w := run[i]; var saleId := w.tables.charges[id].facts.saleId;
      && id in w.tables.outbox
      && (|| !w.tables.outbox[id].published
          || (exists m :: m in w.delivery.queue && w.delivery.queue[m] == w.tables.outbox[id].event)
          || (saleId in w.delivery.pos.sales && w.delivery.pos.sales[saleId].status.PaidSale?))
  {
    DeliveringRun(run, acts, i);
    RunKeeps(run, acts, i + 1);
    var w := run[i];
    assert Inv(w) && Delivering(w);
    assert id in w.tables.outbox && w.tables.outbox[id].event == EventOwed(id, w.tables.charges[id]);
    if w.tables.outbox[id].published {
      if Queued(w.delivery, id) {
        var m :| m in w.delivery.queue && w.delivery.queue[m].chargeId == id;
        assert w.delivery.queue[m] == w.tables.outbox[id].event;
      } else {
        var s := w.tables.outbox[id].event.saleId;
        var j :| PaidBy(w, s, j);
      }
    }
  }

  /** A sale goes PAID at most once, and only by a PAID charge of its own for exactly its total. */
  lemma SalePaidByItsCharge(run: seq<World>, acts: seq<Act>, i: nat, j: nat, saleId: SaleId) returns (id: ChargeId)
    requires PosRun(run, acts) && i <= j < |run|
    requires saleId in run[i].delivery.pos.sales && run[i].delivery.pos.sales[saleId].status.PaidSale?
    ensures saleId in run[j].delivery.pos.sales && run[j].delivery.pos.sales[saleId].status.PaidSale?
    ensures run[j].delivery.pos.sales[saleId].paidAt == run[i].delivery.pos.sales[saleId].paidAt
    ensures var w := run[i];
      && id in w.tables.charges && w.tables.charges[id].status.Paid? && w.tables.charges[id].facts.saleId == saleId
      && w.tables.charges[id].facts.amount == w.delivery.pos.sales[saleId].total
      && w.tables.charges[id].facts.tenantId == w.delivery.pos.sales[saleId].tenantId
      && w.tables.charges[id].paidAt == w.delivery.pos.sales[saleId].paidAt
  {
    DeliveringRun(run, acts, j);
    RunKeeps(run, acts, i + 1);
    var w := run[i];
    assert Inv(w) && Delivering(w) && PosGrows(w.delivery.pos, run[j].delivery.pos);
    assert saleId in w.delivery.pos.paidEvents;
    id :| PaidBy(w, saleId, id);
    assert id in w.tables.charges && id in w.tables.born && WellShaped(w.tables.charges[id]);
  }
}
