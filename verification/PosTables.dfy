/** The POS tables a payment touches: sales, and sale_paid_events keyed by sale_id. */
module PosTables {
  import opened Common
  import opened Charges

  datatype SaleStatus = Draft | OpenSale | Unpaid | PaidSale | Void
  datatype Sale = Sale(
    tenantId: TenantId, attendantId: AttendantId, total: nat, status: SaleStatus,
    chargeId: Option<ChargeId>, paidAt: Option<Instant>)

  datatype Pos = Pos(sales: map<SaleId, Sale>, paidEvents: set<SaleId>)

  /** applySalePaid's transaction; None when the foreign key to sales rolls it back. */
  function ApplySalePaid(p: Pos, e: SalePaid): Option<Pos> {
    if e.saleId in p.paidEvents then Some(p)
    else if e.saleId !in p.sales then None
    else
      var s := p.sales[e.saleId];
      var s' := if s.tenantId == e.tenantId && !s.status.PaidSale?
                then s.(status := PaidSale, paidAt := Some(e.paidAt)) else s;
      Some(Pos(p.sales[e.saleId := s'], p.paidEvents + {e.saleId}))
  }

  /** paySale's closing UPDATE, scoped by tenant. */
  function StoreChargeId(p: Pos, saleId: SaleId, tenantId: TenantId, chargeId: ChargeId): Pos {
    if saleId in p.sales && p.sales[saleId].tenantId == tenantId then
      p.(sales := p.sales[saleId := p.sales[saleId].(chargeId := Some(chargeId))])
    else p
  }
}
