/**
  * From the sales table to the ledger: what a completed close ledgered is exactly what was paid that day,
  * attendant by attendant.
  */
module EndOfDay {
  import opened Common
  import opened Payouts
  import opened PayoutProtocol
  import PayoutInvariants
  import PayoutSteps
  import opened DailyClose
  import opened Close
  import Money

  function TotalsOf(sales: seq<DailySale>): (totals: seq<nat>)
    ensures |totals| == |sales|
  {
    seq(|sales|, k requires 0 <= k < |sales| => sales[k].total)
  }

  function DayOf(a: DailyAttendant): AttendantDay {
    AttendantDay(a.attendantId, a.msisdn, a.rateBps, TotalsOf(a.sales))
  }

  /** The daily-close response as the close reads it. */
  function Snapshot(tenants: seq<DailyTenant>): (days: seq<TenantDay>)
    ensures |days| == |tenants|
  {
    seq(|tenants|, i requires 0 <= i < |tenants| => TenantDay(tenants[i].tenantId,
      seq(|tenants[i].attendants|, j requires 0 <= j < |tenants[i].attendants| => DayOf(tenants[i].attendants[j]))))
  }

  lemma {:induction false} ItemComesFrom(days: seq<TenantDay>, n: nat) returns (i: nat, j: nat)
    requires n < |Items(days)|
    ensures i < |days| && j < |days[i].attendants| && Items(days)[n] == Item(days[i].tenantId, days[i].attendants[j])
    decreases |days|
  {
    var last := |days| - 1;
    if n < |Items(days[..last])| {
      i, j := ItemComesFrom(days[..last], n);
    } else {
      i, j := last, n - |Items(days[..last])|;
    }
  }

  /**
    * A row the close created counts its attendant's paid sales of the day, and nothing else: its amount is
    * the sum of those sales' own floors at the rate in force at the end of the day, for the attendant's phone.
    */
  lemma LedgeredIsPaid(rows: seq<Row>, tenants: seq<DailyTenant>, attendants: map<AttendantId, AttendantRow>,
                       rates: seq<Rate>, asOf: Instant, before: PayoutTables, after: PayoutTables, day: string,
                       r: CloseResult, id: LedgerId)
    requires Reports(rows, tenants) && forall i :: 0 <= i < |tenants| ==> Priced(tenants[i], attendants, rates, asOf)
    requires CloseDone(before, after, Snapshot(tenants), day, r)
    requires id in after.ledger && id !in before.ledger
    ensures var key, f := after.ledger[id].key, after.ledger[id].figures;
      var paid := SalesOf(rows, key.tenantId, key.attendantId);
      && paid != [] && key.day == day
      && f.saleCount == |paid| && f.saleTotal == Money.Sum(TotalsOf(paid))
      && Money.Stored(TotalsOf(paid)) && f.rateBps <= Money.FULL_RATE
      && f.amount == Money.Sum(Money.PerSale(TotalsOf(paid), f.rateBps))
      && f.amount == f.payout + f.remainder && f.payout % 100 == 0 && f.remainder < 100
      && IsEffective(rates, key.tenantId, key.attendantId, asOf, f.rateBps)
      && f.msisdn == GetOr(MsisdnOf(attendants, key.tenantId, key.attendantId), NO_MSISDN)
  {
    hide FiguresFor, KeyTaken, Items, IsEffective, Money.PerSale, Money.Sum, Money.Stored;
    var days := Snapshot(tenants);
    var done := Items(days)[..r.created + r.existing];
    var writes := Writes(done, day);
    var key := after.ledger[id].key;
    PayoutInvariants.FirstWriteGrows(writes, LedgerWrite(key, after.ledger[id].figures), key);
    var n := WriteBehind(writes, key);
    var i, j := ItemComesFrom(days, n);
    assert done[n] == Items(days)[n] && Writable(done[n]);
    assert ReportsTenant(rows, tenants[i]) && Priced(tenants[i], attendants, rates, asOf);
  }

  /** So the commission lies within one unit a sale of the rate applied to the day's total. */
  lemma LedgeredCommissionBounds(rows: seq<Row>, tenants: seq<DailyTenant>, attendants: map<AttendantId, AttendantRow>,
                                 rates: seq<Rate>, asOf: Instant, before: PayoutTables, after: PayoutTables, day: string,
                                 r: CloseResult, id: LedgerId)
    requires Reports(rows, tenants) && forall i :: 0 <= i < |tenants| ==> Priced(tenants[i], attendants, rates, asOf)
    requires CloseDone(before, after, Snapshot(tenants), day, r)
    requires id in after.ledger && id !in before.ledger
    ensures var f := after.ledger[id].figures;
      var once := f.saleTotal * f.rateBps / Money.FULL_RATE;
      once - (f.saleCount - 1) <= f.amount <= once <= f.saleTotal
  {
    hide CloseDone, Reports, Priced;
    LedgeredIsPaid(rows, tenants, attendants, rates, asOf, before, after, day, r, id);
    var key, f := after.ledger[id].key, after.ledger[id].figures;
    var totals := TotalsOf(SalesOf(rows, key.tenantId, key.attendantId));
    Money.PerSaleWithin(totals, f.rateBps);
    Money.PerSaleLoses(totals, f.rateBps);
  }

  /** The first write of a key, found. */
  lemma {:induction false} WriteBehind(writes: seq<LedgerWrite>, key: Key) returns (n: nat)
    requires FirstWrite(writes, key).Some?
    ensures n < |writes| && writes[n].key == key && FirstWrite(writes, key) == Some(writes[n].figures)
  {
    if writes[0].key == key {
      n := 0;
    } else {
      n := WriteBehind(writes[1..], key);
      n := n + 1;
    }
  }

  /** And every attendant with a paid sale has a row for the day once the close completed. */
  lemma PaidIsLedgered(rows: seq<Row>, tenants: seq<DailyTenant>, before: PayoutTables, after: PayoutTables, day: string,
                       r: CloseResult, row: Row)
    requires Reports(rows, tenants) && CloseDone(before, after, Snapshot(tenants), day, r) && r.status.Completed?
    requires row in rows
    ensures KeyTaken(after, Key(row.tenantId, row.attendantId, day))
  {
    hide FiguresFor, KeyTaken, Items;
    var days := Snapshot(tenants);
    EveryRowReported(rows, tenants, row);
    var i, j, k :| At(tenants, i, j, k) && RowAt(tenants, i, j, k) == row;
    ItemAt(days, i, j);
    var n := |Met(days, i, j)|;
    var done := Items(days)[..r.created + r.existing];
    assert done[n] == Items(days)[n];
    assert KeyTaken(after, Writes(done, day)[n].key);
  }

  /**
    * And asked for: every row the close created with something to send and somewhere to send it has a payout
    * of exactly its figures, once the run completed and its requests arrived.
    */
  lemma EarnedIsAskedFor(tenants: seq<DailyTenant>, before: PayoutTables, after: PayoutTables, day: string,
                         r: CloseResult, turns: seq<Turn>, wires: nat -> Wire, id: LedgerId)
    requires PayoutInvariants.RowsSound(before)
    requires CloseDone(before, after, Snapshot(tenants), day, r) && r.status.Completed?
    requires TurnsTaken(before, after, Items(Snapshot(tenants))[..r.created + r.existing], day, turns, wires)
    requires forall k :: wires(k).arrives
    requires id in after.ledger && id !in before.ledger
    requires after.ledger[id].figures.payout > 0 && after.ledger[id].figures.msisdn != NO_MSISDN
    ensures PayoutSteps.PaidOut(after, id)
  {
    hide FiguresFor, KeyTaken, Items, PayoutInvariants.RowsSound, PayoutSteps.PaidOut, TurnHolds;
    var days := Snapshot(tenants);
    var done := Items(days)[..r.created + r.existing];
    var writes := Writes(done, day);
    var key := after.ledger[id].key;
    PayoutInvariants.FirstWriteGrows(writes, LedgerWrite(key, after.ledger[id].figures), key);
    var n := WriteBehind(writes, key);
    assert done[n] == Items(days)[n] && Writable(done[n]) && KeyOf(done[n], day) == key;
    NobodyForgotten(before, after, days, day, r, turns, wires, n);
    OnlyRow(after, id, key);
  }

  lemma OnlyRow(t: PayoutTables, id: LedgerId, key: Key)
    requires PayoutInvariants.RowsSound(t) && id in t.ledger && t.ledger[id].key == key
    ensures forall lid :: IsRow(t, lid, key) ==> lid == id
    ensures t.ledger[id].status == LedgerSkipped <==> t.ledger[id].figures.payout == 0 || t.ledger[id].figures.msisdn == NO_MSISDN
  {
  }
}
