/**
  * The daily-close read: the PAID sales of one Nairobi day, grouped by tenant and attendant in the
  * order they come, each group with its msisdn and the rate in force at the end of the day.
  */
module DailyClose {
  import opened Common
  import opened PosTables
  import opened BusinessDay
  import opened Calendar

  // A row of the sales query.
  datatype Row = Row(saleId: SaleId, tenantId: TenantId, attendantId: AttendantId, total: nat)

  datatype DailySale = DailySale(saleId: SaleId, total: nat)
  datatype DailyAttendant = DailyAttendant(
    attendantId: AttendantId, msisdn: Option<Phone>, rateBps: nat, sales: seq<DailySale>)
  datatype DailyTenant = DailyTenant(tenantId: TenantId, attendants: seq<DailyAttendant>)

  // attendant None: the tenant's default.
  datatype Rate = Rate(tenantId: TenantId, attendantId: Option<AttendantId>, bps: nat, from: Instant)
  datatype AttendantRow = AttendantRow(tenantId: TenantId, msisdn: Phone)

  // ---------------------------------------------------------------- the query

  predicate PaidWithin(s: Sale, start: Instant, end: Instant) {
    s.status.PaidSale? && s.paidAt.Some? && start <= s.paidAt.value < end
  }

  function RowOf(id: SaleId, s: Sale): Row {
    Row(id, s.tenantId, s.attendantId, s.total)
  }

  // The result set: every sale paid in the window, once; the order is the query's own.
  ghost predicate IsResultSet(sales: map<SaleId, Sale>, start: Instant, end: Instant, rows: seq<Row>) {
    && (forall i :: 0 <= i < |rows| ==>
          rows[i].saleId in sales && PaidWithin(sales[rows[i].saleId], start, end)
          && rows[i] == RowOf(rows[i].saleId, sales[rows[i].saleId]))
    && (forall i, j :: 0 <= i < j < |rows| ==> rows[i].saleId != rows[j].saleId)
    && (forall id :: id in sales && PaidWithin(sales[id], start, end) ==> RowOf(id, sales[id]) in rows)
  }

  // ---------------------------------------------------------------- a Map that keeps insertion order

  datatype OrderedMap<V> = OrderedMap(keys: seq<nat>, at: map<nat, V>)

  ghost predicate InOrder<V>(m: OrderedMap<V>) {
    && (forall k :: k in m.keys <==> k in m.at)
    && (forall i, j :: 0 <= i < j < |m.keys| ==> m.keys[i] != m.keys[j])
  }

  function Put<V>(m: OrderedMap<V>, k: nat, v: V): (r: OrderedMap<V>)
    requires InOrder(m)
    ensures InOrder(r) && r.at == m.at[k := v]
  {
    OrderedMap(if k in m.at then m.keys else m.keys + [k], m.at[k := v])
  }

  type Groups = OrderedMap<OrderedMap<seq<DailySale>>>

  // ---------------------------------------------------------------- grouping

  /** The sales of one attendant, in row order. */
  function SalesOf(rows: seq<Row>, t: TenantId, a: AttendantId): seq<DailySale> {
    if rows == [] then []
    else
      var n := |rows| - 1;
      SalesOf(rows[..n], t, a)
      + if rows[n].tenantId == t && rows[n].attendantId == a then [DailySale(rows[n].saleId, rows[n].total)] else []
  }

  ghost predicate GroupsInOrder(g: Groups) {
    InOrder(g) && forall t :: t in g.at ==> InOrder(g.at[t]) && g.at[t].keys != []
  }

  // The list kept for one attendant; [] when there is none.
  function ListOf(g: Groups, t: TenantId, a: AttendantId): seq<DailySale> {
    if t in g.at && a in g.at[t].at then g.at[t].at[a] else []
  }

  ghost predicate GroupsRows(rows: seq<Row>, g: Groups) {
    && GroupsInOrder(g)
    && (forall t, a :: ListOf(g, t, a) == SalesOf(rows, t, a))
    && (forall t, a :: t in g.at && a in g.at[t].at ==> g.at[t].at[a] != [])
  }

  const NoGroup: OrderedMap<seq<DailySale>> := OrderedMap([], map[])

  /** One turn of the loop: the row joins its attendant's list. */
  function Joined(g: Groups, row: Row): Groups
    requires GroupsInOrder(g)
  {
    var attendants := if row.tenantId in g.at then g.at[row.tenantId] else NoGroup;
    var list := if row.attendantId in attendants.at then attendants.at[row.attendantId] else [];
    Put(g, row.tenantId, Put(attendants, row.attendantId, list + [DailySale(row.saleId, row.total)]))
  }

  lemma JoinedGroups(rows: seq<Row>, row: Row, g: Groups)
    requires GroupsRows(rows, g)
    ensures GroupsRows(rows + [row], Joined(g, row))
  {
    var g' := Joined(g, row);
    JoinedInOrder(g, row);
    forall t, a ensures ListOf(g', t, a) == SalesOf(rows + [row], t, a) {
      assert ListOf(g, t, a) == SalesOf(rows, t, a);
      SalesOfGrows(rows, row, t, a);
      JoinedLists(g, row, t, a);
    }
    forall t, a | t in g'.at && a in g'.at[t].at ensures g'.at[t].at[a] != [] { JoinedLists(g, row, t, a); }
  }

  lemma JoinedInOrder(g: Groups, row: Row)
    requires GroupsInOrder(g)
    ensures GroupsInOrder(Joined(g, row))
  {
    var attendants := if row.tenantId in g.at then g.at[row.tenantId] else NoGroup;
    assert InOrder(attendants);
    var list := if row.attendantId in attendants.at then attendants.at[row.attendantId] else [];
    var joined := Put(attendants, row.attendantId, list + [DailySale(row.saleId, row.total)]);
    assert joined.keys != [];
    hide InOrder;
    assert Joined(g, row).at == g.at[row.tenantId := joined];
  }

  lemma SalesOfGrows(rows: seq<Row>, row: Row, t: TenantId, a: AttendantId)
    ensures SalesOf(rows + [row], t, a) == SalesOf(rows, t, a)
      + if row.tenantId == t && row.attendantId == a then [DailySale(row.saleId, row.total)] else []
  {
    assert (rows + [row])[..|rows|] == rows;
  }

  lemma JoinedLists(g: Groups, row: Row, t: TenantId, a: AttendantId)
    requires GroupsInOrder(g)
    ensures ListOf(Joined(g, row), t, a) == ListOf(g, t, a)
      + if row.tenantId == t && row.attendantId == a then [DailySale(row.saleId, row.total)] else []
    ensures t in Joined(g, row).at && a in Joined(g, row).at[t].at ==>
      (t in g.at && a in g.at[t].at) || (row.tenantId == t && row.attendantId == a)
  {
  }

  method Join(g: Groups, row: Row) returns (byTenant: Groups)
    requires GroupsInOrder(g)
    ensures byTenant == Joined(g, row)
  {
    var attendants := if row.tenantId in g.at then g.at[row.tenantId] else NoGroup;
    var list := if row.attendantId in attendants.at then attendants.at[row.attendantId] else [];
    list := list + [DailySale(row.saleId, row.total)];
    attendants := Put(attendants, row.attendantId, list);
    byTenant := Put(g, row.tenantId, attendants);
  }

  method GroupRows(rows: seq<Row>) returns (byTenant: Groups)
    ensures GroupsRows(rows, byTenant)
  {
    hide GroupsRows, GroupsInOrder, Joined;
    byTenant := OrderedMap([], map[]);
    NoGroups(rows, byTenant);
    for i := 0 to |rows|
      invariant GroupsRows(rows[..i], byTenant)
    {
      OrderedGroups(rows[..i], byTenant);
      JoinedGroups(rows[..i], rows[i], byTenant);
      byTenant := Join(byTenant, rows[i]);
      assert rows[..i] + [rows[i]] == rows[..i + 1];
    }
    assert rows[..|rows|] == rows;
  }

  lemma NoGroups(rows: seq<Row>, g: Groups)
    requires g == OrderedMap([], map[])
    ensures GroupsRows(rows[..0], g)
  {
  }

  lemma OrderedGroups(rows: seq<Row>, g: Groups)
    requires GroupsRows(rows, g)
    ensures GroupsInOrder(g) && InOrder(NoGroup)
  {
  }

  // ---------------------------------------------------------------- the rate in force

  predicate Applies(r: Rate, t: TenantId, a: Option<AttendantId>, asOf: Instant) {
    r.tenantId == t && r.attendantId == a && r.from < asOf
  }

  // ORDER BY effective_from DESC LIMIT 1
  ghost predicate IsLatest(rates: seq<Rate>, t: TenantId, a: Option<AttendantId>, asOf: Instant, latest: Option<Rate>) {
    match latest
    case None => forall r :: r in rates ==> !Applies(r, t, a, asOf)
    case Some(l) =>
      l in rates && Applies(l, t, a, asOf) && forall r :: r in rates && Applies(r, t, a, asOf) ==> r.from <= l.from
  }

  method LatestRate(rates: seq<Rate>, t: TenantId, a: Option<AttendantId>, asOf: Instant) returns (latest: Option<Rate>)
    ensures IsLatest(rates, t, a, asOf, latest)
  {
    latest := None;
    for i := 0 to |rates|
      invariant IsLatest(rates[..i], t, a, asOf, latest)
    {
      assert rates[..i + 1] == rates[..i] + [rates[i]];
      if Applies(rates[i], t, a, asOf) && (latest.None? || latest.value.from < rates[i].from) { latest := Some(rates[i]); }
    }
    assert rates[..|rates|] == rates;
  }

  // The attendant's own latest rate, else the tenant's, else no commission.
  ghost predicate IsEffective(rates: seq<Rate>, t: TenantId, a: AttendantId, asOf: Instant, bps: nat) {
    exists own, default_ ::
      && IsLatest(rates, t, Some(a), asOf, own) && IsLatest(rates, t, None, asOf, default_)
      && bps == if own.Some? then own.value.bps else if default_.Some? then default_.value.bps else 0
  }

  method EffectiveRateBps(rates: seq<Rate>, t: TenantId, a: AttendantId, asOf: Instant) returns (bps: nat)
    ensures IsEffective(rates, t, a, asOf, bps)
  {
    var own := LatestRate(rates, t, Some(a), asOf);
    var fallback := LatestRate(rates, t, None, asOf);
    return if own.Some? then own.value.bps else if fallback.Some? then fallback.value.bps else 0;
  }

  /** A rate set later, or taking effect only after the day, does not change what the day pays. */
  lemma LaterRatesDoNotMatter(rates: seq<Rate>, later: Rate, t: TenantId, a: AttendantId, asOf: Instant, bps: nat)
    requires IsEffective(rates, t, a, asOf, bps) && asOf <= later.from
    ensures IsEffective(rates + [later], t, a, asOf, bps)
  {
    var own, default_ :|
      && IsLatest(rates, t, Some(a), asOf, own) && IsLatest(rates, t, None, asOf, default_)
      && bps == if own.Some? then own.value.bps else if default_.Some? then default_.value.bps else 0;
    assert IsLatest(rates + [later], t, Some(a), asOf, own) && IsLatest(rates + [later], t, None, asOf, default_);
  }

  // ---------------------------------------------------------------- the response

  function MsisdnOf(attendants: map<AttendantId, AttendantRow>, t: TenantId, a: AttendantId): Option<Phone> {
    if a in attendants && attendants[a].tenantId == t then Some(attendants[a].msisdn) else None
  }

  // Every tenant and attendant once, each with exactly its own sales.
  ghost predicate Reports(rows: seq<Row>, tenants: seq<DailyTenant>) {
    && (forall i, j :: 0 <= i < j < |tenants| ==> tenants[i].tenantId != tenants[j].tenantId)
    && (forall i :: 0 <= i < |tenants| ==> ReportsTenant(rows, tenants[i]))
    && (forall t, a :: SalesOf(rows, t, a) != [] ==> Reported(tenants, t, a))
  }

  ghost predicate ReportsTenant(rows: seq<Row>, t: DailyTenant) {
    && t.attendants != []
    && (forall j, k :: 0 <= j < k < |t.attendants| ==> t.attendants[j].attendantId != t.attendants[k].attendantId)
    && (forall j :: 0 <= j < |t.attendants| ==>
          t.attendants[j].sales == SalesOf(rows, t.tenantId, t.attendants[j].attendantId) != [])
  }

  ghost predicate Reported(tenants: seq<DailyTenant>, t: TenantId, a: AttendantId) {
    exists i, j :: 0 <= i < |tenants| && 0 <= j < |tenants[i].attendants|
      && tenants[i].tenantId == t && tenants[i].attendants[j].attendantId == a
  }

  ghost predicate Priced(t: DailyTenant, attendants: map<AttendantId, AttendantRow>, rates: seq<Rate>, asOf: Instant) {
    forall j :: 0 <= j < |t.attendants| ==>
      && t.attendants[j].msisdn == MsisdnOf(attendants, t.tenantId, t.attendants[j].attendantId)
      && IsEffective(rates, t.tenantId, t.attendants[j].attendantId, asOf, t.attendants[j].rateBps)
  }

  method ReportTenant(t: TenantId, group: OrderedMap<seq<DailySale>>, attendants: map<AttendantId, AttendantRow>,
                      rates: seq<Rate>, asOf: Instant) returns (report: DailyTenant)
    requires InOrder(group)
    ensures report.tenantId == t && |report.attendants| == |group.keys| && Priced(report, attendants, rates, asOf)
    ensures forall j :: 0 <= j < |report.attendants| ==>
      report.attendants[j].attendantId == group.keys[j] && report.attendants[j].sales == group.at[group.keys[j]]
  {
    var list: seq<DailyAttendant> := [];
    for j := 0 to |group.keys|
      invariant |list| == j && Priced(DailyTenant(t, list), attendants, rates, asOf)
      invariant forall k :: 0 <= k < j ==>
        list[k].attendantId == group.keys[k] && group.keys[k] in group.at && list[k].sales == group.at[group.keys[k]]
    {
      var a := group.keys[j];
      var msisdn := MsisdnOf(attendants, t, a);
      var bps := EffectiveRateBps(rates, t, a, asOf);
      list := list + [DailyAttendant(a, msisdn, bps, group.at[a])];
    }
    return DailyTenant(t, list);
  }

  /** The route's body for one day; `rows` is what the sales query returned. */
  method Report(rows: seq<Row>, attendants: map<AttendantId, AttendantRow>, rates: seq<Rate>, asOf: Instant)
    returns (tenants: seq<DailyTenant>)
    ensures Reports(rows, tenants)
    ensures forall i :: 0 <= i < |tenants| ==> Priced(tenants[i], attendants, rates, asOf)
  {
    var byTenant := GroupRows(rows);
    tenants := [];
    for i := 0 to |byTenant.keys|
      invariant |tenants| == i
      invariant forall k :: 0 <= k < i ==>
        && tenants[k].tenantId == byTenant.keys[k] && ReportsTenant(rows, tenants[k])
        && Priced(tenants[k], attendants, rates, asOf)
      invariant forall k, a :: 0 <= k < i && byTenant.keys[k] in byTenant.at && a in byTenant.at[byTenant.keys[k]].at ==>
        Reported(tenants, byTenant.keys[k], a)
    {
      var t := byTenant.keys[i];
      var report := ReportTenant(t, byTenant.at[t], attendants, rates, asOf);
      ghost var before := tenants;
      if |report.attendants| > 0 { tenants := tenants + [report]; }
      ReportedGrows(before, report, rows, byTenant, i);
    }
    AllReported(rows, byTenant, tenants);
  }

  lemma ReportedGrows(before: seq<DailyTenant>, report: DailyTenant, rows: seq<Row>, g: Groups, i: nat)
    requires GroupsRows(rows, g) && i < |g.keys| && report.tenantId == g.keys[i] && g.keys[i] in g.at
    requires var group := g.at[g.keys[i]];
      |report.attendants| == |group.keys| &&
      forall j :: 0 <= j < |report.attendants| ==> report.attendants[j].attendantId == group.keys[j]
    requires forall k, a :: 0 <= k < i && g.keys[k] in g.at && a in g.at[g.keys[k]].at ==> Reported(before, g.keys[k], a)
    ensures forall k, a :: 0 <= k <= i && g.keys[k] in g.at && a in g.at[g.keys[k]].at ==>
      Reported(before + [report], g.keys[k], a)
  {
    var after := before + [report];
    forall k, a | 0 <= k <= i && g.keys[k] in g.at && a in g.at[g.keys[k]].at ensures Reported(after, g.keys[k], a) {
      if k < i {
        var x, y :| 0 <= x < |before| && 0 <= y < |before[x].attendants|
          && before[x].tenantId == g.keys[k] && before[x].attendants[y].attendantId == a;
        assert after[x] == before[x];
      } else {
        var group := g.at[g.keys[i]];
        var j :| 0 <= j < |group.keys| && group.keys[j] == a;
        assert after[|before|] == report && report.attendants[j].attendantId == a;
      }
    }
  }

  lemma AllReported(rows: seq<Row>, g: Groups, tenants: seq<DailyTenant>)
    requires GroupsRows(rows, g)
    requires forall k, a :: 0 <= k < |g.keys| && g.keys[k] in g.at && a in g.at[g.keys[k]].at ==>
      Reported(tenants, g.keys[k], a)
    ensures forall t, a :: SalesOf(rows, t, a) != [] ==> Reported(tenants, t, a)
  {
    forall t, a | SalesOf(rows, t, a) != [] ensures Reported(tenants, t, a) {
      assert ListOf(g, t, a) == SalesOf(rows, t, a);
      assert t in g.at && a in g.at[t].at;
      var k :| 0 <= k < |g.keys| && g.keys[k] == t;
    }
  }

  // ---------------------------------------------------------------- conservation

  // A place in the response.
  ghost predicate At(tenants: seq<DailyTenant>, i: nat, j: nat, k: nat) {
    i < |tenants| && j < |tenants[i].attendants| && k < |tenants[i].attendants[j].sales|
  }

  ghost function RowAt(tenants: seq<DailyTenant>, i: nat, j: nat, k: nat): Row
    requires At(tenants, i, j, k)
  {
    var sale := tenants[i].attendants[j].sales[k];
    Row(sale.saleId, tenants[i].tenantId, tenants[i].attendants[j].attendantId, sale.total)
  }

  ghost predicate Once(rows: seq<Row>) {
    forall i, j :: 0 <= i < j < |rows| ==> rows[i].saleId != rows[j].saleId
  }

  lemma {:induction false} SalesOfRows(rows: seq<Row>, t: TenantId, a: AttendantId)
    ensures forall k :: 0 <= k < |SalesOf(rows, t, a)| ==>
      Row(SalesOf(rows, t, a)[k].saleId, t, a, SalesOf(rows, t, a)[k].total) in rows
    ensures forall r :: r in rows && r.tenantId == t && r.attendantId == a ==>
      DailySale(r.saleId, r.total) in SalesOf(rows, t, a)
  {
    if rows != [] {
      var n := |rows| - 1;
      SalesOfRows(rows[..n], t, a);
      assert rows == rows[..n] + [rows[n]];
    }
  }

  lemma {:induction false} SalesOfOnce(rows: seq<Row>, t: TenantId, a: AttendantId)
    requires Once(rows)
    ensures forall k, l :: 0 <= k < l < |SalesOf(rows, t, a)| ==> SalesOf(rows, t, a)[k].saleId != SalesOf(rows, t, a)[l].saleId
  {
    if rows != [] {
      var n := |rows| - 1;
      SalesOfOnce(rows[..n], t, a);
      SalesOfRows(rows[..n], t, a);
    }
  }

  /** Every row is reported, under its own tenant and attendant. */
  lemma EveryRowReported(rows: seq<Row>, tenants: seq<DailyTenant>, r: Row)
    requires Reports(rows, tenants) && r in rows
    ensures exists i, j, k :: At(tenants, i, j, k) && RowAt(tenants, i, j, k) == r
  {
    SalesOfRows(rows, r.tenantId, r.attendantId);
    assert DailySale(r.saleId, r.total) in SalesOf(rows, r.tenantId, r.attendantId);
    assert Reported(tenants, r.tenantId, r.attendantId);
    var i, j :| 0 <= i < |tenants| && 0 <= j < |tenants[i].attendants|
      && tenants[i].tenantId == r.tenantId && tenants[i].attendants[j].attendantId == r.attendantId;
    assert ReportsTenant(rows, tenants[i]);
    var sales := tenants[i].attendants[j].sales;
    assert sales == SalesOf(rows, r.tenantId, r.attendantId);
    var k :| 0 <= k < |sales| && sales[k] == DailySale(r.saleId, r.total);
    assert At(tenants, i, j, k) && RowAt(tenants, i, j, k) == r;
  }

  /** And everything reported is a row, at no other place. */
  lemma ReportedIsRow(rows: seq<Row>, tenants: seq<DailyTenant>, i: nat, j: nat, k: nat)
    requires Reports(rows, tenants) && At(tenants, i, j, k)
    ensures RowAt(tenants, i, j, k) in rows
  {
    assert ReportsTenant(rows, tenants[i]);
    SalesOfRows(rows, tenants[i].tenantId, tenants[i].attendants[j].attendantId);
  }

  lemma ReportedOnce(rows: seq<Row>, tenants: seq<DailyTenant>, i: nat, j: nat, k: nat, x: nat, y: nat, z: nat)
    requires Reports(rows, tenants) && Once(rows) && At(tenants, i, j, k) && At(tenants, x, y, z)
    requires RowAt(tenants, i, j, k).saleId == RowAt(tenants, x, y, z).saleId
    ensures i == x && j == y && k == z
  {
    ReportedIsRow(rows, tenants, i, j, k);
    ReportedIsRow(rows, tenants, x, y, z);
    var a, b := RowAt(tenants, i, j, k), RowAt(tenants, x, y, z);
    var m :| 0 <= m < |rows| && rows[m] == a;
    var n :| 0 <= n < |rows| && rows[n] == b;
    assert m == n;
    assert i == x;
    assert ReportsTenant(rows, tenants[i]);
    assert j == y;
    SalesOfOnce(rows, a.tenantId, a.attendantId);
  }

  /**
    * The grouping conserves: the response holds exactly the PAID sales of the window, each at one place,
    * under its own tenant and attendant and with its own total.
    */
  lemma CloseConserves(sales: map<SaleId, Sale>, start: Instant, end: Instant, rows: seq<Row>, tenants: seq<DailyTenant>,
                       id: SaleId)
    requires IsResultSet(sales, start, end, rows) && Reports(rows, tenants)
    ensures id in sales && PaidWithin(sales[id], start, end) <==>
      exists i, j, k :: At(tenants, i, j, k) && RowAt(tenants, i, j, k).saleId == id
    ensures forall i, j, k :: At(tenants, i, j, k) && RowAt(tenants, i, j, k).saleId == id ==>
      id in sales && RowAt(tenants, i, j, k) == RowOf(id, sales[id])
    ensures forall i, j, k, x, y, z ::
      (At(tenants, i, j, k) && At(tenants, x, y, z)
       && RowAt(tenants, i, j, k).saleId == id && RowAt(tenants, x, y, z).saleId == id)
      ==> (i, j, k) == (x, y, z)
  {
    if id in sales && PaidWithin(sales[id], start, end) { EveryRowReported(rows, tenants, RowOf(id, sales[id])); }
    forall i, j, k | At(tenants, i, j, k) && RowAt(tenants, i, j, k).saleId == id
      ensures id in sales && PaidWithin(sales[id], start, end) && RowAt(tenants, i, j, k) == RowOf(id, sales[id])
    {
      ReportedIsRow(rows, tenants, i, j, k);
    }
    forall i, j, k, x, y, z | At(tenants, i, j, k) && At(tenants, x, y, z)
      && RowAt(tenants, i, j, k).saleId == id && RowAt(tenants, x, y, z).saleId == id
      ensures (i, j, k) == (x, y, z)
    {
      ReportedOnce(rows, tenants, i, j, k, x, y, z);
    }
  }

  // ---------------------------------------------------------------- consecutive days

  predicate PaidOn(s: Sale, day: string)
    requires IsBusinessDay(day)
  {
    PaidWithin(s, StartOf(day), EndOf(day))
  }

  /** A PAID sale belongs to one day, the Nairobi date of its payment. */
  lemma PaidOnOneDay(s: Sale, day: string, other: string)
    requires IsBusinessDay(day) && IsBusinessDay(other) && s.status.PaidSale? && s.paidAt.Some?
    ensures PaidOn(s, day) <==> NairobiDate(s.paidAt.value) == Some(day)
    ensures PaidOn(s, day) && PaidOn(s, other) ==> day == other
  {
    hide IsBusinessDay;
    DaysTileTime(day, s.paidAt.value);
    DaysTileTime(other, s.paidAt.value);
  }

  // n days in a row.
  ghost predicate Consecutive(days: seq<string>) {
    && (forall i :: 0 <= i < |days| ==> IsBusinessDay(days[i]))
    && (forall i :: 0 < i < |days| ==> Index(days[i]) == Index(days[i - 1]) + 1)
  }

  lemma {:induction false} DaysInARow(days: seq<string>, i: nat)
    requires Consecutive(days) && i < |days|
    ensures Index(days[i]) == Index(days[0]) + i
    ensures StartOf(days[i]) == StartOf(days[0]) + i * DAY
  {
    hide IsBusinessDay, Index, StartOf, EndOf;
    if i > 0 { DaysInARow(days, i - 1); }
    BoundsByIndex(days[i]);
    BoundsByIndex(days[0]);
  }

  /** Over consecutive closes of a fixed sales table, every sale paid in the stretch is counted by exactly one. */
  lemma ClosesPartitionSales(days: seq<string>, s: Sale)
    requires Consecutive(days) && days != []
    ensures PaidWithin(s, StartOf(days[0]), StartOf(days[0]) + |days| * DAY) <==>
      exists i :: 0 <= i < |days| && PaidOn(s, days[i])
    ensures forall i, j :: 0 <= i < j < |days| ==> !(PaidOn(s, days[i]) && PaidOn(s, days[j]))
  {
    hide Index, StartOf, Fields, UtcDay, CivilOf;
    forall i | 0 <= i < |days| ensures StartOf(days[i]) == StartOf(days[0]) + i * DAY { DaysInARow(days, i); }
    if PaidWithin(s, StartOf(days[0]), StartOf(days[0]) + |days| * DAY) {
      var i := (s.paidAt.value - StartOf(days[0])) / DAY;
      assert 0 <= i < |days| && PaidOn(s, days[i]);
    }
    forall i, j | 0 <= i < j < |days| ensures !(PaidOn(s, days[i]) && PaidOn(s, days[j])) {
      assert StartOf(days[i]) + DAY <= StartOf(days[j]);
    }
  }

  function RolledOver(day: string): Civil
    requires DayShape(day)
  {
    CivilOf(UtcDay(Fields(day).year, Fields(day).month - 1, Fields(day).day))
  }

  /** The route checks a day's shape only: a date that is none is served as the day it rolls over to. */
  lemma ImpossibleDateRollsOver(day: string, served: string)
    requires DayShape(day) && IsBusinessDay(served) && Fields(served) == RolledOver(day)
    ensures StartOf(served) == StartOf(day) && (served == day <==> IsBusinessDay(day))
  {
    hide UtcDay, CivilOf, ValidCivil, DayNumber, Written, Fields, DayShape;
    var n := UtcDay(Fields(day).year, Fields(day).month - 1, Fields(day).day);
    BusinessDaysAreDates(served);
    DayNumberOfCivil(n);
    WritesWhatIsRead(day);
    WritesWhatIsRead(served);
  }
}
