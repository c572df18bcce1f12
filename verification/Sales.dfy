/**
  * Creating a sale under an idempotency key, as a protocol over the POS tables: two calls may race, any
  * call may crash before or after its commit, and the answers are what a first-writer-wins register gives.
  */
module Sales {
  import opened Common
  import opened PosTables
  import Money

  type ProductId = nat

  const CREATED := 201

  datatype ItemInput = ItemInput(productId: ProductId, quantity: int)

  // What the canonical request hash covers; it is injective on these.
  datatype Request = Request(tenantId: TenantId, attendantId: AttendantId, items: seq<ItemInput>)

  // The primary key of idempotency_keys.
  datatype SaleKey = SaleKey(tenantId: TenantId, idempotencyKey: string)

  datatype Call = Call(request: Request, idempotencyKey: string)

  datatype SaleItem = SaleItem(productId: ProductId, quantity: int, unitPrice: nat)
  datatype Body = Body(
    saleId: SaleId, tenantId: TenantId, attendantId: AttendantId, total: nat, createdAt: Instant, items: seq<SaleItem>)
  datatype Response = Response(status: int, body: Body)
  datatype KeyRow = KeyRow(request: Request, saleId: SaleId, response: Response)

  datatype Product = Product(tenantId: TenantId, unitPrice: nat, active: bool)
  datatype Catalog = Catalog(products: map<ProductId, Product>, attendants: map<AttendantId, TenantId>)

  datatype Store = Store(sales: map<SaleId, Sale>, items: map<SaleId, seq<SaleItem>>, keys: map<SaleKey, KeyRow>)

  datatype Failure =
    | Conflict
    | EmptySale
    | AttendantMissing
    | ProductMissing(productId: ProductId)
    | BadAmount(fault: Money.Fault)

  function KeyOf(c: Call): SaleKey {
    SaleKey(c.request.tenantId, c.idempotencyKey)
  }

  // ---------------------------------------------------------------- the transaction's reads

  predicate Sellable(catalog: Catalog, tenantId: TenantId, id: ProductId) {
    id in catalog.products && catalog.products[id].tenantId == tenantId && catalog.products[id].active
  }

  /** Pass 1: every product priced from the catalog, in request order; the first problem ends it. */
  function Priced(catalog: Catalog, tenantId: TenantId, items: seq<ItemInput>): (r: Result<seq<SaleItem>, Failure>)
    ensures r.Ok? ==> |r.value| == |items|
    ensures r.Err? ==> r.error.ProductMissing? || r.error.BadAmount?
  {
    if items == [] then Ok([])
    else
      var n := |items| - 1;
      match Priced(catalog, tenantId, items[..n])
      case Err(e) => Err(e)
      case Ok(before) =>
        var item := items[n];
        if !Sellable(catalog, tenantId, item.productId) then Err(ProductMissing(item.productId))
        else
          var price := catalog.products[item.productId].unitPrice;
          match Money.ToMinorUnits(Money.Whole(price))
          case Err(e) => Err(BadAmount(e))
          case Ok(_) =>
            match Money.LineItemTotal(price, item.quantity)
            case Err(e) => Err(BadAmount(e))
            case Ok(_) => Ok(before + [SaleItem(item.productId, item.quantity, price)])
  }

  function LineTotal(i: SaleItem): nat {
    if i.quantity < 0 then 0 else i.unitPrice * i.quantity
  }

  function Lines(items: seq<SaleItem>): (lines: seq<nat>)
    ensures |lines| == |items|
  {
    seq(|items|, i requires 0 <= i < |items| => LineTotal(items[i]))
  }

  /** What the transaction would write. */
  function Draft(catalog: Catalog, r: Request, saleId: SaleId, now: Instant): (d: Result<Body, Failure>)
    ensures d.Err? ==> d.error.AttendantMissing? || d.error.ProductMissing? || d.error.BadAmount?
  {
    if r.attendantId !in catalog.attendants || catalog.attendants[r.attendantId] != r.tenantId then Err(AttendantMissing)
    else
      match Priced(catalog, r.tenantId, r.items)
      case Err(e) => Err(e)
      case Ok(items) =>
        match Money.SumMinor(Lines(items))
        case Err(e) => Err(BadAmount(e))
        case Ok(total) => Ok(Body(saleId, r.tenantId, r.attendantId, total, now, items))
  }

  // A body prices every requested item at the catalog's price, and totals it.
  predicate PricedRight(catalog: Catalog, r: Request, b: Body) {
    && |b.items| == |r.items|
    && (forall i :: 0 <= i < |b.items| ==>
          && b.items[i].productId == r.items[i].productId && b.items[i].quantity == r.items[i].quantity > 0
          && Sellable(catalog, r.tenantId, r.items[i].productId)
          && b.items[i].unitPrice == catalog.products[r.items[i].productId].unitPrice)
    && b.total == Money.Sum(Lines(b.items))
  }

  lemma {:induction false} PricedItems(catalog: Catalog, tenantId: TenantId, items: seq<ItemInput>)
    requires Priced(catalog, tenantId, items).Ok?
    ensures var priced := Priced(catalog, tenantId, items).value;
      forall i :: 0 <= i < |items| ==>
        && priced[i].productId == items[i].productId && priced[i].quantity == items[i].quantity > 0
        && Sellable(catalog, tenantId, items[i].productId)
        && priced[i].unitPrice == catalog.products[items[i].productId].unitPrice
  {
    if items != [] { PricedItems(catalog, tenantId, items[..|items| - 1]); }
  }

  /** The client names products and quantities; every price and the total are the server's. */
  lemma DraftIsPriced(catalog: Catalog, r: Request, saleId: SaleId, now: Instant)
    requires Draft(catalog, r, saleId, now).Ok?
    ensures var b := Draft(catalog, r, saleId, now).value;
      && PricedRight(catalog, r, b)
      && b.saleId == saleId && b.tenantId == r.tenantId && b.attendantId == r.attendantId && b.createdAt == now
  {
    PricedItems(catalog, r.tenantId, r.items);
  }

  // ---------------------------------------------------------------- createSale

  /** What a SELECT of the key row answers. */
  function Answer(row: KeyRow, r: Request): Result<Response, Failure> {
    if row.request != r then Err(Conflict) else Ok(row.response)
  }

  function SaleOf(b: Body): Sale {
    Sale(b.tenantId, b.attendantId, b.total, Unpaid, None, None)
  }

  function InsertSale(t: Store, key: SaleKey, r: Request, b: Body): Store {
    Store(t.sales[b.saleId := SaleOf(b)], t.items[b.saleId := b.items],
      t.keys[key := KeyRow(r, b.saleId, Response(CREATED, b))])
  }

  /** createSale; `seen` is what its first SELECT read, and the primary key decides a race at commit. */
  function CreateSale(seen: Store, t: Store, catalog: Catalog, c: Call, saleId: SaleId, now: Instant)
    : (Store, Result<Response, Failure>)
  {
    var key := KeyOf(c);
    if key in seen.keys then (t, Answer(seen.keys[key], c.request))
    else if c.request.items == [] then (t, Err(EmptySale))
    else
      match Draft(catalog, c.request, saleId, now)
      case Err(e) => (t, Err(e))
      case Ok(body) =>
        if key in t.keys then (t, Answer(t.keys[key], c.request))
        else (InsertSale(t, key, c.request, body), Ok(Response(CREATED, body)))
  }

  // ---------------------------------------------------------------- runs

  datatype Write = Write(key: SaleKey, row: KeyRow)
  datatype Said = Said(call: Call, answer: Result<Response, Failure>)

  // writes: every insert attempted, in commit order; said: every answer given.
  datatype Shop = Shop(store: Store, writes: seq<Write>, said: set<Said>)

  // The sale is refused for what it asks: nothing is written, whatever the key.
  predicate Refused(a: Said) {
    a.answer.Err? && !a.answer.error.Conflict? && (a.answer.error.EmptySale? <==> a.call.request.items == [])
  }

  datatype SaleStep =
    // A SELECT of the key row found one: the first read, or the re-read of a caller that lost the race.
    | Replayed(call: Call)
    // The transaction ran to its commit or its rollback; `heard` is false when the caller crashed after it.
    | Attempted(call: Call, catalog: Catalog, saleId: SaleId, now: Instant, heard: bool)
    // No key row, and nothing to sell: the transaction, if there was one, rolled back.
    | TurnedDown(call: Call, catalog: Catalog, saleId: SaleId, now: Instant)
    // Every other writer: paySale and applySalePaid change status, charge and date, never what was sold.
    | SaleTouched(saleId: SaleId, sale: Sale)

  ghost predicate SaleEnabled(v: Shop, w: Shop, s: SaleStep) {
    match s
    case Replayed(call) => KeyOf(call) in v.store.keys
    case Attempted(call, catalog, saleId, now, _) =>
      KeyOf(call) !in v.store.keys && call.request.items != [] && saleId !in w.store.sales
      && Draft(catalog, call.request, saleId, now).Ok?
    case TurnedDown(call, catalog, saleId, now) =>
      KeyOf(call) !in v.store.keys && (call.request.items == [] || Draft(catalog, call.request, saleId, now).Err?)
    case SaleTouched(saleId, sale) =>
      saleId in w.store.sales
      && sale == w.store.sales[saleId].(status := sale.status, chargeId := sale.chargeId, paidAt := sale.paidAt)
  }

  ghost function ShopAfter(v: Shop, w: Shop, s: SaleStep): Shop {
    match s
    case Replayed(call) =>
      if KeyOf(call) !in v.store.keys then w
      else w.(said := w.said + {Said(call, Answer(v.store.keys[KeyOf(call)], call.request))})
    case Attempted(call, catalog, saleId, now, heard) =>
      (match Draft(catalog, call.request, saleId, now)
       case Err(_) => w
       case Ok(body) =>
         var (store, answer) := CreateSale(v.store, w.store, catalog, call, saleId, now);
         var won := KeyOf(call) !in w.store.keys;
         Shop(store, w.writes + [Write(KeyOf(call), KeyRow(call.request, saleId, Response(CREATED, body)))],
           if won && heard then w.said + {Said(call, answer)} else w.said))
    case TurnedDown(call, catalog, saleId, now) =>
      var (store, answer) := CreateSale(v.store, w.store, catalog, call, saleId, now);
      w.(store := store, said := w.said + {Said(call, answer)})
    case SaleTouched(saleId, sale) => w.(store := w.store.(sales := w.store.sales[saleId := sale]))
  }

  datatype SaleAct = SaleAct(step: SaleStep, v: nat)

  ghost predicate IsSaleRun(run: seq<Shop>, acts: seq<SaleAct>) {
    && |run| == |acts| + 1 && run[0] == Shop(Store(map[], map[], map[]), [], {})
    && forall i :: 0 <= i < |acts| ==>
         acts[i].v <= i && SaleEnabled(run[acts[i].v], run[i], acts[i].step)
         && run[i + 1] == ShopAfter(run[acts[i].v], run[i], acts[i].step)
  }

  // ---------------------------------------------------------------- the register

  /** A first-writer-wins register: for every key, the first write. */
  function Register(writes: seq<Write>, key: SaleKey): Option<KeyRow> {
    if writes == [] then None
    else
      var n := |writes| - 1;
      var before := Register(writes[..n], key);
      if before.Some? then before else if writes[n].key == key then Some(writes[n].row) else None
  }

  // The key rows are the register's content.
  ghost predicate IsRegister(w: Shop) {
    forall key :: Register(w.writes, key) == if key in w.store.keys then Some(w.store.keys[key]) else None
  }

  // A key row and the sale it names, in each other's terms.
  ghost predicate Corresponds(t: Store, key: SaleKey) {
    && key in t.keys
    && var row := t.keys[key];
       && row.saleId in t.sales && row.saleId in t.items && row.response.body.saleId == row.saleId
       && row.response.status == CREATED && row.request.tenantId == key.tenantId
       && t.items[row.saleId] == row.response.body.items
       && (var sale := t.sales[row.saleId];
           && sale.tenantId == key.tenantId == row.response.body.tenantId
           && sale.attendantId == row.response.body.attendantId == row.request.attendantId
           && sale.total == row.response.body.total == Money.Sum(Lines(row.response.body.items)))
  }

  ghost predicate Keyed(t: Store, id: SaleId) {
    exists key :: key in t.keys && t.keys[key].saleId == id
  }

  ghost predicate Bijection(t: Store) {
    && (forall key :: key in t.keys ==> Corresponds(t, key))
    && (forall k, l :: k in t.keys && l in t.keys && t.keys[k].saleId == t.keys[l].saleId ==> k == l)
    && (forall id :: id in t.sales ==> Keyed(t, id))
    && t.items.Keys == t.sales.Keys
  }

  // Every answer is a refusal, or what the register says to that request.
  ghost predicate AnswersFit(w: Shop) {
    forall a :: a in w.said ==>
      || Refused(a)
      || (KeyOf(a.call) in w.store.keys && a.answer == Answer(w.store.keys[KeyOf(a.call)], a.call.request))
  }

  ghost predicate ShopInv(w: Shop) {
    Bijection(w.store) && IsRegister(w) && AnswersFit(w)
  }

  ghost predicate KeysKept(a: Shop, b: Shop) {
    && (forall key :: key in a.store.keys ==> key in b.store.keys && b.store.keys[key] == a.store.keys[key])
    && a.said <= b.said
  }

  lemma BijectionStep(v: Shop, w: Shop, s: SaleStep)
    requires Bijection(w.store) && SaleEnabled(v, w, s)
    ensures Bijection(ShopAfter(v, w, s).store)
  {
    hide Draft, Priced, PricedRight, Lines, Money.Sum, Keyed;
    var t, t' := w.store, ShopAfter(v, w, s).store;
    match s
    case Replayed(_) =>
    case TurnedDown(_, _, _, _) =>
    case SaleTouched(id, sale) =>
      forall key | key in t'.keys ensures Corresponds(t', key) { assert Corresponds(t, key); }
      forall other | other in t'.sales ensures Keyed(t', other) { StillKeyed(t, t', other); }
    case Attempted(call, catalog, saleId, now, _) =>
      if KeyOf(call) !in t.keys {
        DraftIsPriced(catalog, call.request, saleId, now);
        TotalOf(catalog, call.request, Draft(catalog, call.request, saleId, now).value);
        InsertedCorrespond(t, KeyOf(call), call.request, Draft(catalog, call.request, saleId, now).value);
      }
  }

  lemma StillKeyed(t: Store, t': Store, id: SaleId)
    requires Keyed(t, id) && t'.keys == t.keys
    ensures Keyed(t', id)
  {
  }

  lemma TotalOf(catalog: Catalog, r: Request, b: Body)
    requires PricedRight(catalog, r, b)
    ensures b.total == Money.Sum(Lines(b.items))
  {
  }

  lemma InsertedCorrespond(t: Store, key: SaleKey, r: Request, b: Body)
    requires Bijection(t) && key !in t.keys && b.saleId !in t.sales
    requires b.tenantId == r.tenantId == key.tenantId && b.attendantId == r.attendantId && b.total == Money.Sum(Lines(b.items))
    ensures Bijection(InsertSale(t, key, r, b))
  {
    hide Lines, Money.Sum, Keyed;
    var t' := InsertSale(t, key, r, b);
    assert Corresponds(t', key);
    forall k | k in t.keys ensures Corresponds(t', k) && t.keys[k].saleId != b.saleId {
      StillCorresponds(t, t', k, b.saleId);
    }
    hide Corresponds;
    forall id | id in t'.sales ensures Keyed(t', id) { InsertedKeyed(t, key, r, b, id); }
  }

  lemma InsertedKeyed(t: Store, key: SaleKey, r: Request, b: Body, id: SaleId)
    requires key !in t.keys && (id == b.saleId || Keyed(t, id))
    ensures Keyed(InsertSale(t, key, r, b), id)
  {
    var t' := InsertSale(t, key, r, b);
    if id == b.saleId {
      assert t'.keys[key].saleId == id;
    } else {
      var k :| k in t.keys && t.keys[k].saleId == id;
      assert t'.keys[k].saleId == id;
    }
  }

  lemma StillCorresponds(t: Store, t': Store, key: SaleKey, id: SaleId)
    requires Corresponds(t, key) && id !in t.sales && key in t'.keys && t'.keys[key] == t.keys[key]
    requires forall other :: other in t.sales && other != id ==> other in t'.sales && t'.sales[other] == t.sales[other]
    requires forall other :: other in t.items && other != id ==> other in t'.items && t'.items[other] == t.items[other]
    ensures Corresponds(t', key) && t.keys[key].saleId != id
  {
    hide Lines, Money.Sum;
  }

  lemma RegisterStep(v: Shop, w: Shop, s: SaleStep)
    requires IsRegister(w) && SaleEnabled(v, w, s)
    ensures IsRegister(ShopAfter(v, w, s))
  {
    hide Draft, Priced;
    var w' := ShopAfter(v, w, s);
    if s.Attempted? {
      DraftIsPriced(s.catalog, s.call.request, s.saleId, s.now);
      assert w'.writes[..|w.writes|] == w.writes;
    }
  }

  lemma AnswersStep(v: Shop, w: Shop, s: SaleStep)
    requires AnswersFit(w) && SaleEnabled(v, w, s) && KeysKept(v, w)
    ensures AnswersFit(ShopAfter(v, w, s)) && KeysKept(w, ShopAfter(v, w, s))
  {
    hide Draft, Priced;
  }

  ghost predicate ShopsHold(run: seq<Shop>, n: nat) {
    && n <= |run|
    && (forall i :: 0 <= i < n ==> ShopInv(run[i]))
    && (forall i, j :: 0 <= i <= j < n ==> KeysKept(run[i], run[j]))
  }

  lemma {:induction false} SaleRunKeeps(run: seq<Shop>, acts: seq<SaleAct>, n: nat)
    requires IsSaleRun(run, acts) && 1 <= n <= |run|
    ensures ShopsHold(run, n)
  {
    hide ShopAfter, SaleEnabled, Bijection, IsRegister, AnswersFit;
    if n == 1 {
      ShopStarts(run[0]);
    } else {
      SaleRunKeeps(run, acts, n - 1);
      var a := acts[n - 2];
      BijectionStep(run[a.v], run[n - 2], a.step);
      RegisterStep(run[a.v], run[n - 2], a.step);
      AnswersStep(run[a.v], run[n - 2], a.step);
    }
  }

  lemma ShopStarts(w: Shop)
    requires w == Shop(Store(map[], map[], map[]), [], {})
    ensures ShopInv(w)
  {
  }

  // ---------------------------------------------------------------- the guarantee

  /** Sales and key rows correspond one to one, whatever raced or crashed. */
  lemma SalesMatchKeys(run: seq<Shop>, acts: seq<SaleAct>, i: nat, id: SaleId)
    requires IsSaleRun(run, acts) && i < |run|
    ensures var t := run[i].store;
      && (id in t.sales <==> Keyed(t, id))
      && (forall k, l :: k in t.keys && l in t.keys && t.keys[k].saleId == id && t.keys[l].saleId == id ==> k == l)
      && (forall key :: key in t.keys && t.keys[key].saleId == id ==>
            id in t.items && t.sales[id].total == Money.Sum(Lines(t.items[id])) && t.sales[id].tenantId == key.tenantId)
  {
    SaleRunKeeps(run, acts, i + 1);
    assert ShopInv(run[i]);
    var t := run[i].store;
    forall key | key in t.keys && t.keys[key].saleId == id
      ensures id in t.sales && id in t.items && t.sales[id].tenantId == key.tenantId
      ensures t.sales[id].total == Money.Sum(Lines(t.items[id]))
    {
      assert Corresponds(t, key);
    }
  }

  /**
    * createSale is a first-writer-wins register: the stored rows are the first writes, and any call ever
    * answered, unless it was refused for what it asked, succeeded with the one stored response if its
    * request is the stored one, and otherwise got a conflict.
    */
  lemma FirstWriterWins(run: seq<Shop>, acts: seq<SaleAct>, i: nat, j: nat, a: Said)
    requires IsSaleRun(run, acts) && i <= j < |run| && a in run[i].said
    ensures Refused(a) || Register(run[j].writes, KeyOf(a.call)).Some?
    ensures Refused(a) ||
      var row := Register(run[j].writes, KeyOf(a.call)).value;
      && (a.call.request == row.request <==> a.answer == Ok(row.response))
      && (a.call.request != row.request <==> a.answer == Err(Conflict))
  {
    SaleRunKeeps(run, acts, j + 1);
    assert ShopInv(run[j]) && KeysKept(run[i], run[j]);
  }

  /** So two successes under one key are the same response to the same request. */
  lemma OneResponsePerKey(run: seq<Shop>, acts: seq<SaleAct>, i: nat, a: Said, b: Said)
    requires IsSaleRun(run, acts) && i < |run| && a in run[i].said && b in run[i].said && KeyOf(a.call) == KeyOf(b.call)
    ensures a.answer.Ok? && b.answer.Ok? ==> a.answer == b.answer && a.call == b.call
    ensures a.answer.Ok? && b.call.request != a.call.request ==> Refused(b) || b.answer == Err(Conflict)
  {
    FirstWriterWins(run, acts, i, i, a);
    FirstWriterWins(run, acts, i, i, b);
  }

  /** A transaction that loses its race, or fails for any other reason, leaves no row at all. */
  lemma LosersLeaveNothing(seen: Store, t: Store, catalog: Catalog, c: Call, saleId: SaleId, now: Instant)
    ensures var (t', answer) := CreateSale(seen, t, catalog, c, saleId, now);
      && (KeyOf(c) in t.keys || answer.Err? ==> t' == t)
      && (t' != t ==> t'.sales == t.sales[saleId := Sale(
            c.request.tenantId, c.request.attendantId, answer.value.body.total, Unpaid, None, None)])
      && (t' != t ==>
            KeyOf(c) !in t.keys && answer.Ok? && t'.keys == t.keys[KeyOf(c) := KeyRow(c.request, saleId, answer.value)])
  {
    if Draft(catalog, c.request, saleId, now).Ok? {
      DraftIsPriced(catalog, c.request, saleId, now);
    }
  }
}
