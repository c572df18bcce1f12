/**
  * Money in integer minor units. Values above 2^53 - 1 are refused, and below it a JavaScript number
  * adds and multiplies integers exactly, so the integers here are the numbers there.
  */
module Money {
  import opened Common

  const MAX_SAFE: int := 0x1F_FFFF_FFFF_FFFF
  const INT_MAX: nat := 0x7FFF_FFFF  // an INT column
  const FULL_RATE: nat := 10_000     // basis points

  datatype Fault = NotANumber | NotAnInteger | Unsafe | Negative | BadQuantity | BadRate

  // What an untyped value can be.
  datatype Value = NonNumber | Fraction | Whole(n: int)

  function ToMinorUnits(v: Value): (r: Result<nat, Fault>)
    ensures r.Ok? <==> v.Whole? && 0 <= v.n <= MAX_SAFE
    ensures r.Ok? ==> r.value == v.n
  {
    match v
    case NonNumber => Err(NotANumber)
    case Fraction => Err(NotAnInteger)
    case Whole(n) =>
      if n > MAX_SAFE || n < -MAX_SAFE then Err(Unsafe) else if n < 0 then Err(Negative) else Ok(n)
  }

  function Sum(values: seq<nat>): nat {
    if values == [] then 0 else Sum(values[..|values| - 1]) + values[|values| - 1]
  }

  /** The accumulator only grows, so a sum past the safe range is refused and any other is exact. */
  function SumMinor(values: seq<nat>): (r: Result<nat, Fault>)
    ensures r.Ok? <==> Sum(values) <= MAX_SAFE
    ensures r.Ok? ==> r.value == Sum(values)
  {
    ToMinorUnits(Whole(Sum(values)))
  }

  function LineItemTotal(unitPrice: nat, quantity: int): (r: Result<nat, Fault>)
    ensures r.Ok? <==> quantity > 0 && unitPrice * quantity <= MAX_SAFE
    ensures r.Ok? ==> r.value == unitPrice * quantity
  {
    if quantity <= 0 then Err(BadQuantity) else ToMinorUnits(Whole(unitPrice * quantity))
  }

  /** floor(total * rate / 10000), where a JavaScript product is exact: below 2^53, as it is for INT columns. */
  function CommissionForSale(total: nat, bps: int): (r: Result<nat, Fault>)
    requires 0 <= bps <= FULL_RATE ==> total * bps <= MAX_SAFE
    ensures r.Ok? <==> 0 <= bps <= FULL_RATE
    ensures r.Ok? ==> r.value * FULL_RATE <= total * bps < (r.value + 1) * FULL_RATE && r.value <= total
  {
    if bps < 0 || bps > FULL_RATE then Err(BadRate)
    else
      FloorBounds(total, bps);
      ToMinorUnits(Whole(total * bps / FULL_RATE))
  }

  lemma Scaled(a: nat, b: nat, k: nat)
    requires a <= b
    ensures k * a <= k * b
  {
  }

  lemma FloorBounds(total: nat, bps: nat)
    requires bps <= FULL_RATE
    ensures 0 <= total * bps / FULL_RATE <= total
    ensures total <= INT_MAX ==> total * bps <= MAX_SAFE
    ensures total * bps <= MAX_SAFE ==> total * bps / FULL_RATE <= MAX_SAFE
  {
    Scaled(bps, 10_000, total);
    FloorOf(total * bps, total);
  }

  lemma FloorOf(product: nat, total: nat)
    requires product <= total * 10_000
    ensures 0 <= product / FULL_RATE <= total
  {
  }

  lemma FloorsAdd(a: nat, b: nat)
    ensures a / FULL_RATE + b / FULL_RATE <= (a + b) / FULL_RATE <= a / FULL_RATE + b / FULL_RATE + 1
  {
  }

  lemma Distributes(a: nat, b: nat, k: nat)
    ensures (a + b) * k == a * k + b * k
  {
  }

  // ---------------------------------------------------------------- computeCommission

  datatype Computed = Computed(saleCount: nat, saleTotal: nat, amount: nat, payout: nat, remainder: nat)

  // Totals as the sales table holds them.
  predicate Stored(totals: seq<nat>) {
    forall i :: 0 <= i < |totals| ==> totals[i] <= INT_MAX
  }

  /** For an INT column the product is exact. */
  lemma StoredIsExact(total: nat, bps: nat)
    requires total <= INT_MAX && bps <= FULL_RATE
    ensures total * bps <= MAX_SAFE
  {
    FloorBounds(total, bps);
  }

  /** The commission for a stored total at a rate in range. */
  function StoredCommission(total: nat, bps: nat): (r: nat)
    requires total <= INT_MAX && bps <= FULL_RATE
    ensures r == total * bps / FULL_RATE
  {
    StoredIsExact(total, bps);
    CommissionForSale(total, bps).value
  }

  function PerSale(totals: seq<nat>, bps: nat): (r: seq<nat>)
    requires Stored(totals) && bps <= FULL_RATE
    ensures |r| == |totals|
  {
    seq(|totals|, i requires 0 <= i < |totals| => StoredCommission(totals[i], bps))
  }

  /** One attendant's day: every sale floored on its own, then summed, then floored to whole shillings. */
  function ComputeCommission(totals: seq<nat>, bps: int): (r: Result<Computed, Fault>)
    requires Stored(totals)
    ensures r.Ok? ==>
      && r.value.amount == r.value.payout + r.value.remainder
      && r.value.payout % 100 == 0 && r.value.remainder < 100
      && r.value.saleCount == |totals| && r.value.saleTotal == Sum(totals)
  {
    if |totals| > 0 && (bps < 0 || bps > FULL_RATE) then Err(BadRate)
    else
      var amount := if |totals| == 0 then Ok(0) else SumMinor(PerSale(totals, bps));
      var total := SumMinor(totals);
      if amount.Err? then Err(amount.error)
      else if total.Err? then Err(total.error)
      else
        var payout := amount.value / 100 * 100;
        Ok(Computed(|totals|, total.value, amount.value, payout, amount.value - payout))
  }

  /** It fails exactly when a rate is out of range for some sale, or a sum leaves the safe range. */
  lemma WhenComputeFails(totals: seq<nat>, bps: int)
    requires Stored(totals)
    ensures ComputeCommission(totals, bps).Ok? <==>
      (totals != [] ==> 0 <= bps <= FULL_RATE) && Sum(totals) <= MAX_SAFE
  {
    if totals != [] && 0 <= bps <= FULL_RATE {
      PerSaleWithin(totals, bps);
    }
  }

  lemma {:induction false} PerSaleWithin(totals: seq<nat>, bps: nat)
    requires Stored(totals) && bps <= FULL_RATE
    ensures Sum(PerSale(totals, bps)) <= Sum(totals) * bps / FULL_RATE <= Sum(totals)
  {
    var n := |totals|;
    if n > 0 {
      var front, last := totals[..n - 1], totals[n - 1];
      PerSaleWithin(front, bps);
      assert PerSale(totals, bps)[..n - 1] == PerSale(front, bps);
      Distributes(Sum(front), last, bps);
      FloorsAdd(Sum(front) * bps, last * bps);
      FloorBounds(Sum(totals), bps);
    }
  }

  lemma {:induction false} PerSaleLoses(totals: seq<nat>, bps: nat)
    requires Stored(totals) && bps <= FULL_RATE && totals != []
    ensures Sum(totals) * bps / FULL_RATE - (|totals| - 1) <= Sum(PerSale(totals, bps))
  {
    var n := |totals|;
    var front, last := totals[..n - 1], totals[n - 1];
    Distributes(Sum(front), last, bps);
    FloorsAdd(Sum(front) * bps, last * bps);
    assert PerSale(totals, bps)[..n - 1] == PerSale(front, bps);
    if n > 1 {
      PerSaleLoses(front, bps);
    } else {
      assert front == [];
    }
  }

  /** Flooring per sale costs at most one minor unit for every sale after the first. */
  lemma CommissionBounds(totals: seq<nat>, bps: int)
    requires Stored(totals) && totals != [] && ComputeCommission(totals, bps).Ok?
    ensures 0 <= bps <= FULL_RATE
    ensures var amount, once := ComputeCommission(totals, bps).value.amount, Sum(totals) * bps / FULL_RATE;
      once - (|totals| - 1) <= amount <= once <= Sum(totals)
  {
    PerSaleWithin(totals, bps);
    PerSaleLoses(totals, bps);
  }

  // ---------------------------------------------------------------- order does not matter

  lemma {:induction false} SumInsert(a: seq<nat>, x: nat, b: seq<nat>)
    ensures Sum(a + [x] + b) == Sum(a + b) + x
  {
    if b == [] {
      assert a + [x] + b == a + [x] && a + b == a;
    } else {
      var n := |b| - 1;
      SumInsert(a, x, b[..n]);
      assert (a + [x] + b)[..|a| + 1 + n] == a + [x] + b[..n];
      assert (a + b)[..|a| + n] == a + b[..n];
    }
  }

  /** The last of `s` stands somewhere in `t`; without it the rest still match. */
  lemma TakeOut(s: seq<nat>, t: seq<nat>) returns (k: nat)
    requires multiset(s) == multiset(t) && s != []
    ensures k < |t| && t[k] == s[|s| - 1]
    ensures multiset(s[..|s| - 1]) == multiset(t[..k] + t[k + 1..])
  {
    var n := |s| - 1;
    assert s == s[..n] + [s[n]];
    assert s[n] in multiset(t);
    k :| 0 <= k < |t| && t[k] == s[n];
    assert t == t[..k] + [s[n]] + t[k + 1..];
    assert multiset(s[..n]) == multiset(s) - multiset{s[n]};
    assert multiset(t[..k] + t[k + 1..]) == multiset(t) - multiset{s[n]};
  }

  lemma {:induction false} SumOrder(s: seq<nat>, t: seq<nat>)
    requires multiset(s) == multiset(t)
    ensures Sum(s) == Sum(t) && |s| == |t|
    decreases |s|
  {
    assert |multiset(s)| == |s| && |multiset(t)| == |t|;
    if s != [] {
      var k := TakeOut(s, t);
      assert t == t[..k] + [t[k]] + t[k + 1..];
      SumOrder(s[..|s| - 1], t[..k] + t[k + 1..]);
      SumInsert(t[..k], t[k], t[k + 1..]);
    }
  }

  lemma StoredParts(a: seq<nat>, x: nat, b: seq<nat>)
    requires Stored(a + [x] + b)
    ensures Stored(a) && x <= INT_MAX && Stored(b)
  {
    var s := a + [x] + b;
    assert s[|a|] == x;
    assert forall i :: 0 <= i < |a| ==> a[i] == s[i];
    assert forall i :: 0 <= i < |b| ==> b[i] == s[|a| + 1 + i];
  }

  lemma PerSaleInsert(a: seq<nat>, x: nat, b: seq<nat>, bps: nat)
    requires Stored(a + [x] + b) && Stored(a + b) && bps <= FULL_RATE
    ensures x <= INT_MAX && Sum(PerSale(a + [x] + b, bps)) == Sum(PerSale(a + b, bps)) + StoredCommission(x, bps)
  {
    StoredParts(a, x, b);
    assert PerSale(a + [x] + b, bps) == PerSale(a, bps) + [StoredCommission(x, bps)] + PerSale(b, bps);
    assert PerSale(a + b, bps) == PerSale(a, bps) + PerSale(b, bps);
    SumInsert(PerSale(a, bps), StoredCommission(x, bps), PerSale(b, bps));
  }

  lemma {:induction false} PerSaleOrder(s: seq<nat>, t: seq<nat>, bps: nat)
    requires Stored(s) && Stored(t) && bps <= FULL_RATE && multiset(s) == multiset(t)
    ensures Sum(PerSale(s, bps)) == Sum(PerSale(t, bps))
    decreases |s|
  {
    hide PerSale, Sum;
    assert |multiset(s)| == |s| && |multiset(t)| == |t|;
    if s != [] {
      var n := |s| - 1;
      var k := TakeOut(s, t);
      PerSaleOrder(s[..n], t[..k] + t[k + 1..], bps);
      PerSaleInsert(s[..n], s[n], [], bps);
      assert s[..n] + [s[n]] + [] == s && s[..n] + [] == s[..n];
      PerSaleInsert(t[..k], t[k], t[k + 1..], bps);
      assert t[..k] + [t[k]] + t[k + 1..] == t;
    } else {
      assert t == s;
    }
  }

  /** The order the sales come in changes nothing, failures included. */
  lemma CommissionIgnoresOrder(s: seq<nat>, t: seq<nat>, bps: int)
    requires Stored(s) && Stored(t) && multiset(s) == multiset(t)
    ensures ComputeCommission(s, bps).Ok? <==> ComputeCommission(t, bps).Ok?
    ensures ComputeCommission(s, bps).Ok? ==> ComputeCommission(s, bps).value == ComputeCommission(t, bps).value
  {
    SumOrder(s, t);
    WhenComputeFails(s, bps);
    WhenComputeFails(t, bps);
    if s != [] && 0 <= bps <= FULL_RATE {
      PerSaleOrder(s, t, bps);
    }
  }

  // ---------------------------------------------------------------- over a whole ledger

  predicate Split(c: Computed) {
    c.amount == c.payout + c.remainder && c.payout % 100 == 0 && c.remainder < 100
  }

  function Earned(rows: seq<Computed>): nat {
    if rows == [] then 0 else rows[0].amount + Earned(rows[1..])
  }

  function Sent(rows: seq<Computed>): nat {
    if rows == [] then 0 else rows[0].payout + Sent(rows[1..])
  }

  function LeftBehind(rows: seq<Computed>): nat {
    if rows == [] then 0 else rows[0].remainder + LeftBehind(rows[1..])
  }

  /** What is earned is what is sent plus what stays behind, and less than a shilling per row stays behind. */
  lemma {:induction false} LedgerConserves(rows: seq<Computed>)
    requires forall i :: 0 <= i < |rows| ==> Split(rows[i])
    ensures Earned(rows) == Sent(rows) + LeftBehind(rows)
    ensures Sent(rows) % 100 == 0 && LeftBehind(rows) <= 99 * |rows|
  {
    if rows != [] {
      LedgerConserves(rows[1..]);
      assert Split(rows[0]);
    }
  }
}
