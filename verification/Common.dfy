/** Small shared vocabulary: optional values, results, and the atoms that stand for identifiers. */
module Common {
  datatype Option<+T> = None | Some(value: T)

  datatype Result<+T, +E> = Ok(value: T) | Err(error: E)

  // Identifiers are atoms: only equality matters.
  type ChargeId = nat
  type SaleId = nat
  type TenantId = nat
  type AttendantId = nat
  type Phone = nat
  type Reference = nat  // a CheckoutRequestID

  // Instants are milliseconds since the epoch.
  type Instant = int

  const MINUTE: int := 60_000

  function Min(a: int, b: int): int {
    if a <= b then a else b
  }

  function GetOr<T>(o: Option<T>, default: T): T {
    if o.Some? then o.value else default
  }

  // The numbers from lo up to hi.
  function Range(lo: nat, hi: nat): (r: set<nat>)
    requires lo <= hi
    ensures |r| == hi - lo && forall i: nat :: i in r <==> lo <= i < hi
    decreases hi
  {
    if lo < hi then Range(lo, hi - 1) + {hi - 1} else {}
  }

  lemma {:induction false} SubsetSize<T>(s: set<T>, t: set<T>)
    requires s <= t
    ensures |s| <= |t|
    decreases t
  {
    if x :| x in s { SubsetSize(s - {x}, t - {x}); }
  }
}
