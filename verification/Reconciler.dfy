/**
  * runReconcileOnce: an oldest-first batch of open charges, each looked at once; and what one such
  * pass does to a backlog of charges nobody answers for, while newer charges keep arriving.
  */
module Reconciler {
  import opened Common
  import opened Charges
  import opened ChargeInvariants

  // ---------------------------------------------------------------- one pass

  predicate Waiting(t: Tables, id: ChargeId, maxAttempts: nat) {
    Open(t, id) && t.charges[id].reconcileAttempts < maxAttempts
  }

  predicate Eligible(t: Tables, id: ChargeId, cutoff: Instant, maxAttempts: nat) {
    Waiting(t, id, maxAttempts) && t.charges[id].facts.createdAt <= cutoff
  }

  // SELECT ... ORDER BY created_at LIMIT size
  ghost predicate IsBatch(t: Tables, cutoff: Instant, maxAttempts: nat, size: nat, ids: seq<ChargeId>) {
    && |ids| <= size
    && (forall i :: 0 <= i < |ids| ==> Eligible(t, ids[i], cutoff, maxAttempts))
    && (forall i, j :: 0 <= i < j < |ids| ==>
          ids[i] != ids[j] && t.charges[ids[i]].facts.createdAt <= t.charges[ids[j]].facts.createdAt)
    && (forall id :: Eligible(t, id, cutoff, maxAttempts) && id !in ids ==>
          |ids| == size && forall i :: 0 <= i < |ids| ==>
            t.charges[ids[i]].facts.createdAt <= t.charges[id].facts.createdAt)
  }

  datatype Look = Unqueryable | QueryError | StillPending | ResolvedPaid | ResolvedFailed

  datatype Summary = Summary(
    examined: nat, resolvedPaid: nat, resolvedFailed: nat, stillPending: nat,
    unqueryable: nat, needsAttention: nat, errors: nat)

  const NoneYet := Summary(0, 0, 0, 0, 0, 0, 0)

  function Tally(s: Summary, look: Look, exhausted: bool): Summary {
    var n := s.(examined := s.examined + 1, needsAttention := s.needsAttention + if exhausted then 1 else 0);
    match look
    case Unqueryable => n.(unqueryable := n.unqueryable + 1)
    case QueryError => n.(errors := n.errors + 1)
    case StillPending => n.(stillPending := n.stillPending + 1)
    case ResolvedPaid => n.(resolvedPaid := n.resolvedPaid + 1)
    case ResolvedFailed => n.(resolvedFailed := n.resolvedFailed + 1)
  }

  /** One iteration for a row as the candidate query read it; in Sound tables the last case never happens. */
  function Examine(t: Tables, id: ChargeId, row: Charge, reply: QueryReply, now: Instant): (Tables, Look) {
    if row.reference.None? then (CountAttempt(t, id), Unqueryable)
    else
      match reply
      case Unreachable => (CountAttempt(t, id), QueryError)
      case StillProcessing => (CountAttempt(t, id), StillPending)
      case Complete(code) =>
        match QueryTx(t, t, id, code, now)
        case Committed(t', true) => (t', if code == SUCCESS then ResolvedPaid else ResolvedFailed)
        case Committed(t', false) => (t', StillPending)
        case Aborted => (t, StillPending)
  }

  function Ask(row: Charge, ask: Reference -> QueryReply): QueryReply {
    if row.reference.Some? then ask(row.reference.value) else Unreachable
  }

  // A charge without a reference or still being processed raises an alert at its last look.
  predicate Exhausted(row: Charge, reply: QueryReply, maxAttempts: nat) {
    row.reconcileAttempts + 1 >= maxAttempts && (row.reference.None? || reply.StillProcessing?)
  }

  /** The first n rows of a batch read from `t`. */
  function Pass(t: Tables, ids: seq<ChargeId>, n: nat, ask: Reference -> QueryReply, maxAttempts: nat, now: Instant)
    : (Tables, Summary)
    requires n <= |ids| && forall i :: 0 <= i < |ids| ==> ids[i] in t.charges
  {
    if n == 0 then (t, NoneYet)
    else
      var (before, summary) := Pass(t, ids, n - 1, ask, maxAttempts, now);
      var id := ids[n - 1];
      var row := t.charges[id];
      var reply := Ask(row, ask);
      var (after, look) := Examine(before, id, row, reply, now);
      (after, Tally(summary, look, Exhausted(row, reply, maxAttempts)))
  }

  /** Every examined charge is accounted for exactly once. */
  lemma {:induction false} CountersAddUp(t: Tables, ids: seq<ChargeId>, n: nat, ask: Reference -> QueryReply,
                                         maxAttempts: nat, now: Instant)
    requires n <= |ids| && forall i :: 0 <= i < |ids| ==> ids[i] in t.charges
    ensures var s := Pass(t, ids, n, ask, maxAttempts, now).1;
      && s.examined == n
      && s.examined == s.unqueryable + s.errors + s.stillPending + s.resolvedPaid + s.resolvedFailed
      && s.needsAttention <= s.unqueryable + s.stillPending
  {
    if n > 0 { CountersAddUp(t, ids, n - 1, ask, maxAttempts, now); }
  }

  // ---------------------------------------------------------------- a provider that never answers

  ghost predicate Silent(ask: Reference -> QueryReply) {
    forall r :: !ask(r).Complete?
  }

  function CountAll(t: Tables, ids: seq<ChargeId>): Tables {
    if ids == [] then t else CountAttempt(CountAll(t, ids[..|ids| - 1]), ids[|ids| - 1])
  }

  lemma {:induction false} SilentPassOnlyCounts(t: Tables, ids: seq<ChargeId>, n: nat, ask: Reference -> QueryReply,
                                                maxAttempts: nat, now: Instant)
    requires n <= |ids| && Silent(ask) && forall i :: 0 <= i < |ids| ==> ids[i] in t.charges
    ensures Pass(t, ids, n, ask, maxAttempts, now).0 == CountAll(t, ids[..n])
  {
    if n > 0 {
      SilentPassOnlyCounts(t, ids, n - 1, ask, maxAttempts, now);
      assert ids[..n][..n - 1] == ids[..n - 1];
    }
  }

  lemma {:induction false} CountedOnce(t: Tables, ids: seq<ChargeId>, id: ChargeId)
    requires forall i, j :: 0 <= i < j < |ids| ==> ids[i] != ids[j]
    ensures CountAll(t, ids).charges.Keys == t.charges.Keys
    ensures id in t.charges ==>
      CountAll(t, ids).charges[id] == t.charges[id].(
        reconcileAttempts := t.charges[id].reconcileAttempts + if id in ids then 1 else 0)
  {
    if ids != [] {
      var init := ids[..|ids| - 1];
      CountedOnce(t, init, id);
      assert ids == init + [ids[|ids| - 1]];
      assert ids[|ids| - 1] !in init;
    }
  }

  /** A pass the provider does not answer gives every charge of its batch one attempt, and does nothing else. */
  lemma SilentPassCounts(t: Tables, ids: seq<ChargeId>, ask: Reference -> QueryReply, maxAttempts: nat, now: Instant,
                         cutoff: Instant, size: nat, id: ChargeId)
    requires IsBatch(t, cutoff, maxAttempts, size, ids) && Silent(ask)
    ensures var t' := Pass(t, ids, |ids|, ask, maxAttempts, now).0;
      && t'.charges.Keys == t.charges.Keys
      && (id in t.charges ==> t'.charges[id] == t.charges[id].(
            reconcileAttempts := t.charges[id].reconcileAttempts + if id in ids then 1 else 0))
  {
    SilentPassOnlyCounts(t, ids, |ids|, ask, maxAttempts, now);
    assert ids[..|ids|] == ids;
    CountedOnce(t, ids, id);
  }

  // ---------------------------------------------------------------- the backlog

  // What q full rounds of maxAttempts passes and r passes of the next owe: the first q blocks of `size`
  // charges all their attempts, the block in progress r of them.
  function AttemptsAfter(i: nat, size: nat, maxAttempts: nat, q: nat, r: nat): nat {
    if i < q * size then maxAttempts else if i < (q + 1) * size then r else 0
  }

  ghost predicate ByAge(t: Tables, order: seq<ChargeId>) {
    && (forall i :: 0 <= i < |order| ==> order[i] in t.charges)
    && (forall i, j :: 0 <= i < j < |order| ==> t.charges[order[i]].facts.createdAt < t.charges[order[j]].facts.createdAt)
  }

  // `order` is a backlog up to the instant `newest`: whatever else waits was created after it.
  ghost predicate NoOlder(t: Tables, order: seq<ChargeId>, newest: Instant, maxAttempts: nat) {
    && (forall i :: 0 <= i < |order| ==> order[i] in t.charges && t.charges[order[i]].facts.createdAt <= newest)
    && (forall id :: Waiting(t, id, maxAttempts) && t.charges[id].facts.createdAt <= newest ==> id in order)
  }

  // Nobody has had fewer attempts than that; some may be ahead.
  ghost predicate Backlog(t: Tables, order: seq<ChargeId>, newest: Instant, size: nat, maxAttempts: nat, q: nat, r: nat) {
    && ByAge(t, order) && NoOlder(t, order, newest, maxAttempts) && r < maxAttempts
    && (forall i :: 0 <= i < |order| ==>
          Open(t, order[i]) && t.charges[order[i]].reconcileAttempts >= AttemptsAfter(i, size, maxAttempts, q, r))
  }

  /** Distinct members of a sequence are no more than it is long. */
  lemma {:induction false} Pigeonhole(ids: seq<ChargeId>, room: seq<ChargeId>)
    requires forall i, j :: 0 <= i < j < |ids| ==> ids[i] != ids[j]
    requires forall i :: 0 <= i < |ids| ==> ids[i] in room
    ensures |ids| <= |room|
  {
    if ids != [] {
      var n := |ids| - 1;
      var k :| 0 <= k < |room| && room[k] == ids[n];
      assert room == room[..k] + [room[k]] + room[k + 1..];
      Pigeonhole(ids[..n], room[..k] + room[k + 1..]);
    }
  }

  /** Whatever still waits of the backlog and is no newer than order[i] lies between the exhausted blocks and i. */
  lemma WaitsBefore(t: Tables, order: seq<ChargeId>, newest: Instant, size: nat, maxAttempts: nat, q: nat, r: nat,
                    i: nat, id: ChargeId)
    requires Backlog(t, order, newest, size, maxAttempts, q, r) && q * size <= i < |order|
    requires Waiting(t, id, maxAttempts) && id != order[i]
    requires t.charges[id].facts.createdAt <= t.charges[order[i]].facts.createdAt
    ensures id in order[q * size..i]
  {
    var k :| 0 <= k < |order| && order[k] == id;
    assert q * size <= k < i;
    assert order[q * size..i][k - q * size] == id;
  }

  /** However far ahead some are: what still waits of the block that is due, or of those before it, is in the batch. */
  lemma BlockInBatch(t: Tables, order: seq<ChargeId>, newest: Instant, size: nat, maxAttempts: nat, q: nat, r: nat,
                     cutoff: Instant, ids: seq<ChargeId>, i: nat)
    requires Backlog(t, order, newest, size, maxAttempts, q, r) && IsBatch(t, cutoff, maxAttempts, size, ids)
    requires newest <= cutoff && i < |order| && i < (q + 1) * size && Waiting(t, order[i], maxAttempts)
    ensures order[i] in ids
  {
    if order[i] !in ids {
      assert Eligible(t, order[i], cutoff, maxAttempts);
      assert q * size <= i && (q + 1) * size == q * size + size;
      forall m | 0 <= m < |ids| ensures ids[m] in order[q * size..i] {
        assert Eligible(t, ids[m], cutoff, maxAttempts);
        WaitsBefore(t, order, newest, size, maxAttempts, q, r, i, ids[m]);
      }
      Pigeonhole(ids, order[q * size..i]);
    }
  }

  /** A newer charge is in a batch only together with all of the backlog that waits. */
  lemma NewerComesLast(t: Tables, order: seq<ChargeId>, newest: Instant, size: nat, maxAttempts: nat,
                       cutoff: Instant, ids: seq<ChargeId>, id: ChargeId, i: nat)
    requires NoOlder(t, order, newest, maxAttempts) && IsBatch(t, cutoff, maxAttempts, size, ids) && newest <= cutoff
    requires id in ids && id !in order && i < |order|
    ensures order[i] in ids <==> Waiting(t, order[i], maxAttempts)
  {
    var m :| 0 <= m < |ids| && ids[m] == id;
    assert Eligible(t, ids[m], cutoff, maxAttempts) && t.charges[id].facts.createdAt > newest;
    assert Waiting(t, order[i], maxAttempts) ==> Eligible(t, order[i], cutoff, maxAttempts);
  }

  // From t to t' the charges of the backlog stay open, lose no attempt, and those of `looked` gain one.
  ghost predicate Advances(t: Tables, t': Tables, order: seq<ChargeId>, looked: seq<ChargeId>) {
    forall i :: 0 <= i < |order| ==>
      && Open(t, order[i]) && Open(t', order[i]) && t'.charges[order[i]].facts == t.charges[order[i]].facts
      && t'.charges[order[i]].reconcileAttempts
           >= t.charges[order[i]].reconcileAttempts + if order[i] in looked then 1 else 0
  }

  /** A pass that looks at its whole batch moves the backlog on by one attempt of the block that is due. */
  lemma BacklogPass(t: Tables, t': Tables, order: seq<ChargeId>, newest: Instant, size: nat, maxAttempts: nat, q: nat, r: nat,
                    cutoff: Instant, ids: seq<ChargeId>)
    requires Backlog(t, order, newest, size, maxAttempts, q, r) && IsBatch(t, cutoff, maxAttempts, size, ids)
    requires newest <= cutoff && Advances(t, t', order, ids) && NoOlder(t', order, newest, maxAttempts)
    ensures if r + 1 == maxAttempts then Backlog(t', order, newest, size, maxAttempts, q + 1, 0)
      else Backlog(t', order, newest, size, maxAttempts, q, r + 1)
  {
    assert (q + 1) * size == q * size + size && (q + 2) * size == (q + 1) * size + size;
    forall i | 0 <= i < |order| && i < (q + 1) * size && Waiting(t, order[i], maxAttempts) ensures order[i] in ids {
      BlockInBatch(t, order, newest, size, maxAttempts, q, r, cutoff, ids, i);
    }
    hide IsBatch, NoOlder;
  }

  // ---------------------------------------------------------------- ties

  function Aged(saleId: SaleId, attempts: nat): Charge {
    NewCharge(Facts(saleId, 0, 100, 0, 0)).(reconcileAttempts := attempts)
  }

  // Four charges created at the same instant, by their attempts.
  function Tied(a: nat, b: nat, c: nat, d: nat): Tables {
    Empty.(born := map[1 := Aged(1, 0).facts, 2 := Aged(2, 0).facts, 3 := Aged(3, 0).facts, 4 := Aged(4, 0).facts],
      charges := map[1 := Aged(1, a), 2 := Aged(2, b), 3 := Aged(3, c), 4 := Aged(4, d)])
  }

  function Bump(attempts: nat, hit: bool): nat {
    if hit then attempts + 1 else attempts
  }

  lemma TiedCount(a: nat, b: nat, c: nat, d: nat, k: ChargeId)
    requires 1 <= k <= 4
    ensures CountAttempt(Tied(a, b, c, d), k) == Tied(Bump(a, k == 1), Bump(b, k == 2), Bump(c, k == 3), Bump(d, k == 4))
  {
    assert CountAttempt(Tied(a, b, c, d), k).charges
      == Tied(Bump(a, k == 1), Bump(b, k == 2), Bump(c, k == 3), Bump(d, k == 4)).charges;
  }

  lemma TiedBatch(a: nat, b: nat, c: nat, d: nat, i: ChargeId, j: ChargeId)
    requires 1 <= i < j <= 4 && Waiting(Tied(a, b, c, d), i, 2) && Waiting(Tied(a, b, c, d), j, 2)
    ensures IsBatch(Tied(a, b, c, d), 0, 2, 2, [i, j])
  {
  }

  /** Any two of them that wait are a batch of two, and a pass counts one attempt for each. */
  lemma TiedPair(a: nat, b: nat, c: nat, d: nat, i: ChargeId, j: ChargeId)
    requires 1 <= i < j <= 4 && Waiting(Tied(a, b, c, d), i, 2) && Waiting(Tied(a, b, c, d), j, 2)
    ensures IsBatch(Tied(a, b, c, d), 0, 2, 2, [i, j])
    ensures CountAll(Tied(a, b, c, d), [i, j]) == Tied(
      Bump(a, i == 1), Bump(Bump(b, i == 2), j == 2), Bump(Bump(c, i == 3), j == 3), Bump(d, j == 4))
  {
    TiedBatch(a, b, c, d, i, j);
    CountPair(Tied(a, b, c, d), i, j);
    TiedCount(a, b, c, d, i);
    TiedCount(Bump(a, i == 1), Bump(b, i == 2), Bump(c, i == 3), Bump(d, i == 4), j);
    hide IsBatch, CountAttempt, CountAll, Tied, Waiting;
  }

  lemma CountPair(t: Tables, i: ChargeId, j: ChargeId)
    ensures CountAll(t, [i, j]) == CountAttempt(CountAttempt(t, i), j)
  {
    assert [i, j][..1] == [i] && [i][..0] == [];
    assert CountAll(t, [i]) == CountAttempt(CountAll(t, []), i);
  }

  /**
    * The order of age must be strict: ORDER BY created_at leaves ties open, and with a batch of two and two
    * attempts each, four passes need not exhaust four charges of one instant.
    */
  lemma TiesCanDelay()
    ensures IsBatch(Tied(0, 0, 0, 0), 0, 2, 2, [1, 2]) && CountAll(Tied(0, 0, 0, 0), [1, 2]) == Tied(1, 1, 0, 0)
    ensures IsBatch(Tied(1, 1, 0, 0), 0, 2, 2, [1, 3]) && CountAll(Tied(1, 1, 0, 0), [1, 3]) == Tied(2, 1, 1, 0)
    ensures IsBatch(Tied(2, 1, 1, 0), 0, 2, 2, [2, 3]) && CountAll(Tied(2, 1, 1, 0), [2, 3]) == Tied(2, 2, 2, 0)
    ensures IsBatch(Tied(2, 2, 2, 0), 0, 2, 2, [4]) && CountAll(Tied(2, 2, 2, 0), [4]) == Tied(2, 2, 2, 1)
    ensures Waiting(Tied(2, 2, 2, 1), 4, 2)
  {
    hide IsBatch, CountAll;
    TiedPair(0, 0, 0, 0, 1, 2);
    TiedPair(1, 1, 0, 0, 1, 3);
    TiedPair(2, 1, 1, 0, 2, 3);
    LastOfTied();
  }

  lemma LastOfTied()
    ensures IsBatch(Tied(2, 2, 2, 0), 0, 2, 2, [4]) && CountAll(Tied(2, 2, 2, 0), [4]) == Tied(2, 2, 2, 1)
  {
    assert CountAll(Tied(2, 2, 2, 0), [4]) == CountAttempt(CountAll(Tied(2, 2, 2, 0), [4][..0]), 4);
    TiedCount(2, 2, 2, 0, 4);
  }

  predicate NeedsAttention(c: Charge, maxAttempts: nat) {
    c.status.Pending? && (c.hold.Some? || c.reconcileAttempts >= maxAttempts)
  }
}
