/**
  * What a reconcile pass nobody interrupts does to each charge of its batch, and what its summary counts:
  * both by what Daraja replied for the charge.
  */
module PassOutcomes {
  import opened Common
  import opened Charges
  import opened ChargeInvariants
  import opened ProtocolInvariants
  import opened Reconciler
  import opened Outcomes

  /** What a look at an open charge should come to. */
  function Expected(row: Charge, ask: Reference -> QueryReply): Look {
    match row.reference
    case None => Unqueryable
    case Some(r) =>
      match ask(r)
      case Unreachable => QueryError
      case StillProcessing => StillPending
      case Complete(code) => if code == 0 then ResolvedPaid else ResolvedFailed
  }

  // A complete answer decides the charge, PAID exactly for 0; any other reply only counts the look.
  ghost predicate LookedAt(c: Charge, d: Charge, ask: Reference -> QueryReply, now: Instant) {
    && d.facts == c.facts && d.reference == c.reference && d.hold.None? && d.reconcileAttempts == c.reconcileAttempts + 1
    && match Expected(c, ask)
       case ResolvedPaid =>
         d.status == Paid && d.resolvedBy == Some(ByQuery) && d.resultCode == Some(0) && d.paidAt == Some(now)
       case ResolvedFailed =>
         d.status == Failed && d.resolvedBy == Some(ByQuery)
         && d.resultCode.Some? && ask(c.reference.value) == Complete(d.resultCode.value)
       case _ => d == c.(reconcileAttempts := c.reconcileAttempts + 1)
  }

  lemma OneLook(t: Tables, id: ChargeId, ask: Reference -> QueryReply, now: Instant)
    requires Sound(t) && Open(t, id)
    ensures var row := t.charges[id];
      var (t', look) := Examine(t, id, row, Ask(row, ask), now);
      && Sound(t') && id in t'.charges && t'.charges == t.charges[id := t'.charges[id]]
      && look == Expected(row, ask) && LookedAt(row, t'.charges[id], ask, now)
  {
    var row := t.charges[id];
    hide Sound, LookedAt, Examine, Expected;
    if row.reference.Some? && ask(row.reference.value).Complete? {
      AnsweredLook(t, id, ask, now);
    } else {
      CountedLook(t, id, ask, now);
    }
  }

  lemma CountedLook(t: Tables, id: ChargeId, ask: Reference -> QueryReply, now: Instant)
    requires Sound(t) && Open(t, id)
    requires t.charges[id].reference.Some? ==> !ask(t.charges[id].reference.value).Complete?
    ensures var row := t.charges[id];
      var (t', look) := Examine(t, id, row, Ask(row, ask), now);
      && Sound(t') && id in t'.charges && t'.charges == t.charges[id := t'.charges[id]]
      && look == Expected(row, ask) && LookedAt(row, t'.charges[id], ask, now)
  {
    hide QueryTx, Sound, Evolves;
    CountAttemptKeeps(t, id);
  }

  lemma AnsweredLook(t: Tables, id: ChargeId, ask: Reference -> QueryReply, now: Instant)
    requires Sound(t) && Open(t, id) && t.charges[id].reference.Some? && ask(t.charges[id].reference.value).Complete?
    ensures var row := t.charges[id];
      var (t', look) := Examine(t, id, row, Ask(row, ask), now);
      && Sound(t') && id in t'.charges && t'.charges == t.charges[id := t'.charges[id]]
      && look == Expected(row, ask) && LookedAt(row, t'.charges[id], ask, now)
  {
    var row := t.charges[id];
    var code := ask(row.reference.value).result;
    SameKeeps(t);
    hide QueryTx, Sound, Evolves;
    QueryKeeps(t, t, t, id, code, now);
    QueryOutcome(t, t, id, code, now);
  }

  lemma Members(t: Tables, ids: seq<ChargeId>, cutoff: Instant, size: nat, maxAttempts: nat)
    requires IsBatch(t, cutoff, maxAttempts, size, ids)
    ensures forall i :: 0 <= i < |ids| ==> Open(t, ids[i]) && t.charges[ids[i]].reconcileAttempts < maxAttempts
    ensures forall i, j :: 0 <= i < j < |ids| ==> ids[i] != ids[j]
  {
    forall i | 0 <= i < |ids| ensures Open(t, ids[i]) && t.charges[ids[i]].reconcileAttempts < maxAttempts {
      assert Eligible(t, ids[i], cutoff, maxAttempts);
    }
  }

  lemma GaveUp(c: Charge, ask: Reference -> QueryReply, maxAttempts: nat)
    requires c.reconcileAttempts < maxAttempts
    ensures Exhausted(c, Ask(c, ask), maxAttempts)
      <==> c.reconcileAttempts == maxAttempts - 1 && Expected(c, ask) in {Unqueryable, StillPending}
  {
  }

  /** After the first n looks: the charges looked at are as their replies make them, all others as they were. */
  lemma {:induction false} PassOutcome(t: Tables, ids: seq<ChargeId>, n: nat, ask: Reference -> QueryReply,
                                       cutoff: Instant, size: nat, maxAttempts: nat, now: Instant)
    requires Sound(t) && IsBatch(t, cutoff, maxAttempts, size, ids) && n <= |ids|
    ensures var t' := Pass(t, ids, n, ask, maxAttempts, now).0;
      && Sound(t') && t'.charges.Keys == t.charges.Keys
      && (forall i :: 0 <= i < n ==> LookedAt(t.charges[ids[i]], t'.charges[ids[i]], ask, now))
      && (forall id :: id in t.charges && id !in ids[..n] ==> t'.charges[id] == t.charges[id])
  {
    hide Sound, LookedAt, Examine, Ask, Expected, IsBatch;
    Members(t, ids, cutoff, size, maxAttempts);
    if n > 0 {
      PassOutcome(t, ids, n - 1, ask, cutoff, size, maxAttempts, now);
      var before := Pass(t, ids, n - 1, ask, maxAttempts, now).0;
      var id := ids[n - 1];
      assert id !in ids[..n - 1];
      OneLook(before, id, ask, now);
      assert ids[..n] == ids[..n - 1] + [id];
    }
  }

  // How many of the first n looks should come to this.
  function Times(t: Tables, ids: seq<ChargeId>, n: nat, ask: Reference -> QueryReply, look: Look): nat
    requires n <= |ids| && forall i :: 0 <= i < |ids| ==> ids[i] in t.charges
  {
    if n == 0 then 0
    else Times(t, ids, n - 1, ask, look) + if Expected(t.charges[ids[n - 1]], ask) == look then 1 else 0
  }

  // How many of them leave the charge to a human: its last attempt, spent on no reference or no result yet.
  function GivenUp(t: Tables, ids: seq<ChargeId>, n: nat, ask: Reference -> QueryReply, maxAttempts: nat): nat
    requires n <= |ids| && forall i :: 0 <= i < |ids| ==> ids[i] in t.charges
  {
    if n == 0 then 0
    else
      var c := t.charges[ids[n - 1]];
      GivenUp(t, ids, n - 1, ask, maxAttempts)
      + if c.reconcileAttempts == maxAttempts - 1 && Expected(c, ask) in {Unqueryable, StillPending} then 1 else 0
  }

  function Counted(t: Tables, ids: seq<ChargeId>, n: nat, ask: Reference -> QueryReply, maxAttempts: nat): Summary
    requires n <= |ids| && forall i :: 0 <= i < |ids| ==> ids[i] in t.charges
  {
    Summary(
      examined := n,
      resolvedPaid := Times(t, ids, n, ask, ResolvedPaid),
      resolvedFailed := Times(t, ids, n, ask, ResolvedFailed),
      stillPending := Times(t, ids, n, ask, StillPending),
      unqueryable := Times(t, ids, n, ask, Unqueryable),
      needsAttention := GivenUp(t, ids, n, ask, maxAttempts),
      errors := Times(t, ids, n, ask, QueryError))
  }

  /** Every counter of the summary is the number of charges whose reply it is named for. */
  lemma {:induction false} SummaryCounts(t: Tables, ids: seq<ChargeId>, n: nat, ask: Reference -> QueryReply,
                                         cutoff: Instant, size: nat, maxAttempts: nat, now: Instant)
    requires Sound(t) && IsBatch(t, cutoff, maxAttempts, size, ids) && n <= |ids|
    ensures Pass(t, ids, n, ask, maxAttempts, now).1 == Counted(t, ids, n, ask, maxAttempts)
  {
    hide Sound, LookedAt, Examine, IsBatch, Expected, Exhausted, Ask, Counted, Tally;
    Members(t, ids, cutoff, size, maxAttempts);
    if n > 0 {
      SummaryCounts(t, ids, n - 1, ask, cutoff, size, maxAttempts, now);
      PassOutcome(t, ids, n - 1, ask, cutoff, size, maxAttempts, now);
      var before := Pass(t, ids, n - 1, ask, maxAttempts, now).0;
      var id := ids[n - 1];
      assert id !in ids[..n - 1];
      OneLook(before, id, ask, now);
      GaveUp(t.charges[id], ask, maxAttempts);
      OneTally(t, ids, n, ask, maxAttempts, Pass(t, ids, n - 1, ask, maxAttempts, now).1);
    } else {
      NoTally(t, ids, ask, maxAttempts);
    }
  }

  lemma OneTally(t: Tables, ids: seq<ChargeId>, n: nat, ask: Reference -> QueryReply, maxAttempts: nat, s: Summary)
    requires 0 < n <= |ids| && forall i :: 0 <= i < |ids| ==> ids[i] in t.charges
    requires s == Counted(t, ids, n - 1, ask, maxAttempts)
    ensures var c := t.charges[ids[n - 1]];
      var givesUp := c.reconcileAttempts == maxAttempts - 1 && Expected(c, ask) in {Unqueryable, StillPending};
      Tally(s, Expected(c, ask), givesUp) == Counted(t, ids, n, ask, maxAttempts)
  {
    hide Expected;
  }

  lemma NoTally(t: Tables, ids: seq<ChargeId>, ask: Reference -> QueryReply, maxAttempts: nat)
    requires forall i :: 0 <= i < |ids| ==> ids[i] in t.charges
    ensures Counted(t, ids, 0, ask, maxAttempts) == NoneYet
  {
  }
}
