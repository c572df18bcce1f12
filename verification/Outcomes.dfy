/**
  * What the transactions do, and not only what they never do: which callbacks and query answers are applied,
  * and what an applied one leaves. Each statement names the columns outright.
  */
module Outcomes {
  import opened Common
  import opened Charges
  import opened ChargeInvariants
  import opened CallbackLemmas

  // The sale.paid row of a charge paid at `at`.
  function SaleEvent(id: ChargeId, f: Facts, at: Instant): OutboxRow {
    OutboxRow(SalePaid(id, f.saleId, f.tenantId, f.amount, at), false, 0)
  }

  // One charge is decided and nothing else about any charge changes; a payment adds its own outbox row.
  ghost predicate Decided(t: Tables, t': Tables, id: ChargeId, source: Source, code: int, at: Instant) {
    && id in t.charges && t.charges[id].status.Pending? && t.charges[id].hold.None? && id in t'.charges
    && t'.charges == t.charges[id := t'.charges[id]]
    && (var c, d := t.charges[id], t'.charges[id];
        && d.facts == c.facts && d.hold.None? && d.stkAttempts == c.stkAttempts && d.pushNote == c.pushNote
        && d.resolvedBy == Some(source) && d.resultCode == Some(code)
        && (code == 0 ==> d.status == Paid && d.paidAt == Some(at))
        && (code != 0 ==> d.status == Failed && d.paidAt == c.paidAt))
    && t'.outbox == (if code == 0 then t.outbox[id := SaleEvent(id, t.charges[id].facts, at)] else t.outbox)
    && t'.born == t.born
  }

  // The date of a payment: what the callback reports, and the server's clock when it reports none.
  ghost predicate PaymentDate(body: StkBody, now: Instant, at: Instant) {
    (forall reported :: body.paidAt == Some(reported) ==> at == reported) && (body.paidAt.None? ==> at == now)
  }

  function DateOf(body: StkBody, now: Instant): (at: Instant)
    ensures PaymentDate(body, now, at)
  {
    match body.paidAt case Some(at) => at case None => now
  }

  // Nothing about any charge changes.
  ghost predicate NothingMoved(t: Tables, t': Tables) {
    t'.charges == t.charges && t'.outbox == t.outbox && t'.born == t.born
  }

  // A success the provider has contradicted, or not confirmed although it was asked.
  predicate Doubted(body: StkBody, verdict: Verdict) {
    body.code == 0 && (verdict == Contradicted || verdict == Unconfirmed)
  }

  lemma OpenOwesNothing(t: Tables, id: ChargeId)
    requires Sound(t) && Open(t, id)
    ensures id !in t.outbox
  {
  }

  lemma ResolveDecides(t: Tables, id: ChargeId, row: Charge, r: Resolution, now: Instant)
    requires id in t.charges && row.facts == t.charges[id].facts && (Open(t, id) ==> id !in t.outbox)
    requires r.paid <==> r.code == 0
    ensures var tx := Resolve(t, id, row, r, now);
      && tx.Committed? && (tx.value <==> row.hold.None? && Open(t, id)) && (!tx.value ==> tx.tables == t)
      && (tx.value ==>
            Decided(t, tx.tables, id, r.source, r.code, GetOr(r.paidAt, now))
            && tx.tables.charges[id].reference == t.charges[id].reference
            && tx.tables.charges[id].reconcileAttempts == t.charges[id].reconcileAttempts
            && tx.tables.events == t.events)
  {
  }

  // Steps 3 to 5, once the body is recorded and matched to charge `id`.
  lemma SettleDecides(t: Tables, id: ChargeId, row: Charge, adopted: bool, body: StkBody, verdict: Verdict, now: Instant)
    requires id in t.charges && row.facts == t.charges[id].facts && (Open(t, id) ==> id !in t.outbox)
    requires KeyOf(body) in t.events && t.events[KeyOf(body)] == Event(false, false, 0)
    ensures var tx := Settle(t, id, row, adopted, body, verdict, now);
      var agreed := body.code != 0 || body.amount == Some(t.charges[id].facts.amount);
      var decides := agreed && !Doubted(body, verdict) && Open(t, id) && row.hold.None?;
      && tx.Committed? && (decides <==> tx.value == Settled(id, adopted, true))
      && (decides ==>
            Decided(t, tx.tables, id, ByCallback, body.code, DateOf(body, now))
            && tx.tables.charges[id].reference == t.charges[id].reference)
      && tx.tables.events == t.events[KeyOf(body) := Event(true, decides, 0)]
      && (!decides && agreed ==> NothingMoved(t, tx.tables))
      && (!agreed ==> tx.value == HeldForReview(id, adopted))
      && (agreed && Doubted(body, verdict) ==> tx.value == Withheld(id, adopted))
  {
    ResolveDecides(t, id, row, ResolutionOf(body), now);
    assert GetOr(ResolutionOf(body).paidAt, now) == DateOf(body, now) || body.code != 0;
    hide Resolve;
  }

  /**
    * The first delivery of a body whose reference a charge already holds. It decides that charge exactly when
    * the charge is open, was not on hold when read, and, for a success, the amount is its own and the
    * provider does not object; a success pays it, any other code fails it.
    */
  lemma MatchedOutcome(seen: Tables, pool: Tables, t: Tables, body: StkBody, verdict: Verdict, now: Instant, id: ChargeId)
    requires Views(seen, pool, t) && KeyOf(body) !in t.events && id in Holders(seen, body.reference)
    ensures id in t.charges && CallbackTx(seen, pool, t, body, verdict, now).Committed?
    ensures var tx := CallbackTx(seen, pool, t, body, verdict, now);
      var agreed := body.code != 0 || body.amount == Some(t.charges[id].facts.amount);
      var decides := agreed && !Doubted(body, verdict) && Open(t, id) && seen.charges[id].hold.None?;
      && (decides <==> tx.value == Settled(id, false, true))
      && (decides ==>
            Decided(t, tx.tables, id, ByCallback, body.code, DateOf(body, now))
            && tx.tables.charges[id].reference == Some(body.reference)
            && tx.tables.events == t.events[KeyOf(body) := Event(true, true, 0)])
      && (!decides ==> tx.tables.events == t.events[KeyOf(body) := Event(true, false, 0)])
      && (!decides && agreed ==> NothingMoved(t, tx.tables))
      && (!agreed ==> tx.value == HeldForReview(id, false))
      && (agreed && Doubted(body, verdict) ==> tx.value == Withheld(id, false))
  {
    StillHeld(seen, t, id, body.reference);
    OnlyHolder(seen, id, body.reference);
    if Open(t, id) { OpenOwesNothing(t, id); }
    hide Sound, Evolves, Settle, CallbackTx, Decided, Doubted, DateOf;
    SettlesOnly(seen, pool, t, body, verdict, now, id);
    RecordedDecides(t, body, id, seen.charges[id], verdict, now);
  }

  lemma RecordedDecides(t: Tables, body: StkBody, id: ChargeId, row: Charge, verdict: Verdict, now: Instant)
    requires id in t.charges && row.facts == t.charges[id].facts && (Open(t, id) ==> id !in t.outbox)
    requires KeyOf(body) !in t.events
    ensures var tx := Settle(Record(t, body), id, row, false, body, verdict, now);
      var agreed := body.code != 0 || body.amount == Some(t.charges[id].facts.amount);
      var decides := agreed && !Doubted(body, verdict) && Open(t, id) && row.hold.None?;
      && tx.Committed? && (decides <==> tx.value == Settled(id, false, true))
      && (decides ==>
            Decided(t, tx.tables, id, ByCallback, body.code, DateOf(body, now))
            && tx.tables.charges[id].reference == t.charges[id].reference)
      && tx.tables.events == t.events[KeyOf(body) := Event(true, decides, 0)]
      && (!decides && agreed ==> NothingMoved(t, tx.tables))
      && (!agreed ==> tx.value == HeldForReview(id, false))
      && (agreed && Doubted(body, verdict) ==> tx.value == Withheld(id, false))
  {
    hide Settle, Doubted, DateOf;
    SettleDecides(Record(t, body), id, row, false, body, verdict, now);
    SameDecision(t, body, Settle(Record(t, body), id, row, false, body, verdict, now).tables, id, ByCallback, DateOf(body, now));
    hide Decided;
  }

  lemma SettlesOnly(seen: Tables, pool: Tables, t: Tables, body: StkBody, verdict: Verdict, now: Instant, id: ChargeId)
    requires KeyOf(body) !in t.events && Holders(seen, body.reference) == {id}
    ensures id in seen.charges
    ensures CallbackTx(seen, pool, t, body, verdict, now)
      == Settle(Record(t, body), id, seen.charges[id], false, body, verdict, now)
  {
    assert id in Holders(seen, body.reference);
    hide Settle, Adopt;
  }

  lemma SameDecision(t: Tables, body: StkBody, t': Tables, id: ChargeId, source: Source, at: Instant)
    ensures Decided(Record(t, body), t', id, source, body.code, at) <==> Decided(t, t', id, source, body.code, at)
  {
  }

  lemma OnlyHolder(seen: Tables, id: ChargeId, r: Reference)
    requires Sound(seen) && id in Holders(seen, r)
    ensures Holders(seen, r) == {id}
  {
  }

  /**
    * The first delivery of a success whose reference nobody held, with exactly one charge to adopt it. It is
    * claimed when it still can be, and then paid unless the provider objects; a reference that somebody took
    * meanwhile rolls everything back, and a charge that moved on leaves the body unmatched.
    */
  lemma AdoptedOutcome(seen: Tables, pool: Tables, t: Tables, body: StkBody, verdict: Verdict, now: Instant, id: ChargeId)
    requires Views(seen, pool, t) && KeyOf(body) !in t.events && Holders(seen, body.reference) == {}
    requires body.code == 0 && body.amount.Some? && Candidates(pool, body.amount.value, body.msisdn, now) == {id}
    ensures var tx := CallbackTx(seen, pool, t, body, verdict, now);
      var claimable := id in t.charges && t.charges[id].status.Pending? && t.charges[id].reference.None?;
      && (tx.Aborted? <==> claimable && ReferenceTaken(t, body.reference))
      && (!claimable ==> tx.value == Unmatched && NothingMoved(t, tx.tables))
      && (tx.Committed? && claimable && Doubted(body, verdict) ==>
            tx.value == Withheld(id, true) && tx.tables.outbox == t.outbox
            && tx.tables.charges == t.charges[id := t.charges[id].(reference := Some(body.reference))])
      && (tx.Committed? && claimable && !Doubted(body, verdict) ==>
            tx.value == Settled(id, true, true)
            && Decided(t, tx.tables, id, ByCallback, 0, DateOf(body, now))
            && tx.tables.charges[id].reference == Some(body.reference)
            && tx.tables.events == t.events[KeyOf(body) := Event(true, true, 0)])
  {
    assert id in Candidates(pool, body.amount.value, body.msisdn, now);
    if id in t.charges && t.charges[id].status.Pending? && t.charges[id].reference.None? && !ReferenceTaken(t, body.reference) {
      StaleRowAgrees(pool, t, id);
      UnreferencedIsOpen(t, id);
      hide Sound, Evolves, CallbackTx, Adoptable;
      ClaimedOutcome(seen, pool, t, body, verdict, now, id);
    } else {
      hide Sound, Evolves, CallbackTx, Adoptable;
      NotClaimed(seen, pool, t, body, verdict, now, id);
    }
    hide Decided, Doubted, DateOf, ReferenceTaken;
  }

  lemma ClaimedOutcome(seen: Tables, pool: Tables, t: Tables, body: StkBody, verdict: Verdict, now: Instant, id: ChargeId)
    requires KeyOf(body) !in t.events && Holders(seen, body.reference) == {}
    requires body.code == 0 && body.amount.Some? && Candidates(pool, body.amount.value, body.msisdn, now) == {id}
    requires id in pool.charges && id in t.charges && Open(t, id) && id !in t.outbox && t.charges[id].reference.None?
    requires pool.charges[id].facts == t.charges[id].facts && pool.charges[id].hold.None?
    requires body.amount == Some(t.charges[id].facts.amount) && !ReferenceTaken(t, body.reference)
    ensures var tx := CallbackTx(seen, pool, t, body, verdict, now);
      && tx.Committed?
      && (Doubted(body, verdict) ==>
            tx.value == Withheld(id, true) && tx.tables.outbox == t.outbox
            && tx.tables.charges == t.charges[id := t.charges[id].(reference := Some(body.reference))])
      && (!Doubted(body, verdict) ==>
            tx.value == Settled(id, true, true)
            && Decided(t, tx.tables, id, ByCallback, 0, DateOf(body, now))
            && tx.tables.charges[id].reference == Some(body.reference)
            && tx.tables.events == t.events[KeyOf(body) := Event(true, true, 0)])
  {
    var claimed := ClaimReference(Record(t, body), id, body.reference).tables;
    var row := pool.charges[id].(reference := Some(body.reference));
    AdoptsOnly(seen, pool, t, body, verdict, now, id);
    hide CallbackTx, Candidates, Holders, ReferenceTaken;
    SettleDecides(claimed, id, row, true, body, verdict, now);
    hide Settle, Doubted, DateOf;
    DecidedOnceClaimed(t, claimed, body, CallbackTx(seen, pool, t, body, verdict, now).tables, id, DateOf(body, now));
    hide Decided;
  }

  lemma NotClaimed(seen: Tables, pool: Tables, t: Tables, body: StkBody, verdict: Verdict, now: Instant, id: ChargeId)
    requires KeyOf(body) !in t.events && Holders(seen, body.reference) == {}
    requires body.code == 0 && body.amount.Some? && Candidates(pool, body.amount.value, body.msisdn, now) == {id}
    requires id in pool.charges
    ensures var claimable := id in t.charges && t.charges[id].status.Pending? && t.charges[id].reference.None?;
      var tx := CallbackTx(seen, pool, t, body, verdict, now);
      && (claimable && ReferenceTaken(t, body.reference) ==> tx.Aborted?)
      && (!claimable ==> tx.Committed? && tx.value == Unmatched && NothingMoved(t, tx.tables))
  {
    SameTaken(t, body);
    hide Settle, Candidates, ReferenceTaken;
  }

  lemma UnreferencedIsOpen(t: Tables, id: ChargeId)
    requires Sound(t) && id in t.charges && t.charges[id].status.Pending? && t.charges[id].reference.None?
    ensures Open(t, id) && id !in t.outbox
  {
    assert WellShaped(t.charges[id]);
  }

  lemma AdoptsOnly(seen: Tables, pool: Tables, t: Tables, body: StkBody, verdict: Verdict, now: Instant, id: ChargeId)
    requires KeyOf(body) !in t.events && Holders(seen, body.reference) == {}
    requires body.code == 0 && body.amount.Some? && Candidates(pool, body.amount.value, body.msisdn, now) == {id}
    requires id in pool.charges && id in t.charges && t.charges[id].status.Pending? && t.charges[id].reference.None?
    requires !ReferenceTaken(t, body.reference)
    ensures var claim := ClaimReference(Record(t, body), id, body.reference);
      && claim.Committed? && claim.value
      && claim.tables == Update(Record(t, body), id, t.charges[id].(reference := Some(body.reference)))
      && CallbackTx(seen, pool, t, body, verdict, now)
         == Settle(claim.tables, id, pool.charges[id].(reference := Some(body.reference)), true, body, verdict, now)
  {
    SameTaken(t, body);
    hide Settle, Candidates;
  }

  lemma DecidedOnceClaimed(t: Tables, claimed: Tables, body: StkBody, t': Tables, id: ChargeId, at: Instant)
    requires id in t.charges && claimed == Update(Record(t, body), id, t.charges[id].(reference := Some(body.reference)))
    ensures Decided(claimed, t', id, ByCallback, 0, at) ==> Decided(t, t', id, ByCallback, 0, at)
  {
    assert Decided(claimed, t', id, ByCallback, 0, at) ==> t'.charges == t.charges[id := t'.charges[id]];
  }

  lemma SameTaken(t: Tables, body: StkBody)
    ensures ReferenceTaken(Record(t, body), body.reference) == ReferenceTaken(t, body.reference)
  {
  }

  /** Any other first delivery is recorded as unmatched or ambiguous, and moves nothing. */
  lemma UnadoptedOutcome(seen: Tables, pool: Tables, t: Tables, body: StkBody, verdict: Verdict, now: Instant)
    requires KeyOf(body) !in t.events && Holders(seen, body.reference) == {}
    requires body.code == 0 && body.amount.Some? ==>
      forall id :: Candidates(pool, body.amount.value, body.msisdn, now) != {id}
    ensures var tx := CallbackTx(seen, pool, t, body, verdict, now);
      && tx.Committed? && NothingMoved(t, tx.tables)
      && tx.tables.events == t.events[KeyOf(body) := Event(false, false, 0)]
      && tx.value == if body.code == 0 && body.amount.Some? && Candidates(pool, body.amount.value, body.msisdn, now) != {}
                     then Ambiguous else Unmatched
  {
  }

  /**
    * The reconciler's transaction for a complete answer: one more attempt, and the charge is decided exactly
    * when it is open and was not on hold when re-read: PAID now for 0, FAILED for any other code.
    */
  lemma QueryOutcome(reread: Tables, t: Tables, id: ChargeId, code: int, now: Instant)
    requires Sound(reread) && Sound(t) && Evolves(reread, t) && id in reread.charges && reread.charges[id].reference.Some?
    ensures id in t.charges && QueryTx(reread, t, id, code, now).Committed?
    ensures var tx := QueryTx(reread, t, id, code, now);
      var counted := t.charges[id].reconcileAttempts + 1;
      && (tx.value <==> Open(t, id) && reread.charges[id].hold.None?)
      && (tx.value ==>
            Decided(t, tx.tables, id, ByQuery, code, now) && tx.tables.charges[id].reconcileAttempts == counted
            && tx.tables.charges[id].reference == t.charges[id].reference)
      && (!tx.value ==>
            tx.tables.outbox == t.outbox && tx.tables.charges == t.charges[id := t.charges[id].(reconcileAttempts := counted)])
      && tx.tables.events == t.events
  {
    assert id in reread.born;
    assert id in t.charges && RowEvolves(reread.charges[id], t.charges[id]);
    if Open(t, id) { OpenOwesNothing(t, id); }
    hide Sound, Evolves, Resolve, Decided;
    var counted := CountAttempt(t, id);
    ResolveDecides(counted, id, reread.charges[id], Resolution(code == SUCCESS, code, None, ByQuery), now);
    DecidedOnceCounted(t, QueryTx(reread, t, id, code, now).tables, id, code, now);
  }

  lemma DecidedOnceCounted(t: Tables, t': Tables, id: ChargeId, code: int, at: Instant)
    requires id in t.charges
    ensures Decided(CountAttempt(t, id), t', id, ByQuery, code, at) ==> Decided(t, t', id, ByQuery, code, at)
  {
    assert Decided(CountAttempt(t, id), t', id, ByQuery, code, at) ==> t'.charges == t.charges[id := t'.charges[id]];
  }

  /** Releasing a held charge makes it open again, with all its attempts, and touches nothing else. */
  lemma ReleaseReopens(t: Tables, id: ChargeId)
    requires id in t.charges && t.charges[id].status.Pending? && t.charges[id].hold.Some?
    ensures var t' := Release(t, id);
      && Open(t', id) && t'.charges[id].reconcileAttempts == 0 && t'.charges[id].reference == t.charges[id].reference
      && t'.charges[id].facts == t.charges[id].facts
      && t'.charges == t.charges[id := t'.charges[id]] && t'.outbox == t.outbox && t'.events == t.events
  {
  }
}
