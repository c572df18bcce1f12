/**
  * The callback transaction: it keeps the tables Sound, rows only evolve, and its whole effect is one
  * event row, at most one claimed reference and at most one resolved charge.
  */
module CallbackLemmas {
  import opened Common
  import opened Charges
  import opened ChargeInvariants

  // Views of one transaction, oldest first; `t` is what it commits to.
  ghost predicate Views(seen: Tables, pool: Tables, t: Tables) {
    Sound(seen) && Sound(pool) && Sound(t) && Evolves(seen, t) && Evolves(pool, t)
  }

  // How a callback may leave a row: perhaps a reference claimed, resolved only if it was open, and held only
  // for an amount that is not its own.
  ghost predicate RowAfter(c: Charge, d: Charge, body: StkBody, resolved: bool) {
    && d.facts == c.facts && d.reconcileAttempts == c.reconcileAttempts
    && (d.reference == c.reference
        || (c.reference.None? && c.status.Pending? && d.reference == Some(body.reference)))
    && (resolved ==>
          c.status.Pending? && c.hold.None? && d.reference == Some(body.reference)
          && d.status == (if body.code == SUCCESS then Paid else Failed)
          && d.resolvedBy == Some(ByCallback) && d.resultCode == Some(body.code))
    && (!resolved ==> d.status == c.status && d.resolvedBy == c.resolvedBy && d.resultCode == c.resultCode)
    && (d.hold == c.hold
        || (!resolved && c.hold.None? && c.status.Pending? && body.code == SUCCESS && body.amount != Some(c.facts.amount)
            && d.hold == Some(AmountMismatch(body.amount)) && d.reference == Some(body.reference)))
  }

  ghost predicate Resolves(d: Disposition, id: ChargeId) {
    d.Settled? && d.applied && d.chargeId == id
  }

  ghost predicate RowsAfter(t: Tables, t': Tables, body: StkBody, d: Disposition) {
    && t'.charges.Keys == t.charges.Keys && t'.born == t.born
    && (forall j :: j in t.charges ==> RowAfter(t.charges[j], t'.charges[j], body, Resolves(d, j)))
    && (d.Settled? && d.applied ==> d.chargeId in t.charges)
  }

  ghost predicate EventsAfter(t: Tables, t': Tables, body: StkBody, d: Disposition) {
    if d.Duplicate? then
      KeyOf(body) in t.events && t'.charges == t.charges && t'.outbox == t.outbox
      && t'.events == t.events[KeyOf(body) := t.events[KeyOf(body)].(duplicates := t.events[KeyOf(body)].duplicates + 1)]
    else
      && KeyOf(body) !in t.events
      && t'.events == t.events[KeyOf(body) :=
           Event(d.HeldForReview? || d.Withheld? || d.Settled?, d.Settled? && d.applied, 0)]
  }

  // A charge is never moved to PAID against the verdict or with another amount.
  ghost predicate PaysOnlyAgreed(t: Tables, body: StkBody, verdict: Verdict, d: Disposition) {
    d.Settled? && d.applied && body.code == SUCCESS ==>
      && !verdict.Contradicted? && !verdict.Unconfirmed?
      && d.chargeId in t.charges && body.amount == Some(t.charges[d.chargeId].facts.amount)
  }

  // ---------------------------------------------------------------- event rows

  lemma EventsKeep(t: Tables, t': Tables)
    requires Sound(t) && t' == t.(events := t'.events)
    requires forall k :: k in t.events ==> k in t'.events && (t.events[k].applied ==> t'.events[k].applied)
    ensures Sound(t') && Evolves(t, t')
  {
    EventsEvolve(t, t');
  }

  lemma EventsEvolve(t: Tables, t': Tables)
    requires Faithful(t) && t' == t.(events := t'.events)
    requires forall k :: k in t.events ==> k in t'.events && (t.events[k].applied ==> t'.events[k].applied)
    ensures Evolves(t, t')
  {
  }

  // ---------------------------------------------------------------- steps 3 to 5

  ghost predicate Matched(t: Tables, id: ChargeId, row: Charge, body: StkBody) {
    && KeyOf(body) in t.events && t.events[KeyOf(body)] == Event(false, false, 0)
    && id in t.charges && row.facts == t.charges[id].facts && t.charges[id].reference == Some(body.reference)
  }

  lemma HoldKeeps(t: Tables, id: ChargeId, reported: Option<int>)
    requires Sound(t) && id in t.charges && t.charges[id].reference.Some?
    ensures Sound(PutOnHold(t, id, reported)) && Evolves(t, PutOnHold(t, id, reported))
  {
    if Open(t, id) {
      assert WellShaped(t.charges[id]);
      UpdateKeeps(t, id, t.charges[id].(hold := Some(AmountMismatch(reported))));
    } else {
      UpdateEvolves(t, id, t.charges[id]);
      assert Update(t, id, t.charges[id]) == t;
    }
  }

  lemma MarkKeeps(t0: Tables, t: Tables, body: StkBody, applied: bool)
    requires Sound(t0) && Sound(t) && Evolves(t0, t)
    requires KeyOf(body) in t.events && !t.events[KeyOf(body)].applied
    ensures Sound(Mark(t, KeyOf(body), applied)) && Evolves(t0, Mark(t, KeyOf(body), applied))
  {
    var t' := Mark(t, KeyOf(body), applied);
    EventsKeep(t, t');
    EvolvesTransitive(t0, t, t');
  }

  lemma SettleKeeps(t: Tables, id: ChargeId, row: Charge, adopted: bool, body: StkBody, verdict: Verdict, now: Instant)
    requires Sound(t) && Matched(t, id, row, body)
    ensures var tx := Settle(t, id, row, adopted, body, verdict, now);
      tx.Committed? && Sound(tx.tables) && Evolves(t, tx.tables)
  {
    if body.code == SUCCESS && body.amount != Some(row.facts.amount) {
      HoldKeeps(t, id, body.amount);
      MarkKeeps(t, PutOnHold(t, id, body.amount), body, false);
    } else if body.code == SUCCESS && (verdict.Contradicted? || verdict.Unconfirmed?) {
      UpdateEvolves(t, id, t.charges[id]);
      assert Update(t, id, t.charges[id]) == t;
      MarkKeeps(t, t, body, false);
    } else {
      var r := ResolutionOf(body);
      ResolveOutcome(t, id, row, r, now);
      ResolveKeeps(t, id, row, r, now);
      var tx := Resolve(t, id, row, r, now);
      MarkKeeps(t, tx.tables, body, tx.value);
    }
  }

  lemma SettleRows(t: Tables, id: ChargeId, row: Charge, adopted: bool, body: StkBody, verdict: Verdict, now: Instant)
    requires Sound(t) && Matched(t, id, row, body)
    ensures var tx := Settle(t, id, row, adopted, body, verdict, now);
      && tx.Committed? && RowsAfter(t, tx.tables, body, tx.value) && PaysOnlyAgreed(t, body, verdict, tx.value)
      && tx.tables.charges == t.charges[id := tx.tables.charges[id]]
      && tx.tables.charges[id].reference == t.charges[id].reference
  {
    var tx := Settle(t, id, row, adopted, body, verdict, now);
    SettleOneRow(t, id, row, adopted, body, verdict, now);
    hide Settle, Sound;
    assert forall j :: j in t.charges && j != id ==> RowAfter(t.charges[j], tx.tables.charges[j], body, Resolves(tx.value, j));
  }

  /** Only the matched row changes, and only as a callback may change it. */
  lemma SettleOneRow(t: Tables, id: ChargeId, row: Charge, adopted: bool, body: StkBody, verdict: Verdict, now: Instant)
    requires Sound(t) && Matched(t, id, row, body)
    ensures var tx := Settle(t, id, row, adopted, body, verdict, now);
      && tx.Committed? && id in tx.tables.charges && tx.tables.born == t.born
      && tx.tables.charges == t.charges[id := tx.tables.charges[id]]
      && tx.tables.charges[id].reference == t.charges[id].reference
      && RowAfter(t.charges[id], tx.tables.charges[id], body, Resolves(tx.value, id))
      && (tx.value.Settled? && tx.value.applied ==> tx.value.chargeId == id)
      && PaysOnlyAgreed(t, body, verdict, tx.value)
  {
    var mismatch := body.code == SUCCESS && body.amount != Some(row.facts.amount);
    var unsure := body.code == SUCCESS && (verdict.Contradicted? || verdict.Unconfirmed?);
    hide Sound;
    if !mismatch && !unsure { ResolveOneRow(t, id, row, adopted, body, verdict, now); }
  }

  lemma ResolveOneRow(t: Tables, id: ChargeId, row: Charge, adopted: bool, body: StkBody, verdict: Verdict, now: Instant)
    requires Sound(t) && Matched(t, id, row, body)
    requires !(body.code == SUCCESS && body.amount != Some(row.facts.amount))
    requires !(body.code == SUCCESS && (verdict.Contradicted? || verdict.Unconfirmed?))
    ensures var tx := Settle(t, id, row, adopted, body, verdict, now);
      && tx.Committed? && id in tx.tables.charges && tx.tables.born == t.born
      && tx.tables.charges == t.charges[id := tx.tables.charges[id]]
      && tx.value == Settled(id, adopted, tx.value.applied)
      && RowAfter(t.charges[id], tx.tables.charges[id], body, tx.value.applied)
      && tx.tables.charges[id].reference == t.charges[id].reference
  {
    ResolveOutcome(t, id, row, ResolutionOf(body), now);
    var resolved := Resolve(t, id, row, ResolutionOf(body), now);
    assert !resolved.value ==> resolved.tables.charges == t.charges[id := t.charges[id]];
    hide Sound, Resolve, WellShaped, RowEvolves;
  }

  lemma SettleEvents(t: Tables, id: ChargeId, row: Charge, adopted: bool, body: StkBody, verdict: Verdict, now: Instant)
    requires Sound(t) && Matched(t, id, row, body)
    ensures var tx := Settle(t, id, row, adopted, body, verdict, now);
      && tx.Committed? && (tx.value.HeldForReview? || tx.value.Withheld? || tx.value.Settled?)
      && tx.tables.events == t.events[KeyOf(body) := Event(true, tx.value.Settled? && tx.value.applied, 0)]
  {
    ResolveOutcome(t, id, row, ResolutionOf(body), now);
  }

  // ---------------------------------------------------------------- the whole transaction

  // A reference is claimed only by the single candidate that was read.
  ghost predicate ClaimedByOnlyCandidate(pool: Tables, t: Tables, t': Tables, body: StkBody, now: Instant) {
    forall j :: j in t.charges && j in t'.charges && t'.charges[j].reference != t.charges[j].reference ==>
      body.code == SUCCESS && body.amount.Some? && Candidates(pool, body.amount.value, body.msisdn, now) == {j}
  }

  // The transaction's guarantee.
  ghost predicate Effect(pool: Tables, t: Tables, body: StkBody, verdict: Verdict, now: Instant, tx: Tx<Disposition>) {
    tx.Committed? ==>
      && Sound(tx.tables) && Evolves(t, tx.tables)
      && RowsAfter(t, tx.tables, body, tx.value) && EventsAfter(t, tx.tables, body, tx.value)
      && PaysOnlyAgreed(t, body, verdict, tx.value)
      && ClaimedByOnlyCandidate(pool, t, tx.tables, body, now)
  }

  lemma RecordKeeps(t: Tables, body: StkBody)
    requires Sound(t) && KeyOf(body) !in t.events
    ensures Sound(Record(t, body)) && Evolves(t, Record(t, body))
  {
    EventsKeep(t, Record(t, body));
  }

  // Steps 1 and 2 done: the event is recorded, and charge `id` holds the reference, claimed just now or before.
  ghost predicate Prepared(t: Tables, t1: Tables, id: ChargeId, body: StkBody) {
    && KeyOf(body) !in t.events && t1.events == Record(t, body).events
    && t1.born == t.born && t1.outbox == t.outbox && id in t.charges
    && t1.charges == t.charges[id := t.charges[id].(reference := Some(body.reference))]
    && (t.charges[id].reference.None? ==> t.charges[id].status.Pending?)
    && t.charges[id].reference in {None, Some(body.reference)}
  }

  lemma PreparedRows(t: Tables, t1: Tables, t': Tables, id: ChargeId, body: StkBody, verdict: Verdict, d: Disposition)
    requires Prepared(t, t1, id, body) && RowsAfter(t1, t', body, d) && PaysOnlyAgreed(t1, body, verdict, d)
    ensures RowsAfter(t, t', body, d) && PaysOnlyAgreed(t, body, verdict, d)
  {
    assert t1.charges.Keys == t.charges.Keys;
    forall j | j in t.charges ensures RowAfter(t.charges[j], t'.charges[j], body, Resolves(d, j)) {
      assert RowAfter(t1.charges[j], t'.charges[j], body, Resolves(d, j));
    }
  }

  lemma PreparedClaims(pool: Tables, t: Tables, t1: Tables, t': Tables, id: ChargeId, body: StkBody, now: Instant)
    requires Prepared(t, t1, id, body) && id in t'.charges
    requires t'.charges == t1.charges[id := t'.charges[id]] && t'.charges[id].reference == t1.charges[id].reference
    requires t.charges[id].reference.None? ==>
      body.code == SUCCESS && body.amount.Some? && Candidates(pool, body.amount.value, body.msisdn, now) == {id}
    ensures ClaimedByOnlyCandidate(pool, t, t', body, now)
  {
  }

  lemma PreparedEffect(pool: Tables, t: Tables, t1: Tables, id: ChargeId, row: Charge, adopted: bool,
                       body: StkBody, verdict: Verdict, now: Instant)
    requires Sound(t) && Sound(t1) && Evolves(t, t1) && Prepared(t, t1, id, body) && row.facts == t.charges[id].facts
    requires t.charges[id].reference.None? ==>
      body.code == SUCCESS && body.amount.Some? && Candidates(pool, body.amount.value, body.msisdn, now) == {id}
    ensures Effect(pool, t, body, verdict, now, Settle(t1, id, row, adopted, body, verdict, now))
  {
    var tx := Settle(t1, id, row, adopted, body, verdict, now);
    SettleKeeps(t1, id, row, adopted, body, verdict, now);
    EvolvesTransitive(t, t1, tx.tables);
    PreparedSettled(pool, t, t1, id, row, adopted, body, verdict, now);
  }

  lemma PreparedSettled(pool: Tables, t: Tables, t1: Tables, id: ChargeId, row: Charge, adopted: bool,
                        body: StkBody, verdict: Verdict, now: Instant)
    requires Sound(t1) && Prepared(t, t1, id, body) && row.facts == t.charges[id].facts
    requires t.charges[id].reference.None? ==>
      body.code == SUCCESS && body.amount.Some? && Candidates(pool, body.amount.value, body.msisdn, now) == {id}
    ensures var tx := Settle(t1, id, row, adopted, body, verdict, now);
      && tx.Committed? && RowsAfter(t, tx.tables, body, tx.value) && EventsAfter(t, tx.tables, body, tx.value)
      && PaysOnlyAgreed(t, body, verdict, tx.value) && ClaimedByOnlyCandidate(pool, t, tx.tables, body, now)
  {
    var tx := Settle(t1, id, row, adopted, body, verdict, now);
    PreparedEvents(t, t1, id, row, adopted, body, verdict, now);
    SettleRows(t1, id, row, adopted, body, verdict, now);
    PreparedRows(t, t1, tx.tables, id, body, verdict, tx.value);
    PreparedClaims(pool, t, t1, tx.tables, id, body, now);
  }

  lemma PreparedEvents(t: Tables, t1: Tables, id: ChargeId, row: Charge, adopted: bool,
                       body: StkBody, verdict: Verdict, now: Instant)
    requires Sound(t1) && Prepared(t, t1, id, body) && row.facts == t.charges[id].facts
    ensures var tx := Settle(t1, id, row, adopted, body, verdict, now);
      tx.Committed? && EventsAfter(t, tx.tables, body, tx.value)
  {
    SettleEvents(t1, id, row, adopted, body, verdict, now);
  }

  lemma MatchedEffect(seen: Tables, pool: Tables, t: Tables, id: ChargeId, body: StkBody, verdict: Verdict, now: Instant)
    requires Views(seen, pool, t) && KeyOf(body) !in t.events && id in Holders(seen, body.reference)
    ensures Effect(pool, t, body, verdict, now, Settle(Record(t, body), id, seen.charges[id], false, body, verdict, now))
  {
    RecordKeeps(t, body);
    StillHeld(seen, t, id, body.reference);
    assert t.charges == t.charges[id := t.charges[id].(reference := Some(body.reference))];
    PreparedEffect(pool, t, Record(t, body), id, seen.charges[id], false, body, verdict, now);
  }

  /** A reference is never given up, and a charge that has one is never purged. */
  lemma StillHeld(seen: Tables, t: Tables, id: ChargeId, r: Reference)
    requires Faithful(seen) && Evolves(seen, t) && id in Holders(seen, r)
    ensures id in Holders(t, r) && t.charges[id].facts == seen.charges[id].facts
  {
    assert id in seen.born;
    assert id in t.charges && RowEvolves(seen.charges[id], t.charges[id]);
  }

  lemma ClaimPrepares(t: Tables, id: ChargeId, body: StkBody)
    requires Sound(t) && KeyOf(body) !in t.events
    ensures var claim := ClaimReference(Record(t, body), id, body.reference);
      claim.Committed? && claim.value ==>
        Sound(claim.tables) && Evolves(t, claim.tables) && Prepared(t, claim.tables, id, body)
  {
    RecordKeeps(t, body);
    var claim := ClaimReference(Record(t, body), id, body.reference);
    if claim.Committed? && claim.value {
      ClaimKeeps(Record(t, body), id, body.reference);
      EvolvesTransitive(t, Record(t, body), claim.tables);
    }
  }

  lemma AdoptedEffect(pool: Tables, t: Tables, id: ChargeId, body: StkBody, verdict: Verdict, now: Instant)
    requires Views(pool, pool, t) && KeyOf(body) !in t.events && body.code == SUCCESS && body.amount.Some?
    requires Candidates(pool, body.amount.value, body.msisdn, now) == {id}
    ensures var claim := ClaimReference(Record(t, body), id, body.reference);
      id in pool.charges && (claim.Committed? && claim.value ==>
        Effect(pool, t, body, verdict, now,
          Settle(claim.tables, id, pool.charges[id].(reference := Some(body.reference)), true, body, verdict, now)))
  {
    var claim := ClaimReference(Record(t, body), id, body.reference);
    assert id in Candidates(pool, body.amount.value, body.msisdn, now);
    if claim.Committed? && claim.value {
      ClaimPrepares(t, id, body);
      StaleRowAgrees(pool, t, id);
      var row := pool.charges[id].(reference := Some(body.reference));
      PreparedEffect(pool, t, claim.tables, id, row, true, body, verdict, now);
    }
  }

  lemma NothingMatchedEffect(pool: Tables, t: Tables, body: StkBody, verdict: Verdict, now: Instant, d: Disposition)
    requires Sound(t) && KeyOf(body) !in t.events && (d.Unmatched? || d.Ambiguous?)
    ensures Effect(pool, t, body, verdict, now, Committed(Record(t, body), d))
  {
    RecordKeeps(t, body);
  }

  lemma AdoptEffect(pool: Tables, t: Tables, body: StkBody, verdict: Verdict, now: Instant)
    requires Views(pool, pool, t) && KeyOf(body) !in t.events && body.code == SUCCESS && body.amount.Some?
    ensures Effect(pool, t, body, verdict, now, Adopt(pool, Record(t, body), body, verdict, now))
  {
    var found := Candidates(pool, body.amount.value, body.msisdn, now);
    NothingMatchedEffect(pool, t, body, verdict, now, Unmatched);
    NothingMatchedEffect(pool, t, body, verdict, now, Ambiguous);
    forall id | found == {id} { AdoptedEffect(pool, t, id, body, verdict, now); }
  }

  /** Whatever the body says and however stale the reads are. */
  lemma CallbackEffect(seen: Tables, pool: Tables, t: Tables, body: StkBody, verdict: Verdict, now: Instant)
    requires Views(seen, pool, t)
    ensures Effect(pool, t, body, verdict, now, CallbackTx(seen, pool, t, body, verdict, now))
  {
    if KeyOf(body) in t.events {
      EventsKeep(t, CallbackTx(seen, pool, t, body, verdict, now).tables);
    } else {
      hide Sound, Evolves, Settle, Adopt, Effect;
      var holders := Holders(seen, body.reference);
      if holders != {} {
        forall id | id in holders { MatchedEffect(seen, pool, t, id, body, verdict, now); }
      } else if body.code == SUCCESS && body.amount.Some? {
        AdoptEffect(pool, t, body, verdict, now);
      } else {
        NothingMatchedEffect(pool, t, body, verdict, now, Unmatched);
      }
    }
  }
}
