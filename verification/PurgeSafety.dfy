/**
  * purge-abandoned deletes only rows no money can reach: a row past the adoption window holds nothing,
  * no later callback could match or adopt it, and deleting it changes no callback's outcome.
  */
module PurgeSafety {
  import opened Common
  import opened Charges
  import opened ChargeInvariants
  import opened CallbackLemmas
  import opened PosTables
  import opened Protocol
  import opened ProtocolInvariants

  /** Purge deletes a row exactly when it is PENDING, unreferenced, not on hold, older than the cutoff and of a tenant asked for. */
  lemma PurgeOutcome(t: Tables, cutoff: Instant, tenants: Option<set<TenantId>>, id: ChargeId)
    requires id in t.charges
    ensures var t', c := Purge(t, cutoff, tenants), t.charges[id];
      && (id !in t'.charges <==>
            c.status == Pending && c.reference == None && c.hold == None && c.facts.createdAt < cutoff
            && forall wanted :: tenants == Some(wanted) ==> c.facts.tenantId in wanted)
      && (id in t'.charges ==> t'.charges[id] == c)
      && t'.born == t.born && t'.events == t.events && t'.outbox == t.outbox
  {
    assert tenants.Some? ==> tenants == Some(tenants.value);
  }

  /** A purged row had no event, no hold and no reference. */
  lemma PurgedHeldNothing(run: seq<World>, acts: seq<Act>, i: nat, id: ChargeId)
    requires IsRun(run, acts) && i < |acts| && acts[i].step.Purged?
    requires id in run[i].tables.charges && id !in run[i + 1].tables.charges
    ensures id !in run[i].tables.outbox && id !in run[i + 1].tables.outbox
    ensures var c := run[i].tables.charges[id];
      c.hold.None? && c.reference.None? && c.status.Pending? && c.resolvedBy.None?
  {
    hide AppliedOnce, Evidence, Grows, UniqueKeys;
    RunKeeps(run, acts, i + 1);
    assert Linked(run, acts, i) && Inv(run[i]);
    assert WellShaped(run[i].tables.charges[id]);
  }

  // ---------------------------------------------------------------- no later callback reaches it

  ghost predicate Dormant(t: Tables, id: ChargeId, since: Instant) {
    id in t.charges ==>
      t.charges[id].reference.None? && t.charges[id].facts.createdAt < since - ADOPTION_WINDOW
  }

  // From moment i on, no acknowledgement for the charge is in flight and callbacks start after i.
  ghost predicate Quiet(run: seq<World>, acts: seq<Act>, i: nat, j: nat, id: ChargeId) {
    && |run| == |acts| + 1 && i <= j < |run|
    && (forall k :: i <= k < j ==>
          && !(acts[k].step.AckClaimed? && acts[k].step.id == id)
          && (acts[k].step.CallbackApplied? ==> acts[k].step.now >= run[i].clock))
  }

  lemma DormantStep(p: World, v: World, u: World, w: World, w': World, s: Step, id: ChargeId, since: Instant)
    requires Behind(p, v, u, w) && Next(p, v, u, w, w', s) && Dormant(w.tables, id, since)
    requires id in w.tables.charges
    requires !(s.AckClaimed? && s.id == id) && (s.CallbackApplied? ==> s.now >= since)
    ensures Dormant(w'.tables, id, since)
  {
    hide Sound, Evolves, CallbackTx, QueryTx, AppliedOnce, Evidence, VerdictFor, LogAfter, DeliveryAfter, LogGrows;
    if s.CallbackApplied? {
      DormantThroughCallback(p, v, u, w, s, id, since);
    } else if s.QueryApplied? {
      if id in w'.tables.charges { DormantThroughQuery(p, v, u, w, s, id); }
    } else {
      SoundParts(w.tables);
      hide OneEffect, UniqueKeys, Shapes;
      DormantElsewhere(p, v, u, w, s, id, since);
    }
  }

  lemma DormantElsewhere(p: World, v: World, u: World, w: World, s: Step, id: ChargeId, since: Instant)
    requires Enabled(p, v, u, w, s) && Faithful(w.tables) && Dormant(w.tables, id, since) && id in w.tables.charges
    requires !(s.AckClaimed? && s.id == id) && !s.CallbackApplied? && !s.QueryApplied?
    ensures Dormant(TablesAfter(v, u, w, s), id, since)
  {
    hide CallbackTx, QueryTx, VerdictFor, SaleTaken, ReferenceTaken, Abandoned;
  }

  lemma DormantThroughCallback(p: World, v: World, u: World, w: World, s: Step, id: ChargeId, since: Instant)
    requires Behind(p, v, u, w) && Enabled(p, v, u, w, s) && Dormant(w.tables, id, since) && id in w.tables.charges
    requires s.CallbackApplied? && s.now >= since
    ensures Dormant(TablesAfter(v, u, w, s), id, since)
  {
    hide Sound, Evolves, CallbackTx, AppliedOnce, Evidence, VerdictFor, EventsAfter, PaysOnlyAgreed, LogGrows;
    assert Views(v.tables, u.tables, w.tables);
    CallbackEffect(v.tables, u.tables, w.tables, s.body, s.verdict, s.now);
    if s.body.amount.Some? { NotACandidate(u, w, s.body, s.now, id, since); }
  }

  lemma NotACandidate(u: World, w: World, body: StkBody, now: Instant, id: ChargeId, since: Instant)
    requires Inv(u) && Inv(w) && Grows(u, w) && Dormant(w.tables, id, since) && id in w.tables.charges && since <= now
    requires body.amount.Some?
    ensures id !in Candidates(u.tables, body.amount.value, body.msisdn, now)
  {
    hide OneEffect, UniqueKeys, Shapes, AppliedOnce, Evidence, LogGrows;
    if id in u.tables.charges { StaleRowAgrees(u.tables, w.tables, id); }
  }

  lemma DormantThroughQuery(p: World, v: World, u: World, w: World, s: Step, id: ChargeId)
    requires Behind(p, v, u, w) && Enabled(p, v, u, w, s) && s.QueryApplied?
    requires id in w.tables.charges && id in TablesAfter(v, u, w, s).charges
    ensures TablesAfter(v, u, w, s).charges[id].reference == w.tables.charges[id].reference
    ensures TablesAfter(v, u, w, s).charges[id].facts == w.tables.charges[id].facts
  {
    hide Sound, Evolves, CallbackTx, AppliedOnce, Evidence, LogGrows;
    if s.id in u.tables.charges {
      QueryResolvable(v.tables, u.tables, w.tables, s.id, s.code);
      CountAttemptKeeps(w.tables, s.id);
      ResolveOutcome(CountAttempt(w.tables, s.id), s.id, u.tables.charges[s.id],
        Resolution(s.code == SUCCESS, s.code, None, ByQuery), s.now);
    }
  }

  /**
    * A charge with no reference, past the adoption window and with no acknowledgement in flight never
    * gets a reference again: no callback at any later time can match or adopt it.
    */
  lemma {:induction false} AbandonedStaysUnreachable(run: seq<World>, acts: seq<Act>, i: nat, j: nat, id: ChargeId)
    requires IsRun(run, acts) && Quiet(run, acts, i, j, id)
    requires id in run[i].tables.charges && Dormant(run[i].tables, id, run[i].clock)
    ensures Dormant(run[j].tables, id, run[i].clock)
  {
    hide Inv, Grows, Behind, Next, Init;
    if i < j {
      AbandonedStaysUnreachable(run, acts, i, j - 1, id);
      RunKeeps(run, acts, j + 1);
      assert Linked(run, acts, j - 1);
      var a := acts[j - 1];
      BehindInRun(run, j, a.p, a.v, a.u, j - 1);
      assert Grows(run[i], run[j - 1]) && Grows(run[j - 1], run[j]);
      if id in run[j].tables.charges {
        BornAlive(run[i], run[j - 1], run[j], id);
        DormantStep(run[a.p], run[a.v], run[a.u], run[j - 1], run[j], a.step, id, run[i].clock);
      }
    }
  }

  lemma BornAlive(a: World, b: World, c: World, id: ChargeId)
    requires Inv(a) && Grows(a, b) && Grows(b, c) && id in a.tables.charges && id in c.tables.charges
    ensures id in b.tables.charges
  {
    assert id in a.tables.born && id in b.tables.born;
  }

  // ---------------------------------------------------------------- deleting it changes nothing else

  function Without(t: Tables, gone: set<ChargeId>): Tables {
    t.(charges := map id | id in t.charges && id !in gone :: t.charges[id])
  }

  // Rows that hold no reference and that a callback starting at `now` is too late to adopt.
  ghost predicate OutOfReach(t: Tables, gone: set<ChargeId>, now: Instant) {
    forall id :: id in gone ==> Dormant(t, id, now)
  }

  function WithoutTx<T>(tx: Tx<T>, gone: set<ChargeId>): Tx<T> {
    match tx case Aborted => Aborted case Committed(t, x) => Committed(Without(t, gone), x)
  }

  lemma SettleBlind(t: Tables, id: ChargeId, row: Charge, adopted: bool, body: StkBody, verdict: Verdict, now: Instant,
                    gone: set<ChargeId>)
    requires id !in gone
    ensures Settle(Without(t, gone), id, row, adopted, body, verdict, now)
      == WithoutTx(Settle(t, id, row, adopted, body, verdict, now), gone)
  {
    hide Resolve, PutOnHold;
    ResolveBlind(t, id, row, ResolutionOf(body), now, gone);
    HoldBlind(t, id, body.amount, gone);
  }

  lemma HoldBlind(t: Tables, id: ChargeId, reported: Option<int>, gone: set<ChargeId>)
    requires id !in gone
    ensures PutOnHold(Without(t, gone), id, reported) == Without(PutOnHold(t, id, reported), gone)
  {
    assert PutOnHold(Without(t, gone), id, reported).charges == Without(PutOnHold(t, id, reported), gone).charges;
  }

  lemma ResolveBlind(t: Tables, id: ChargeId, row: Charge, r: Resolution, now: Instant, gone: set<ChargeId>)
    requires id !in gone
    ensures Resolve(Without(t, gone), id, row, r, now) == WithoutTx(Resolve(t, id, row, r, now), gone)
  {
    var tx, tx' := Resolve(t, id, row, r, now), Resolve(Without(t, gone), id, row, r, now);
    if tx.Committed? && tx.value {
      assert tx'.tables.charges == Without(tx.tables, gone).charges;
    }
  }

  lemma ClaimBlind(t: Tables, id: ChargeId, r: Reference, gone: set<ChargeId>)
    requires id !in gone && forall g :: g in gone && g in t.charges ==> t.charges[g].reference.None?
    ensures ClaimReference(Without(t, gone), id, r) == WithoutTx(ClaimReference(t, id, r), gone)
  {
    var tx, tx' := ClaimReference(t, id, r), ClaimReference(Without(t, gone), id, r);
    assert ReferenceTaken(Without(t, gone), r) <==> ReferenceTaken(t, r) by {
      if ReferenceTaken(t, r) {
        var h :| h in t.charges && t.charges[h].reference == Some(r);
        assert h in Without(t, gone).charges;
      }
    }
    if tx.Committed? && tx.value {
      assert tx'.tables.charges == Without(tx.tables, gone).charges;
    }
  }

  lemma CandidatesBlind(pool: Tables, body: StkBody, now: Instant, gone: set<ChargeId>)
    requires body.amount.Some? && OutOfReach(pool, gone, now)
    ensures Candidates(Without(pool, gone), body.amount.value, body.msisdn, now)
      == Candidates(pool, body.amount.value, body.msisdn, now)
    ensures Candidates(pool, body.amount.value, body.msisdn, now) !! gone
  {
  }

  lemma OneCandidateBlind(pool: Tables, t: Tables, id: ChargeId, body: StkBody, verdict: Verdict, now: Instant,
                          gone: set<ChargeId>)
    requires body.amount.Some? && OutOfReach(pool, gone, now) && OutOfReach(t, gone, now)
    requires Candidates(pool, body.amount.value, body.msisdn, now) == {id}
    ensures Adopt(Without(pool, gone), Without(t, gone), body, verdict, now)
      == WithoutTx(Adopt(pool, t, body, verdict, now), gone)
  {
    hide Settle, ClaimReference, Candidates;
    CandidatesBlind(pool, body, now, gone);
    assert id in Candidates(pool, body.amount.value, body.msisdn, now);
    CandidateExists(pool, id, body, now);
    ClaimBlind(t, id, body.reference, gone);
    var claim := ClaimReference(t, id, body.reference);
    if claim.Committed? {
      var row := pool.charges[id].(reference := Some(body.reference));
      SettleBlind(claim.tables, id, row, true, body, verdict, now, gone);
    }
  }

  lemma CandidateExists(pool: Tables, id: ChargeId, body: StkBody, now: Instant)
    requires body.amount.Some? && id in Candidates(pool, body.amount.value, body.msisdn, now)
    ensures id in pool.charges
  {
  }

  lemma AdoptBlind(pool: Tables, t: Tables, body: StkBody, verdict: Verdict, now: Instant, gone: set<ChargeId>)
    requires body.amount.Some? && OutOfReach(pool, gone, now) && OutOfReach(t, gone, now)
    ensures Adopt(Without(pool, gone), Without(t, gone), body, verdict, now)
      == WithoutTx(Adopt(pool, t, body, verdict, now), gone)
  {
    hide Settle, ClaimReference, OutOfReach;
    CandidatesBlind(pool, body, now, gone);
    var found := Candidates(pool, body.amount.value, body.msisdn, now);
    if id :| found == {id} {
      OneCandidateBlind(pool, t, id, body, verdict, now, gone);
    }
  }

  lemma HoldersBlind(seen: Tables, r: Reference, gone: set<ChargeId>, now: Instant)
    requires OutOfReach(seen, gone, now)
    ensures Holders(Without(seen, gone), r) == Holders(seen, r) && Holders(seen, r) !! gone
  {
  }

  /** Any callback starting at or after the purge does to the tables without the purged rows what it does with them. */
  lemma PurgeIsInvisible(seen: Tables, pool: Tables, t: Tables, body: StkBody, verdict: Verdict, now: Instant,
                         gone: set<ChargeId>)
    requires Views(seen, pool, t)
    requires OutOfReach(seen, gone, now) && OutOfReach(pool, gone, now) && OutOfReach(t, gone, now)
    ensures CallbackTx(Without(seen, gone), Without(pool, gone), Without(t, gone), body, verdict, now)
      == WithoutTx(CallbackTx(seen, pool, t, body, verdict, now), gone)
  {
    hide Settle, Adopt, OutOfReach, Sound, Evolves;
    HoldersBlind(seen, body.reference, gone, now);
    var holders := Holders(seen, body.reference);
    var t1 := Record(t, body);
    assert Without(t1, gone) == Record(Without(t, gone), body);
    if KeyOf(body) in t.events {
    } else if holders != {} {
      forall id | id in holders
        ensures holders == {id}
        ensures Settle(Without(t1, gone), id, seen.charges[id], false, body, verdict, now)
          == WithoutTx(Settle(t1, id, seen.charges[id], false, body, verdict, now), gone)
      {
        OneHolder(seen, id, body.reference);
        SettleBlind(t1, id, seen.charges[id], false, body, verdict, now, gone);
      }
    } else if body.code == SUCCESS && body.amount.Some? {
      SameReach(t, t1, gone, now);
      AdoptBlind(pool, t1, body, verdict, now, gone);
    }
  }

  lemma SameReach(t: Tables, t1: Tables, gone: set<ChargeId>, now: Instant)
    requires OutOfReach(t, gone, now) && t1.charges == t.charges
    ensures OutOfReach(t1, gone, now)
  {
  }

  lemma OneHolder(seen: Tables, id: ChargeId, r: Reference)
    requires Sound(seen) && id in Holders(seen, r)
    ensures Holders(seen, r) == {id}
  {
    hide OneEffect, Faithful, Shapes;
  }

  /** What purge deletes is out of reach for every later callback, provided the age is at least the window. */
  lemma PurgedRowsAreOutOfReach(t: Tables, purgedAt: Instant, age: int, tenants: Option<set<TenantId>>, now: Instant)
    requires age >= ADOPTION_WINDOW && now >= purgedAt
    ensures var gone := t.charges.Keys - Purge(t, purgedAt - age, tenants).charges.Keys;
      && Purge(t, purgedAt - age, tenants) == Without(t, gone) && OutOfReach(t, gone, now)
  {
    var gone := t.charges.Keys - Purge(t, purgedAt - age, tenants).charges.Keys;
    assert Purge(t, purgedAt - age, tenants).charges == Without(t, gone).charges;
  }

  // Some row this purge may delete could still have been adopted afterwards.
  ghost predicate CouldDeleteAdoptable(purgedAt: Instant, age: int) {
    exists c: Charge, now: Instant ::
      now >= purgedAt && Abandoned(c, purgedAt - age, None) && Adoptable(c, c.facts.amount, c.facts.msisdn, now)
  }

  /** The 5-minute floor alone does not give this: it holds exactly for ages of at least the adoption window. */
  lemma PurgeAgeMustCoverWindow(purgedAt: Instant, age: int)
    ensures !CouldDeleteAdoptable(purgedAt, age) <==> age >= ADOPTION_WINDOW
  {
    if age < ADOPTION_WINDOW {
      var c := NewCharge(Facts(0, 0, 100, 0, purgedAt - ADOPTION_WINDOW));
      assert Abandoned(c, purgedAt - age, None) && Adoptable(c, c.facts.amount, c.facts.msisdn, purgedAt);
    }
  }
}
