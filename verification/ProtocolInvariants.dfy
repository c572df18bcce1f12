/**
  * What every step of the protocol keeps, and what every run therefore keeps: the tables stay Sound,
  * every resolution has its evidence in the log, and callbacks apply at most once.
  */
module ProtocolInvariants {
  import opened Common
  import opened Charges
  import opened ChargeInvariants
  import opened CallbackLemmas
  import opened PosTables
  import opened Protocol

  // ---------------------------------------------------------------- the invariant

  ghost predicate EvidenceFor(log: Log, id: ChargeId, c: Charge) {
    && (c.resolvedBy == Some(ByCallback) && c.reference.Some? ==>
          exists b :: b in log.bodies && b.reference == c.reference.value && c.resultCode == Some(b.code))
    && (c.resolvedBy == Some(ByQuery) && c.reference.Some? && c.resultCode.Some? ==>
          (c.reference.value, c.resultCode.value) in log.answers)
    && (c.status.Failed? && c.resolvedBy.None? ==> id in log.refusals)
  }

  ghost predicate Evidence(w: World) {
    forall id :: id in w.tables.charges ==> EvidenceFor(w.log, id, w.tables.charges[id])
  }

  // The charge a callback settled, found by the reference of the event row.
  ghost predicate SettledByCallback(t: Tables, r: Reference) {
    exists id :: id in t.charges && t.charges[id].reference == Some(r) && t.charges[id].resolvedBy == Some(ByCallback)
  }

  ghost predicate HasApplied(t: Tables, r: Reference) {
    exists k :: k in t.events && t.events[k].applied && k.reference == r
  }

  // Per reference, at most one event is applied, and one is exactly when a callback resolved its charge.
  ghost predicate AppliedOnce(t: Tables) {
    && (forall k, l ::
          k in t.events && l in t.events && t.events[k].applied && t.events[l].applied && k.reference == l.reference
          ==> k == l)
    && (forall k :: k in t.events && t.events[k].applied ==> SettledByCallback(t, k.reference))
    && (forall id :: id in t.charges && t.charges[id].resolvedBy == Some(ByCallback) && t.charges[id].reference.Some? ==>
          HasApplied(t, t.charges[id].reference.value))
  }

  ghost predicate Inv(w: World) {
    Sound(w.tables) && Evidence(w) && AppliedOnce(w.tables)
  }

  ghost predicate LogGrows(a: Log, b: Log) {
    && (forall r :: r in a.pushes ==> r in b.pushes && b.pushes[r] == a.pushes[r])
    && a.acks <= b.acks && a.refusals <= b.refusals && a.answers <= b.answers && a.bodies <= b.bodies
  }

  ghost predicate Grows(a: World, b: World) {
    Evolves(a.tables, b.tables) && LogGrows(a.log, b.log) && a.clock <= b.clock
  }

  // The views of a step: earlier moments of the same run.
  ghost predicate Behind(p: World, v: World, u: World, w: World) {
    && Inv(p) && Inv(v) && Inv(u) && Inv(w)
    && Grows(p, v) && Grows(v, u) && Grows(u, w) && Grows(p, w) && Grows(v, w)
  }

  // ---------------------------------------------------------------- tables

  ghost predicate Keeps(t: Tables, t': Tables) { Sound(t') && Evolves(t, t') }

  lemma SameKeeps(t: Tables)
    requires Sound(t)
    ensures Keeps(t, t)
  {
  }

  /** A write to bookkeeping columns of one row. */
  lemma BookkeepingKeeps(t: Tables, id: ChargeId, c: Charge)
    requires Sound(t) && id in t.charges
    requires c == t.charges[id].(stkAttempts := c.stkAttempts, reconcileAttempts := c.reconcileAttempts, pushNote := c.pushNote)
    ensures Keeps(t, Update(t, id, c))
  {
    assert WellShaped(t.charges[id]);
    UpdateKeeps(t, id, c);
  }

  lemma RefusalKeeps(t: Tables, id: ChargeId, code: Option<int>)
    requires Sound(t)
    ensures Keeps(t, RecordRefusal(t, id, code))
  {
    SameKeeps(t);
    if id in t.charges && t.charges[id].status.Pending? {
      assert WellShaped(t.charges[id]);
      UpdateKeeps(t, id, t.charges[id].(status := Failed, resultCode := code, pushNote := Refused));
    }
  }

  lemma AckKeeps(t: Tables, id: ChargeId, r: Reference)
    requires Sound(t)
    ensures Keeps(t, Rolled(ClaimAck(t, id, r), t))
  {
    SameKeeps(t);
    var claim := ClaimReference(t, id, r);
    if claim.Committed? {
      ClaimKeeps(t, id, r);
      if claim.value {
        BookkeepingKeeps(claim.tables, id, claim.tables.charges[id].(pushNote := Clean));
        EvolvesTransitive(t, claim.tables, NotePush(claim.tables, id, Clean));
      }
    }
  }

  lemma ReleaseKeeps(t: Tables, id: ChargeId)
    requires Sound(t)
    ensures Keeps(t, Release(t, id))
  {
    SameKeeps(t);
    if id in t.charges && t.charges[id].status.Pending? && t.charges[id].hold.Some? {
      assert WellShaped(t.charges[id]);
      UpdateKeeps(t, id, t.charges[id].(hold := None, reconcileAttempts := 0));
    }
  }

  lemma CountAttemptKeeps(t: Tables, id: ChargeId)
    requires Sound(t)
    ensures Keeps(t, CountAttempt(t, id))
  {
    hide Sound, Evolves;
    SameKeeps(t);
    if id in t.charges {
      BookkeepingKeeps(t, id, t.charges[id].(reconcileAttempts := t.charges[id].reconcileAttempts + 1));
    }
  }

  lemma QueryResolvable(v: Tables, u: Tables, t: Tables, id: ChargeId, code: int)
    requires Sound(v) && Sound(u) && Sound(t) && Evolves(v, t) && Evolves(u, t)
    requires id in v.charges && v.charges[id].reference.Some? && id in u.charges
    ensures Resolvable(CountAttempt(t, id), id, u.charges[id], Resolution(code == SUCCESS, code, None, ByQuery))
    ensures id in t.charges && t.charges[id].reference == v.charges[id].reference
  {
    assert id in v.born && id in u.born;
    assert id in t.charges && RowEvolves(v.charges[id], t.charges[id]) && RowEvolves(u.charges[id], t.charges[id]);
  }

  lemma QueryKeeps(v: Tables, u: Tables, t: Tables, id: ChargeId, code: int, now: Instant)
    requires Sound(v) && Sound(u) && Sound(t) && Evolves(v, t) && Evolves(u, t)
    requires id in v.charges && v.charges[id].reference.Some?
    ensures QueryTx(u, t, id, code, now).Committed? && Keeps(t, QueryTx(u, t, id, code, now).tables)
  {
    SameKeeps(t);
    if id in u.charges {
      QueryResolvable(v, u, t, id, code);
      CountAttemptKeeps(t, id);
      var r := Resolution(code == SUCCESS, code, None, ByQuery);
      ResolveKeeps(CountAttempt(t, id), id, u.charges[id], r, now);
      EvolvesTransitive(t, CountAttempt(t, id), QueryTx(u, t, id, code, now).tables);
    }
  }

  lemma TablesKeep(p: World, v: World, u: World, w: World, s: Step)
    requires Sound(v.tables) && Sound(u.tables) && Sound(w.tables)
    requires Evolves(v.tables, w.tables) && Evolves(u.tables, w.tables)
    requires Enabled(p, v, u, w, s)
    ensures Keeps(w.tables, TablesAfter(v, u, w, s))
  {
    hide Sound, Evolves, CallbackTx, QueryTx, VerdictFor, RowsAfter, EventsAfter, PaysOnlyAgreed, ClaimedByOnlyCandidate;
    var t := w.tables;
    SameKeeps(t);
    match s {
      case Insert(id, facts) =>
        if InsertCharge(t, id, facts).Committed? { InsertKeeps(t, id, facts); }
      case PushCounted(id) =>
        if id in t.charges { BookkeepingKeeps(t, id, t.charges[id].(stkAttempts := t.charges[id].stkAttempts + 1)); }
      case NoAckNoted(id) =>
        if id in t.charges { BookkeepingKeeps(t, id, t.charges[id].(pushNote := Unacknowledged)); }
      case RefusalRecorded(id, code) => RefusalKeeps(t, id, code);
      case AckClaimed(id, r) => AckKeeps(t, id, r);
      case LateAckNoted(id, r) =>
        if id in t.charges { BookkeepingKeeps(t, id, t.charges[id].(pushNote := LateAck(r))); }
      case CallbackApplied(body, _, _, verdict, now) => CallbackEffect(v.tables, u.tables, t, body, verdict, now);
      case AttemptCounted(id) => CountAttemptKeeps(t, id);
      case QueryApplied(id, code, now) => QueryKeeps(v.tables, u.tables, t, id, code, now);
      case Released(id) => ReleaseKeeps(t, id);
      case Purged(now, age, tenants) => PurgeKeeps(t, now - age, tenants);
      case EventMarked(id) => OutboxMarkKeeps(t, id, MarkPublished(t, id));
      case SendFailed(id) => OutboxMarkKeeps(t, id, MarkAttempt(t, id));
      case _ =>
    }
  }

  // ---------------------------------------------------------------- evidence

  ghost predicate Calm(c: Charge, d: Charge) {
    d.status == c.status && d.resolvedBy == c.resolvedBy && d.resultCode == c.resultCode
  }

  ghost predicate StatusesKept(t: Tables, t': Tables) {
    forall id :: id in t'.charges ==> id in t.charges && Calm(t.charges[id], t'.charges[id])
  }

  // The steps that may give a charge a status it did not have.
  predicate Decides(s: Step) {
    s.Insert? || s.RefusalRecorded? || s.CallbackApplied? || s.QueryApplied?
  }

  lemma UndecidedKeepsStatuses(v: World, u: World, w: World, s: Step)
    requires !Decides(s)
    ensures StatusesKept(w.tables, TablesAfter(v, u, w, s)) && TablesAfter(v, u, w, s).events == w.tables.events
  {
    hide CallbackTx, QueryTx, Sound, Evolves;
  }

  lemma LogStepGrows(p: World, v: World, u: World, w: World, s: Step)
    requires Enabled(p, v, u, w, s)
    ensures LogGrows(w.log, LogAfter(v, w, s))
  {
    hide VerdictFor, PreCheck;
  }

  /** Rows whose decision stands keep their evidence; every other row must show its own. */
  lemma EvidenceKept(w: World, w': World)
    requires Evidence(w) && Sound(w.tables) && Evolves(w.tables, w'.tables) && LogGrows(w.log, w'.log)
    requires forall id :: id in w'.tables.charges ==>
      || (id in w.tables.charges && Calm(w.tables.charges[id], w'.tables.charges[id]))
      || EvidenceFor(w'.log, id, w'.tables.charges[id])
    ensures Evidence(w')
  {
    hide Sound, Evolves, LogGrows;
    forall id | id in w'.tables.charges ensures EvidenceFor(w'.log, id, w'.tables.charges[id]) {
      if !EvidenceFor(w'.log, id, w'.tables.charges[id]) {
        CalmRowKeepsEvidence(w, w', id);
      }
    }
  }

  lemma CalmRowKeepsEvidence(w: World, w': World, id: ChargeId)
    requires Sound(w.tables) && Evolves(w.tables, w'.tables) && LogGrows(w.log, w'.log)
    requires id in w.tables.charges && id in w'.tables.charges && Calm(w.tables.charges[id], w'.tables.charges[id])
    requires EvidenceFor(w.log, id, w.tables.charges[id])
    ensures EvidenceFor(w'.log, id, w'.tables.charges[id])
  {
    hide OneEffect, UniqueKeys;
    assert id in w.tables.born && WellShaped(w.tables.charges[id]);
    assert RowEvolves(w.tables.charges[id], w'.tables.charges[id]);
  }

  lemma QueryEvidence(p: World, v: World, u: World, w: World, s: Step, id: ChargeId)
    requires Behind(p, v, u, w) && Enabled(p, v, u, w, s) && s.QueryApplied?
    requires id in TablesAfter(v, u, w, s).charges
    ensures id in w.tables.charges
    ensures
      || Calm(w.tables.charges[id], TablesAfter(v, u, w, s).charges[id])
      || EvidenceFor(w.log, id, TablesAfter(v, u, w, s).charges[id])
  {
    hide Sound, Evolves, CallbackTx, Evidence, AppliedOnce, LogGrows;
    if s.id in u.tables.charges {
      QueryResolvable(v.tables, u.tables, w.tables, s.id, s.code);
      CountAttemptKeeps(w.tables, s.id);
      ResolveOutcome(CountAttempt(w.tables, s.id), s.id, u.tables.charges[s.id],
        Resolution(s.code == SUCCESS, s.code, None, ByQuery), s.now);
    }
  }

  lemma CallbackEvidence(p: World, v: World, u: World, w: World, s: Step, id: ChargeId)
    requires Behind(p, v, u, w) && Enabled(p, v, u, w, s) && s.CallbackApplied?
    requires id in TablesAfter(v, u, w, s).charges
    ensures id in w.tables.charges
    ensures
      || Calm(w.tables.charges[id], TablesAfter(v, u, w, s).charges[id])
      || EvidenceFor(w.log, id, TablesAfter(v, u, w, s).charges[id])
  {
    hide Sound, Evolves, CallbackTx, Evidence, AppliedOnce, VerdictFor, EventsAfter, PaysOnlyAgreed, ClaimedByOnlyCandidate;
    CallbackEffect(v.tables, u.tables, w.tables, s.body, s.verdict, s.now);
    assert s.body in w.log.bodies;
  }

  lemma EvidenceStep(p: World, v: World, u: World, w: World, w': World, s: Step)
    requires Behind(p, v, u, w) && Next(p, v, u, w, w', s)
    ensures Evidence(w')
  {
    hide Sound, Evolves, CallbackTx, QueryTx, AppliedOnce, VerdictFor, EvidenceFor, LogGrows, DeliveryAfter, LogAfter;
    TablesKeep(p, v, u, w, s);
    LogStepGrows(p, v, u, w, s);
    forall id | id in w'.tables.charges
      ensures
        || (id in w.tables.charges && Calm(w.tables.charges[id], w'.tables.charges[id]))
        || EvidenceFor(w'.log, id, w'.tables.charges[id])
    {
      if s.CallbackApplied? {
        CallbackEvidence(p, v, u, w, s, id);
        SameLog(v, w, s);
      } else if s.QueryApplied? {
        QueryEvidence(p, v, u, w, s, id);
        SameLog(v, w, s);
      } else if s.Insert? || s.RefusalRecorded? {
        RefusalEvidence(p, v, u, w, s, id);
        SameLog(v, w, s);
      } else {
        UndecidedKeepsStatuses(v, u, w, s);
      }
    }
    EvidenceKept(w, w');
  }

  lemma SameLog(v: World, w: World, s: Step)
    requires Decides(s)
    ensures LogAfter(v, w, s) == w.log
  {
  }

  lemma RefusalEvidence(p: World, v: World, u: World, w: World, s: Step, id: ChargeId)
    requires Enabled(p, v, u, w, s) && (s.Insert? || s.RefusalRecorded?)
    requires id in TablesAfter(v, u, w, s).charges && Sound(w.tables)
    ensures
      || (id in w.tables.charges && Calm(w.tables.charges[id], TablesAfter(v, u, w, s).charges[id]))
      || EvidenceFor(w.log, id, TablesAfter(v, u, w, s).charges[id])
  {
    hide CallbackTx, QueryTx, OneEffect, UniqueKeys, Faithful;
    if s.RefusalRecorded? && id == s.id && id in w.tables.charges { assert WellShaped(w.tables.charges[id]); }
  }

  // ---------------------------------------------------------------- callbacks apply once

  /** A charge a callback settled stays settled under its reference. */
  lemma SettledStays(t: Tables, t': Tables, r: Reference)
    requires Faithful(t) && Shapes(t.charges) && Evolves(t, t') && SettledByCallback(t, r)
    ensures SettledByCallback(t', r)
  {
    var id :| id in t.charges && t.charges[id].reference == Some(r) && t.charges[id].resolvedBy == Some(ByCallback);
    assert id in t.born && WellShaped(t.charges[id]);
    assert id in t'.charges && RowEvolves(t.charges[id], t'.charges[id]);
  }

  // No row becomes resolved by a callback, and those that were keep their reference.
  ghost predicate NoneSettled(t: Tables, t': Tables) {
    forall id :: id in t'.charges && t'.charges[id].resolvedBy == Some(ByCallback) ==>
      id in t.charges && t.charges[id].resolvedBy == Some(ByCallback) && t.charges[id].reference == t'.charges[id].reference
  }

  ghost predicate SameApplied(t: Tables, t': Tables) {
    && t.events.Keys <= t'.events.Keys
    && (forall k :: k in t'.events && t'.events[k].applied <==> k in t.events && t.events[k].applied)
  }

  lemma AppliedStays(t: Tables, t': Tables)
    requires AppliedOnce(t) && Faithful(t) && Shapes(t.charges) && Evolves(t, t')
    requires SameApplied(t, t') && NoneSettled(t, t')
    ensures AppliedOnce(t')
  {
    hide Faithful, Shapes, Evolves;
    forall k | k in t'.events && t'.events[k].applied ensures SettledByCallback(t', k.reference) {
      SettledStays(t, t', k.reference);
    }
    forall id | id in t'.charges && t'.charges[id].resolvedBy == Some(ByCallback) && t'.charges[id].reference.Some?
      ensures HasApplied(t', t'.charges[id].reference.value)
    {
      var r := t'.charges[id].reference.value;
      assert HasApplied(t, r);
      var k :| k in t.events && t.events[k].applied && k.reference == r;
      assert k in t'.events && t'.events[k].applied;
    }
  }

  /** While a charge is still PENDING, no event under its reference has been applied. */
  lemma PendingHasNoApplied(t: Tables, t': Tables, id: ChargeId, r: Reference)
    requires AppliedOnce(t) && Sound(t) && Evolves(t, t') && UniqueKeys(t'.charges)
    requires id in t.charges && id in t'.charges && t.charges[id].status.Pending? && t'.charges[id].reference == Some(r)
    ensures !HasApplied(t, r)
  {
    forall j | j in t.charges && t.charges[j].reference == Some(r) ensures j == id {
      assert j in t.born;
      assert j in t'.charges && RowEvolves(t.charges[j], t'.charges[j]);
    }
    assert WellShaped(t.charges[id]);
    assert HasApplied(t, r) ==> SettledByCallback(t, r);
  }

  lemma AppliedByCallback(t: Tables, t': Tables, body: StkBody, id: ChargeId)
    requires AppliedOnce(t) && Sound(t) && Sound(t') && Evolves(t, t')
    requires KeyOf(body) !in t.events && t'.events == t.events[KeyOf(body) := Event(true, true, 0)]
    requires id in t.charges && id in t'.charges && t.charges[id].status.Pending?
    requires t'.charges[id].reference == Some(body.reference) && t'.charges[id].resolvedBy == Some(ByCallback)
    requires forall j :: j in t'.charges && j != id && t'.charges[j].resolvedBy == Some(ByCallback) ==>
      j in t.charges && t.charges[j].resolvedBy == Some(ByCallback) && t.charges[j].reference == t'.charges[j].reference
    ensures AppliedOnce(t')
  {
    hide Sound, Evolves;
    PendingHasNoApplied(t, t', id, body.reference) by { assert Sound(t'); SoundParts(t'); }
    forall k | k in t'.events && t'.events[k].applied ensures SettledByCallback(t', k.reference) {
      if k != KeyOf(body) {
        SoundParts(t);
        SettledStays(t, t', k.reference);
      }
    }
    forall j | j in t'.charges && t'.charges[j].resolvedBy == Some(ByCallback) && t'.charges[j].reference.Some?
      ensures HasApplied(t', t'.charges[j].reference.value)
    {
      if j == id {
        assert KeyOf(body) in t'.events && t'.events[KeyOf(body)].applied;
      } else {
        var r := t'.charges[j].reference.value;
        assert HasApplied(t, r);
        var k :| k in t.events && t.events[k].applied && k.reference == r;
        assert k in t'.events && t'.events[k].applied;
      }
    }
  }

  lemma SoundParts(t: Tables)
    requires Sound(t)
    ensures Faithful(t) && UniqueKeys(t.charges) && Shapes(t.charges) && OneEffect(t)
  {
  }

  lemma NoneSettledByQuietRows(t: Tables, t': Tables)
    requires Sound(t) && Evolves(t, t')
    requires forall id :: id in t'.charges ==>
      t'.charges[id].resolvedBy == Some(ByCallback) ==> id in t.charges && t.charges[id].resolvedBy == Some(ByCallback)
    ensures NoneSettled(t, t')
  {
    forall id | id in t'.charges && t'.charges[id].resolvedBy == Some(ByCallback)
      ensures id in t.charges && t.charges[id].reference == t'.charges[id].reference
    {
      assert id in t.born && WellShaped(t.charges[id]) && RowEvolves(t.charges[id], t'.charges[id]);
    }
  }

  lemma CallbackAppliedOnce(pool: Tables, t: Tables, body: StkBody, verdict: Verdict, now: Instant, tx: Tx<Disposition>)
    requires Sound(t) && AppliedOnce(t) && Effect(pool, t, body, verdict, now, tx) && tx.Committed?
    ensures AppliedOnce(tx.tables)
  {
    hide AppliedOnce, Evolves, PaysOnlyAgreed, ClaimedByOnlyCandidate, OneEffect, UniqueKeys;
    var t', d := tx.tables, tx.value;
    if d.Settled? && d.applied {
      var id := d.chargeId;
      assert RowAfter(t.charges[id], t'.charges[id], body, true);
      forall j | j in t'.charges && j != id && t'.charges[j].resolvedBy == Some(ByCallback)
        ensures j in t.charges && t.charges[j].resolvedBy == Some(ByCallback) && t.charges[j].reference == t'.charges[j].reference
      {
        assert RowAfter(t.charges[j], t'.charges[j], body, false);
        assert WellShaped(t.charges[j]);
      }
      AppliedByCallback(t, t', body, id);
    } else {
      forall j | j in t'.charges ensures t'.charges[j].resolvedBy == t.charges[j].resolvedBy {
        assert RowAfter(t.charges[j], t'.charges[j], body, false);
      }
      NoneSettledByQuietRows(t, t');
      AppliedStays(t, t');
    }
  }

  lemma AppliedOnceStep(p: World, v: World, u: World, w: World, w': World, s: Step)
    requires Behind(p, v, u, w) && Next(p, v, u, w, w', s)
    ensures AppliedOnce(w'.tables)
  {
    hide Sound, Evolves, AppliedOnce, VerdictFor, LogAfter, DeliveryAfter, CallbackTx, QueryTx, Evidence, LogGrows;
    TablesKeep(p, v, u, w, s);
    var t, t' := w.tables, w'.tables;
    if s.CallbackApplied? {
      CallbackEffect(v.tables, u.tables, t, s.body, s.verdict, s.now);
      var tx := CallbackTx(v.tables, u.tables, t, s.body, s.verdict, s.now);
      if tx.Committed? { CallbackAppliedOnce(u.tables, t, s.body, s.verdict, s.now, tx); }
    } else {
      OthersSettleNone(p, v, u, w, s);
      SoundParts(t);
      NoneSettledByQuietRows(t, t');
      AppliedStays(t, t');
    }
  }

  lemma OthersSettleNone(p: World, v: World, u: World, w: World, s: Step)
    requires Behind(p, v, u, w) && Enabled(p, v, u, w, s) && !s.CallbackApplied?
    ensures TablesAfter(v, u, w, s).events == w.tables.events
    ensures forall id :: id in TablesAfter(v, u, w, s).charges ==>
      TablesAfter(v, u, w, s).charges[id].resolvedBy == Some(ByCallback) ==>
        id in w.tables.charges && w.tables.charges[id].resolvedBy == Some(ByCallback)
  {
    hide Sound, Evolves, AppliedOnce, VerdictFor, CallbackTx, Evidence, LogGrows;
    if !Decides(s) {
      UndecidedKeepsStatuses(v, u, w, s);
    } else if s.QueryApplied? && s.id in u.tables.charges {
      QueryResolvable(v.tables, u.tables, w.tables, s.id, s.code);
      CountAttemptKeeps(w.tables, s.id);
      ResolveOutcome(CountAttempt(w.tables, s.id), s.id, u.tables.charges[s.id],
        Resolution(s.code == SUCCESS, s.code, None, ByQuery), s.now);
    }
  }

  // ---------------------------------------------------------------- one step, then every run

  lemma StepKeeps(p: World, v: World, u: World, w: World, w': World, s: Step)
    requires Behind(p, v, u, w) && Next(p, v, u, w, w', s)
    ensures Inv(w') && Grows(w, w')
  {
    hide Sound, Evolves, AppliedOnce, VerdictFor, CallbackTx, QueryTx, Evidence, LogAfter, DeliveryAfter, LogGrows;
    TablesKeep(p, v, u, w, s);
    LogStepGrows(p, v, u, w, s);
    EvidenceStep(p, v, u, w, w', s);
    AppliedOnceStep(p, v, u, w, w', s);
  }

  lemma GrowsTransitive(a: World, b: World, c: World)
    requires Inv(a) && Inv(b) && Grows(a, b) && Grows(b, c)
    ensures Grows(a, c)
  {
    EvolvesTransitive(a.tables, b.tables, c.tables);
  }

  ghost predicate AllHold(run: seq<World>, n: nat) {
    && n <= |run|
    && (forall i :: 0 <= i < n ==> Inv(run[i]))
    && (forall i, j :: 0 <= i <= j < n ==> Grows(run[i], run[j]))
  }

  lemma InitHolds(w: World)
    requires Init(w)
    ensures Inv(w) && Grows(w, w)
  {
  }

  /** Every moment of every run satisfies the invariant, and any two moments are related by growth. */
  lemma {:induction false} RunKeeps(run: seq<World>, acts: seq<Act>, n: nat)
    requires IsRun(run, acts) && 1 <= n <= |run|
    ensures AllHold(run, n)
  {
    hide Init, Inv, Grows, Next;
    if n == 1 {
      InitHolds(run[0]);
    } else {
      RunKeeps(run, acts, n - 1);
      var i := n - 2;
      assert Linked(run, acts, i);
      var a := acts[i];
      BehindInRun(run, n - 1, a.p, a.v, a.u, i);
      StepKeeps(run[a.p], run[a.v], run[a.u], run[i], run[i + 1], a.step);
      forall j | 0 <= j < n ensures Grows(run[j], run[n - 1]) {
        if j < n - 1 {
          GrowsTransitive(run[j], run[i], run[n - 1]);
        } else {
          GrowsItself(run[n - 1]);
        }
      }
    }
  }

  lemma GrowsItself(w: World)
    requires Inv(w)
    ensures Grows(w, w)
  {
    hide Evidence, AppliedOnce, OneEffect, UniqueKeys, Shapes;
  }

  lemma BehindInRun(run: seq<World>, n: nat, p: nat, v: nat, u: nat, i: nat)
    requires AllHold(run, n) && p <= v <= u <= i < n
    ensures Behind(run[p], run[v], run[u], run[i])
  {
    hide Inv, Grows;
  }
}
