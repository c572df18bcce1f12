/**
  * Holds: a success callback for another amount puts its charge on hold, and from then on nothing but
  * the operator lifts the hold and nothing but a recorded push rejection moves the charge.
  */
module HoldTheorems {
  import opened Common
  import opened Charges
  import opened ChargeInvariants
  import opened CallbackLemmas
  import opened Protocol
  import opened ProtocolInvariants
  import opened ChargeTheorems
  import opened PurgeSafety

  /** The first delivery of a success for another amount holds the charge it matches, and changes nothing else in it. */
  lemma MismatchHolds(seen: Tables, pool: Tables, t: Tables, body: StkBody, verdict: Verdict, now: Instant, id: ChargeId)
    requires Views(seen, pool, t) && KeyOf(body) !in t.events && body.code == SUCCESS
    requires id in Holders(seen, body.reference) && body.amount != Some(seen.charges[id].facts.amount)
    ensures var tx := CallbackTx(seen, pool, t, body, verdict, now);
      && tx.Committed? && tx.value == HeldForReview(id, false) && id in t.charges
      && tx.tables.charges == (if Open(t, id) then t.charges[id := t.charges[id].(hold := Some(AmountMismatch(body.amount)))]
                               else t.charges)
      && tx.tables.outbox == t.outbox
  {
    StillHeld(seen, t, id, body.reference);
    OneHolder(seen, id, body.reference);
    hide Sound, Evolves, Settle;
    MismatchSettles(t, id, seen.charges[id], body, verdict, now);
    assert forall other :: other in Holders(seen, body.reference) ==> other == id;
  }

  lemma MismatchSettles(t: Tables, id: ChargeId, row: Charge, body: StkBody, verdict: Verdict, now: Instant)
    requires body.code == SUCCESS && body.amount != Some(row.facts.amount)
    ensures var tx := Settle(Record(t, body), id, row, false, body, verdict, now);
      && tx.Committed? && tx.value == HeldForReview(id, false)
      && tx.tables.charges == (if Open(t, id) then t.charges[id := t.charges[id].(hold := Some(AmountMismatch(body.amount)))]
                               else t.charges)
      && tx.tables.outbox == t.outbox
  {
  }

  // A recorded push rejection fails a PENDING charge, on hold or not.
  function StatusAfter(status: Status, refused: bool): Status {
    if refused && status.Pending? then Failed else status
  }

  lemma HoldStep(p: World, v: World, u: World, w: World, w': World, s: Step, id: ChargeId)
    requires Behind(p, v, u, w) && Next(p, v, u, w, w', s)
    requires id in w.tables.charges && w.tables.charges[id].hold.Some? && s != Released(id)
    ensures id in w'.tables.charges && w'.tables.charges[id].hold == w.tables.charges[id].hold
    ensures w'.tables.charges[id].status == StatusAfter(w.tables.charges[id].status, s.RefusalRecorded? && s.id == id)
  {
    hide Sound, Evolves, CallbackTx, QueryTx, VerdictFor, LogAfter, DeliveryAfter, AppliedOnce, Evidence, LogGrows,
      EventsAfter, PaysOnlyAgreed, ClaimedByOnlyCandidate;
    if s.CallbackApplied? {
      ViewsBehind(p, v, u, w);
      CallbackEffect(v.tables, u.tables, w.tables, s.body, s.verdict, s.now);
    } else if s.QueryApplied? {
      HoldThroughQuery(p, v, u, w, s, id);
    } else {
      SoundParts(w.tables);
      HoldElsewhere(p, v, u, w, s, id);
    }
  }

  lemma HoldElsewhere(p: World, v: World, u: World, w: World, s: Step, id: ChargeId)
    requires Enabled(p, v, u, w, s) && Faithful(w.tables) && Shapes(w.tables.charges)
    requires id in w.tables.charges && w.tables.charges[id].hold.Some?
    requires s != Released(id) && !s.CallbackApplied? && !s.QueryApplied?
    ensures var t' := TablesAfter(v, u, w, s);
      id in t'.charges && t'.charges[id].hold == w.tables.charges[id].hold
      && t'.charges[id].status == StatusAfter(w.tables.charges[id].status, s.RefusalRecorded? && s.id == id)
  {
    HoldStays(p, v, u, w, s, id);
    hide CallbackTx, QueryTx, VerdictFor, SaleTaken, ReferenceTaken;
    if !Decides(s) {
      UndecidedKeepsStatuses(v, u, w, s);
      hide TablesAfter;
    }
  }

  lemma HoldStays(p: World, v: World, u: World, w: World, s: Step, id: ChargeId)
    requires Enabled(p, v, u, w, s) && Faithful(w.tables) && Shapes(w.tables.charges)
    requires id in w.tables.charges && w.tables.charges[id].hold.Some?
    requires s != Released(id) && !s.CallbackApplied? && !s.QueryApplied?
    ensures var t' := TablesAfter(v, u, w, s); id in t'.charges && t'.charges[id].hold == w.tables.charges[id].hold
  {
    hide CallbackTx, QueryTx, VerdictFor, SaleTaken, ReferenceTaken;
    assert WellShaped(w.tables.charges[id]);
  }

  lemma HoldThroughQuery(p: World, v: World, u: World, w: World, s: Step, id: ChargeId)
    requires Behind(p, v, u, w) && Enabled(p, v, u, w, s) && s.QueryApplied?
    requires id in w.tables.charges && w.tables.charges[id].hold.Some?
    ensures var t' := TablesAfter(v, u, w, s);
      id in t'.charges && t'.charges[id].hold == w.tables.charges[id].hold
      && t'.charges[id].status == w.tables.charges[id].status
  {
    hide Sound, Evolves, CallbackTx, AppliedOnce, Evidence, LogGrows;
    if s.id in u.tables.charges {
      QueryResolvable(v.tables, u.tables, w.tables, s.id, s.code);
      CountAttemptKeeps(w.tables, s.id);
      ResolveOutcome(CountAttempt(w.tables, s.id), s.id, u.tables.charges[s.id],
        Resolution(s.code == SUCCESS, s.code, None, ByQuery), s.now);
    }
  }

  // No operator releases the charge from moment i to moment j.
  ghost predicate Unreleased(acts: seq<Act>, i: nat, j: nat, id: ChargeId) {
    forall k :: i <= k < j && k < |acts| ==> acts[k].step != Released(id)
  }

  // A push rejection for the charge is recorded between moments i and j.
  ghost predicate RefusedBetween(acts: seq<Act>, i: nat, j: nat, id: ChargeId) {
    exists k :: i <= k < j && k < |acts| && acts[k].step.RefusalRecorded? && acts[k].step.id == id
  }

  lemma RefusedLater(acts: seq<Act>, i: nat, j: nat, id: ChargeId)
    requires i < j <= |acts|
    ensures RefusedBetween(acts, i, j, id) <==>
      RefusedBetween(acts, i, j - 1, id) || (acts[j - 1].step.RefusalRecorded? && acts[j - 1].step.id == id)
  {
    if RefusedBetween(acts, i, j, id) {
      var k :| i <= k < j && k < |acts| && acts[k].step.RefusalRecorded? && acts[k].step.id == id;
      assert k < j - 1 || k == j - 1;
    }
  }

  /**
    * Until an operator releases it a held charge keeps its hold, and its status changes exactly when a
    * rejection of its own push is recorded while it is PENDING.
    */
  lemma {:induction false} HeldUntilReleased(run: seq<World>, acts: seq<Act>, i: nat, j: nat, id: ChargeId)
    requires IsRun(run, acts) && i <= j < |run| && Unreleased(acts, i, j, id)
    requires id in run[i].tables.charges && run[i].tables.charges[id].hold.Some?
    ensures id in run[j].tables.charges && run[j].tables.charges[id].hold == run[i].tables.charges[id].hold
    ensures run[j].tables.charges[id].status
      == StatusAfter(run[i].tables.charges[id].status, RefusedBetween(acts, i, j, id))
  {
    hide Init, Next, Inv, Grows, Behind, RefusedBetween;
    if i < j {
      HeldUntilReleased(run, acts, i, j - 1, id);
      RunKeeps(run, acts, j);
      assert Linked(run, acts, j - 1);
      var a := acts[j - 1];
      BehindInRun(run, j, a.p, a.v, a.u, j - 1);
      HoldStep(run[a.p], run[a.v], run[a.u], run[j - 1], run[j], a.step, id);
      RefusedLater(acts, i, j, id);
    } else {
      NotRefusedYet(acts, i, id);
    }
  }

  lemma NotRefusedYet(acts: seq<Act>, i: nat, id: ChargeId)
    ensures !RefusedBetween(acts, i, i, id)
  {
  }
}
