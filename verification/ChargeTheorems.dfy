/** Whole-run theorems about charges: one transition and one effect, evidence for every decision, no guessing. */
module ChargeTheorems {
  import opened Common
  import opened Charges
  import opened ChargeInvariants
  import opened CallbackLemmas
  import opened PosTables
  import opened Protocol
  import opened ProtocolInvariants

  // ---------------------------------------------------------------- one transition, one effect

  /** In every reachable state a charge is PAID exactly when the outbox has its event, which says its own facts. */
  lemma OneEffectPerCharge(run: seq<World>, acts: seq<Act>, i: nat, id: ChargeId)
    requires IsRun(run, acts) && i < |run|
    ensures var t := run[i].tables;
      && (id in t.outbox <==> id in t.charges && t.charges[id].status.Paid?)
      && (id in t.outbox ==>
            var facts, e := t.charges[id].facts, t.outbox[id].event;
            e.chargeId == id && e.saleId == facts.saleId && e.tenantId == facts.tenantId && e.amount == facts.amount
            && t.charges[id].paidAt == Some(e.paidAt))
  {
    RunKeeps(run, acts, i + 1);
    assert Inv(run[i]);
    assert id in run[i].tables.charges ==> WellShaped(run[i].tables.charges[id]);
  }

  /** A decided charge keeps its status, its source and its code for good, and is never purged. */
  lemma TerminalForever(run: seq<World>, acts: seq<Act>, i: nat, j: nat, id: ChargeId)
    requires IsRun(run, acts) && i <= j < |run|
    requires id in run[i].tables.charges && !run[i].tables.charges[id].status.Pending?
    ensures id in run[j].tables.charges
    ensures var c, d := run[i].tables.charges[id], run[j].tables.charges[id];
      d.status == c.status && d.resolvedBy == c.resolvedBy && d.resultCode == c.resultCode && d.paidAt == c.paidAt
      && d.facts == c.facts
  {
    RunKeeps(run, acts, j + 1);
    assert Inv(run[i]) && Grows(run[i], run[j]);
    assert id in run[i].tables.born;
    assert RowEvolves(run[i].tables.charges[id], run[j].tables.charges[id]);
  }

  /** A reference is written once and identifies one charge. */
  lemma ReferenceWrittenOnce(run: seq<World>, acts: seq<Act>, i: nat, j: nat, id: ChargeId, other: ChargeId)
    requires IsRun(run, acts) && i <= j < |run|
    requires id in run[i].tables.charges && run[i].tables.charges[id].reference.Some?
    ensures id in run[j].tables.charges && run[j].tables.charges[id].reference == run[i].tables.charges[id].reference
    ensures other in run[j].tables.charges && run[j].tables.charges[other].reference == run[i].tables.charges[id].reference
      ==> other == id
  {
    RunKeeps(run, acts, j + 1);
    assert Inv(run[i]) && Grows(run[i], run[j]) && Inv(run[j]);
    assert id in run[i].tables.born;
    assert RowEvolves(run[i].tables.charges[id], run[j].tables.charges[id]);
  }

  /** Neither a callback nor a query answer moves a charge that is on hold at commit, however stale the read. */
  lemma HeldChargesDoNotMove(run: seq<World>, acts: seq<Act>, i: nat, id: ChargeId)
    requires IsRun(run, acts) && i < |acts| && (acts[i].step.CallbackApplied? || acts[i].step.QueryApplied?)
    requires id in run[i].tables.charges && run[i].tables.charges[id].hold.Some?
    ensures id in run[i + 1].tables.charges && run[i + 1].tables.charges[id].status == run[i].tables.charges[id].status
  {
    hide Init, Grows, AppliedOnce, Evidence, CallbackTx, VerdictFor, Evolves, Sound, EventsAfter, PaysOnlyAgreed,
      ClaimedByOnlyCandidate;
    RunKeeps(run, acts, i + 1);
    assert Linked(run, acts, i);
    var a := acts[i];
    var p, v, u, w := run[a.p], run[a.v], run[a.u], run[i];
    BehindInRun(run, i + 1, a.p, a.v, a.u, i);
    ViewsBehind(p, v, u, w);
    if a.step.CallbackApplied? {
      CallbackEffect(v.tables, u.tables, w.tables, a.step.body, a.step.verdict, a.step.now);
    } else if a.step.id in u.tables.charges {
      QueryResolvable(v.tables, u.tables, w.tables, a.step.id, a.step.code);
      CountAttemptKeeps(w.tables, a.step.id);
      ResolveOutcome(CountAttempt(w.tables, a.step.id), a.step.id, u.tables.charges[a.step.id],
        Resolution(a.step.code == SUCCESS, a.step.code, None, ByQuery), a.step.now);
    }
  }

  lemma ViewsBehind(p: World, v: World, u: World, w: World)
    requires Behind(p, v, u, w)
    ensures Views(v.tables, u.tables, w.tables)
  {
  }

  /** Per reference at most one callback event is applied, and one is exactly when `resolved_by` says callback. */
  lemma CallbacksApplyOnce(run: seq<World>, acts: seq<Act>, i: nat, k: EventKey, l: EventKey, id: ChargeId)
    requires IsRun(run, acts) && i < |run|
    ensures var t := run[i].tables;
      && (k in t.events && l in t.events && t.events[k].applied && t.events[l].applied && k.reference == l.reference ==> k == l)
      && (id in t.charges && t.charges[id].reference.Some? ==>
            (HasApplied(t, t.charges[id].reference.value) <==> t.charges[id].resolvedBy == Some(ByCallback)))
  {
    RunKeeps(run, acts, i + 1);
    assert Inv(run[i]);
    var t := run[i].tables;
    if id in t.charges && t.charges[id].reference.Some? && HasApplied(t, t.charges[id].reference.value) {
      var r := t.charges[id].reference.value;
      assert SettledByCallback(t, r);
      var j :| j in t.charges && t.charges[j].reference == Some(r) && t.charges[j].resolvedBy == Some(ByCallback);
      assert j == id;
    }
  }

  // ---------------------------------------------------------------- a timeout is not a decline

  // What can justify FAILED.
  ghost predicate Declined(log: Log, id: ChargeId, c: Charge) {
    || id in log.refusals
    || (c.reference.Some? && exists b :: b in log.bodies && b.reference == c.reference.value && b.code != SUCCESS)
    || (c.reference.Some? && exists a :: a in log.answers && a.0 == c.reference.value && a.1 != SUCCESS)
  }

  /** A charge is FAILED only after a push rejection, a non-zero callback or a complete non-zero query. */
  lemma FailedOnlyWhenDeclined(run: seq<World>, acts: seq<Act>, i: nat, id: ChargeId)
    requires IsRun(run, acts) && i < |run|
    requires id in run[i].tables.charges && run[i].tables.charges[id].status.Failed?
    ensures Declined(run[i].log, id, run[i].tables.charges[id])
  {
    hide OneEffect, UniqueKeys, Faithful, AppliedOnce, Grows;
    RunKeeps(run, acts, i + 1);
    var c, log := run[i].tables.charges[id], run[i].log;
    assert Inv(run[i]);
    assert WellShaped(c) && EvidenceFor(log, id, c);
    match c.resolvedBy
    case None =>
    case Some(ByCallback) =>
      var b :| b in log.bodies && b.reference == c.reference.value && c.resultCode == Some(b.code);
      assert b.code != SUCCESS;
    case Some(ByQuery) =>
      var a := (c.reference.value, c.resultCode.value);
      assert a in log.answers && a.1 != SUCCESS;
  }

  // A success callback the provider did not confirm decides nothing.
  predicate Unsure(s: Step) {
    s.CallbackApplied? && s.body.code == SUCCESS && (s.verdict.Unconfirmed? || s.verdict.Contradicted?)
  }

  // The callback is for this charge: it holds the reference, or it is the one charge adoption may give it to.
  ghost predicate Reaches(u: World, w: World, body: StkBody, now: Instant, id: ChargeId) {
    || (id in w.tables.charges && w.tables.charges[id].reference == Some(body.reference))
    || (body.code == SUCCESS && body.amount.Some? && Candidates(u.tables, body.amount.value, body.msisdn, now) == {id})
  }

  // A definite answer about this charge: its push rejection, a complete query, or a callback that says something sure.
  ghost predicate AnswersFor(u: World, w: World, s: Step, id: ChargeId) {
    match s
    case RefusalRecorded(j, _) => j == id
    case QueryApplied(j, _, _) => j == id
    case CallbackApplied(body, _, _, _, now) => !Unsure(s) && Reaches(u, w, body, now, id)
    case _ => false
  }

  lemma UnansweredStep(p: World, v: World, u: World, w: World, w': World, s: Step, id: ChargeId)
    requires Behind(p, v, u, w) && Next(p, v, u, w, w', s) && !AnswersFor(u, w, s, id)
    requires id in w.tables.born && id in w'.tables.charges
    ensures id in w.tables.charges && Calm(w.tables.charges[id], w'.tables.charges[id])
  {
    hide Sound, Evolves, CallbackTx, QueryTx, AppliedOnce, Evidence, VerdictFor, LogAfter, DeliveryAfter, LogGrows, EventsAfter;
    if s.CallbackApplied? {
      ViewsBehind(p, v, u, w);
      CallbackEffect(v.tables, u.tables, w.tables, s.body, s.verdict, s.now);
    } else if s.QueryApplied? {
      QueryElsewhere(p, v, u, w, s, id);
    } else if !Decides(s) {
      UndecidedKeepsStatuses(v, u, w, s);
    }
  }

  lemma QueryElsewhere(p: World, v: World, u: World, w: World, s: Step, id: ChargeId)
    requires Behind(p, v, u, w) && Enabled(p, v, u, w, s) && s.QueryApplied? && s.id != id
    requires id in TablesAfter(v, u, w, s).charges
    ensures id in w.tables.charges && TablesAfter(v, u, w, s).charges[id] == w.tables.charges[id]
  {
    hide Sound, Evolves, CallbackTx, AppliedOnce, Evidence, LogGrows;
    if s.id in u.tables.charges {
      QueryResolvable(v.tables, u.tables, w.tables, s.id, s.code);
      CountAttemptKeeps(w.tables, s.id);
      ResolveOutcome(CountAttempt(w.tables, s.id), s.id, u.tables.charges[s.id],
        Resolution(s.code == SUCCESS, s.code, None, ByQuery), s.now);
    }
  }

  // No step from moment i to moment j answers for this charge.
  ghost predicate Unanswered(run: seq<World>, acts: seq<Act>, i: nat, j: nat, id: ChargeId) {
    && |run| == |acts| + 1 && i <= j < |run|
    && forall k :: i <= k < j ==> acts[k].u <= k && !AnswersFor(run[acts[k].u], run[k], acts[k].step, id)
  }

  /**
    * A charge keeps its status, source and code through any stretch that holds no definite answer for it:
    * timeouts, transport errors, pending queries, unconfirmed callbacks, and whatever happens to others.
    */
  lemma {:induction false} NoGuessing(run: seq<World>, acts: seq<Act>, i: nat, j: nat, id: ChargeId)
    requires IsRun(run, acts) && Unanswered(run, acts, i, j, id)
    requires id in run[i].tables.charges && id in run[j].tables.charges
    ensures Calm(run[i].tables.charges[id], run[j].tables.charges[id])
  {
    hide Init, Next, Inv, Grows, Behind, AnswersFor;
    if i < j {
      RunKeeps(run, acts, j);
      assert Linked(run, acts, j - 1);
      var a := acts[j - 1];
      BehindInRun(run, j, a.p, a.v, a.u, j - 1);
      BornStays(run, j, i, j - 1, id);
      UnansweredStep(run[a.p], run[a.v], run[a.u], run[j - 1], run[j], a.step, id);
      NoGuessing(run, acts, i, j - 1, id);
    }
  }

  lemma BornStays(run: seq<World>, n: nat, i: nat, j: nat, id: ChargeId)
    requires AllHold(run, n) && i <= j < n && id in run[i].tables.charges
    ensures id in run[j].tables.born
  {
    assert Inv(run[i]) && Grows(run[i], run[j]);
  }

  // ---------------------------------------------------------------- PAID needs provider evidence

  // The operator leaves confirmation on, and charges stand still from a pre-check to its transaction.
  ghost predicate Confirming(run: seq<World>, acts: seq<Act>) {
    |run| == |acts| + 1 &&
    forall i :: 0 <= i < |acts| && acts[i].step.CallbackApplied? ==>
      acts[i].step.confirm
      && forall k :: acts[i].p <= k <= i ==> run[k].tables.charges == run[i].tables.charges
  }

  ghost predicate Answered(w: World) {
    forall id :: id in w.tables.charges && w.tables.charges[id].status.Paid? ==>
      w.tables.charges[id].reference.Some? && (w.tables.charges[id].reference.value, SUCCESS) in w.log.answers
  }

  /** The pre-check covers every charge the transaction could pay: nothing to ask about means nothing to pay. */
  lemma PreCheckCovers(pre: Tables, seen: Tables, pool: Tables, t: Tables, body: StkBody, verdict: Verdict,
                       at: Instant, now: Instant)
    requires Views(seen, pool, t) && pool.charges == t.charges && pre.charges == t.charges && at <= now
    requires body.code == SUCCESS && !PreCheck(pre, body, at)
    ensures var tx := CallbackTx(seen, pool, t, body, verdict, now);
      tx.Committed? ==> !(tx.value.Settled? && tx.value.applied) && StatusesKept(t, tx.tables)
  {
    hide CallbackTx, Sound, Evolves, EventsAfter, PreCheck;
    CallbackEffect(seen, pool, t, body, verdict, now);
    var tx := CallbackTx(seen, pool, t, body, verdict, now);
    if tx.Committed? && tx.value.Settled? && tx.value.applied {
      var id := tx.value.chargeId;
      assert RowAfter(t.charges[id], tx.tables.charges[id], body, true);
      if t.charges[id].reference.None? {
        assert Candidates(pool, body.amount.value, body.msisdn, now) == {id};
        assert id in Candidates(pool, body.amount.value, body.msisdn, now);
      }
      PreCheckFinds(pre, body, at, id);
    }
  }

  lemma PreCheckFinds(pre: Tables, body: StkBody, at: Instant, id: ChargeId)
    requires Open(pre, id)
    requires pre.charges[id].reference == Some(body.reference)
      || (body.amount.Some? && Adoptable(pre.charges[id], body.amount.value, body.msisdn, at))
    ensures PreCheck(pre, body, at)
  {
  }

  lemma PaidStays(w: World, w': World, id: ChargeId)
    requires Inv(w) && Grows(w, w') && id in w.tables.charges && id in w'.tables.charges && w.tables.charges[id].reference.Some?
    ensures w'.tables.charges[id].reference == w.tables.charges[id].reference && w.log.answers <= w'.log.answers
  {
    assert id in w.tables.born;
    assert RowEvolves(w.tables.charges[id], w'.tables.charges[id]);
  }

  // The k-th act is a callback that pays the charge although its pre-check had found nothing to ask about.
  ghost predicate PaysUnchecked(run: seq<World>, acts: seq<Act>, k: nat, id: ChargeId) {
    && k < |acts| && |run| == |acts| + 1 && acts[k].step.CallbackApplied? && acts[k].step.body.code == SUCCESS
    && acts[k].p <= k && acts[k].v <= k && acts[k].u <= k
    && !PreCheck(run[acts[k].p].tables, acts[k].step.body, acts[k].step.at)
    && var s := acts[k].step;
       var tx := CallbackTx(run[acts[k].v].tables, run[acts[k].u].tables, run[k].tables, s.body, s.verdict, s.now);
       tx.Committed? && Resolves(tx.value, id)
  }

  ghost predicate PaidUnchecked(run: seq<World>, acts: seq<Act>, i: nat, id: ChargeId) {
    exists k :: 0 <= k < i && PaysUnchecked(run, acts, k, id)
  }

  ghost predicate AnsweredZero(w: World, id: ChargeId) {
    && id in w.tables.charges && w.tables.charges[id].reference.Some?
    && (w.tables.charges[id].reference.value, SUCCESS) in w.log.answers
  }

  lemma NewlyPaid(run: seq<World>, acts: seq<Act>, i: nat, id: ChargeId)
    requires IsRun(run, acts) && i < |acts| && AllHold(run, i + 2)
    requires acts[i].step.CallbackApplied? ==> acts[i].step.confirm
    requires id in run[i + 1].tables.charges && run[i + 1].tables.charges[id].status.Paid?
    requires id in run[i].tables.charges ==> !run[i].tables.charges[id].status.Paid?
    ensures AnsweredZero(run[i + 1], id) || PaysUnchecked(run, acts, i, id)
  {
    hide Init, Sound, Evolves, AppliedOnce, CallbackTx, QueryTx, DeliveryAfter, PreCheck, LogGrows, Evidence, Grows;
    assert Linked(run, acts, i);
    var a := acts[i];
    var p, v, u, w, s := run[a.p], run[a.v], run[a.u], run[i], a.step;
    BehindInRun(run, i + 1, a.p, a.v, a.u, i);
    if s.CallbackApplied? {
      ViewsBehind(p, v, u, w);
      CallbackEffect(v.tables, u.tables, w.tables, s.body, s.verdict, s.now);
    } else if s.QueryApplied? {
      NewlyPaidByQuery(p, v, u, w, run[i + 1], s, id);
    } else if !Decides(s) {
      UndecidedKeepsStatuses(v, u, w, s);
    }
  }

  lemma NewlyPaidByQuery(p: World, v: World, u: World, w: World, w': World, s: Step, id: ChargeId)
    requires Behind(p, v, u, w) && Next(p, v, u, w, w', s) && Inv(w') && s.QueryApplied?
    requires id in w'.tables.charges && w'.tables.charges[id].status.Paid?
    requires id in w.tables.charges ==> !w.tables.charges[id].status.Paid?
    ensures w'.tables.charges[id].reference.Some? && (w'.tables.charges[id].reference.value, SUCCESS) in w'.log.answers
  {
    hide Evolves, AppliedOnce, CallbackTx, DeliveryAfter, LogGrows, OneEffect, UniqueKeys, Faithful, Grows;
    QueryEvidence(p, v, u, w, s, id);
    assert WellShaped(w'.tables.charges[id]);
    assert EvidenceFor(w.log, id, w'.tables.charges[id]);
    QueryNeverByCallback(p, v, u, w, s, id);
  }

  lemma QueryNeverByCallback(p: World, v: World, u: World, w: World, s: Step, id: ChargeId)
    requires Behind(p, v, u, w) && Enabled(p, v, u, w, s) && s.QueryApplied? && id in TablesAfter(v, u, w, s).charges
    requires id in w.tables.charges ==> w.tables.charges[id].status != TablesAfter(v, u, w, s).charges[id].status
    ensures TablesAfter(v, u, w, s).charges[id].resolvedBy == Some(ByQuery)
  {
    hide Sound, Evolves, AppliedOnce, CallbackTx, LogGrows, Evidence;
    if s.id in u.tables.charges {
      QueryResolvable(v.tables, u.tables, w.tables, s.id, s.code);
      CountAttemptKeeps(w.tables, s.id);
      ResolveOutcome(CountAttempt(w.tables, s.id), s.id, u.tables.charges[s.id],
        Resolution(s.code == SUCCESS, s.code, None, ByQuery), s.now);
    }
  }

  // Confirmation is on.
  ghost predicate AlwaysConfirms(acts: seq<Act>) {
    forall i :: 0 <= i < |acts| && acts[i].step.CallbackApplied? ==> acts[i].step.confirm
  }

  /**
    * With confirmation on, whatever bodies arrive and however charges move meanwhile: a PAID charge's
    * reference was answered complete/0, unless a callback whose pre-check found nothing paid it.
    */
  lemma {:induction false} PaidIsAnsweredOrUnchecked(run: seq<World>, acts: seq<Act>, i: nat, id: ChargeId)
    requires IsRun(run, acts) && AlwaysConfirms(acts) && i < |run|
    requires id in run[i].tables.charges && run[i].tables.charges[id].status.Paid?
    ensures AnsweredZero(run[i], id) || PaidUnchecked(run, acts, i, id)
  {
    hide Grows, Inv, Linked, PaysUnchecked;
    RunKeeps(run, acts, i + 1);
    if i > 0 {
      if id in run[i - 1].tables.charges && run[i - 1].tables.charges[id].status.Paid? {
        PaidIsAnsweredOrUnchecked(run, acts, i - 1, id);
        if AnsweredZero(run[i - 1], id) { PaidStays(run[i - 1], run[i], id); }
      } else {
        NewlyPaid(run, acts, i - 1, id);
      }
    }
  }

  // Every callback that pays had a charge to ask about: a condition on each transaction alone.
  ghost predicate PreChecked(run: seq<World>, acts: seq<Act>) {
    forall k, id :: !PaysUnchecked(run, acts, k, id)
  }

  /** When charges stand still from a pre-check to its transaction, that is so. */
  lemma StandingStillIsPreChecked(run: seq<World>, acts: seq<Act>)
    requires IsRun(run, acts) && Confirming(run, acts)
    ensures PreChecked(run, acts) && AlwaysConfirms(acts)
  {
    hide IsRun;
    forall k: nat, id: ChargeId ensures !PaysUnchecked(run, acts, k, id) {
      if k < |acts| && acts[k].step.CallbackApplied? { StandingStillStep(run, acts, k, id); }
    }
  }

  lemma StandingStillStep(run: seq<World>, acts: seq<Act>, k: nat, id: ChargeId)
    requires IsRun(run, acts) && Confirming(run, acts) && k < |acts| && acts[k].step.CallbackApplied?
    ensures !PaysUnchecked(run, acts, k, id)
  {
    hide Init, Grows, Inv, PreCheck, Sound, Evolves, CallbackTx;
    RunKeeps(run, acts, k + 1);
    assert Linked(run, acts, k);
    var a := acts[k];
    BehindInRun(run, k + 1, a.p, a.v, a.u, k);
    ViewsBehind(run[a.p], run[a.v], run[a.u], run[k]);
    if a.step.body.code == SUCCESS && !PreCheck(run[a.p].tables, a.step.body, a.step.at) {
      PreCheckCovers(run[a.p].tables, run[a.v].tables, run[a.u].tables, run[k].tables, a.step.body, a.step.verdict,
        a.step.at, a.step.now);
    }
  }

  /** With confirmation on and pre-checks that do not miss, every PAID charge's reference was answered complete/0. */
  lemma PaidHasProviderEvidence(run: seq<World>, acts: seq<Act>, i: nat)
    requires IsRun(run, acts) && AlwaysConfirms(acts) && PreChecked(run, acts) && i < |run|
    ensures Answered(run[i])
  {
    hide IsRun, PaysUnchecked;
    forall id | id in run[i].tables.charges && run[i].tables.charges[id].status.Paid? ensures AnsweredZero(run[i], id) {
      PaidIsAnsweredOrUnchecked(run, acts, i, id);
    }
  }

  /**
    * Without the standing-still hypothesis the evidence can be missing, exactly when the pre-check found
    * nothing to ask about: a paying callback was confirmed if and only if its pre-check found a charge.
    */
  lemma ConfirmedIffPreChecked(pre: Tables, log: Log, seen: Tables, pool: Tables, t: Tables,
                               body: StkBody, verdict: Verdict, at: Instant, now: Instant)
    requires Views(seen, pool, t) && VerdictFor(pre, log, body, true, at, verdict) && body.code == SUCCESS
    requires var tx := CallbackTx(seen, pool, t, body, verdict, now); tx.Committed? && tx.value.Settled? && tx.value.applied
    ensures verdict.Confirmed? <==> PreCheck(pre, body, at)
    ensures PreCheck(pre, body, at) ==> (body.reference, SUCCESS) in log.answers
  {
    hide CallbackTx, Sound, Evolves, PreCheck;
    CallbackEffect(seen, pool, t, body, verdict, now);
  }

  // One charge on its own, and the same charge once it holds a reference.
  function Lone(c: Charge): Tables {
    Empty.(born := map[1 := c.facts], charges := map[1 := c])
  }

  /** That happens when an acknowledgement lands between the pre-check and the transaction. */
  lemma PreCheckCanMiss(c: Charge, body: StkBody)
    requires c == NewCharge(c.facts) && body.code == SUCCESS && body.amount == Some(c.facts.amount)
    requires body.msisdn != c.facts.msisdn
    ensures VerdictFor(Lone(c), Log(map[], {}, {}, {}, {}), body, true, 0, NotRequired)
    ensures var t := Rolled(ClaimAck(Lone(c), 1, body.reference), Lone(c));
      && Views(t, t, t) && Evolves(Lone(c), t)
      && var tx := CallbackTx(t, t, t, body, NotRequired, 0);
         tx.Committed? && 1 in tx.tables.charges && tx.tables.charges[1].status.Paid?
  {
    var t := Rolled(ClaimAck(Lone(c), 1, body.reference), Lone(c));
    LoneSound(c);
    hide Sound, Evolves;
    AckKeeps(Lone(c), 1, body.reference);
    SameKeeps(t);
    assert Holders(t, body.reference) == {1};
  }

  lemma LoneSound(c: Charge)
    requires c == NewCharge(c.facts)
    ensures Sound(Lone(c))
  {
  }
}
