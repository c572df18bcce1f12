/**
  * The reconciler's passes as runs of the protocol. Every look at a charge is a step of its own, so passes
  * overlap and crash as they like; one that runs by itself is the pass runReconcileOnce is; and however they
  * overlap there is a bound on how often a charge can be looked at.
  */
module Looks {
  import opened Common
  import opened Charges
  import opened ChargeInvariants
  import opened CallbackLemmas
  import opened Protocol
  import opened ProtocolInvariants
  import opened ChargeTheorems
  import opened Reconciler

  // ---------------------------------------------------------------- looks and passes

  // A look that counts: the attempt alone, or together with what a complete answer says.
  predicate IsLook(s: Step, id: ChargeId) {
    s == AttemptCounted(id) || (s.QueryApplied? && s.id == id)
  }

  /** The step that a look at a row is, by what Daraja replies. */
  function LookOf(id: ChargeId, row: Charge, reply: QueryReply, now: Instant): Step {
    if row.reference.Some? && reply.Complete? then QueryApplied(id, reply.result, now) else AttemptCounted(id)
  }

  // One runReconcileOnce that ran to its end: at `start` it selected `ids`, and looks[m] is its look at ids[m].
  datatype PassSpan = PassSpan(start: nat, end: nat, cutoff: Instant, ids: seq<ChargeId>, looks: seq<nat>)

  ghost predicate IsPass(run: seq<World>, acts: seq<Act>, pass: PassSpan, size: nat, maxAttempts: nat) {
    && pass.start <= pass.end <= |acts| < |run| && |pass.looks| == |pass.ids|
    && IsBatch(run[pass.start].tables, pass.cutoff, maxAttempts, size, pass.ids)
    && forall m :: 0 <= m < |pass.ids| ==>
         && pass.start <= pass.looks[m] < pass.end && acts[pass.looks[m]].v == pass.start
         && IsLook(acts[pass.looks[m]].step, pass.ids[m])
  }

  // Every complete answer the pass hears is in the log.
  ghost predicate Heard(w: World, ids: seq<ChargeId>, ask: Reference -> QueryReply) {
    forall m :: 0 <= m < |ids| ==>
      && ids[m] in w.tables.charges
      && (w.tables.charges[ids[m]].reference.Some? && ask(w.tables.charges[ids[m]].reference.value).Complete? ==>
            (w.tables.charges[ids[m]].reference.value, ask(w.tables.charges[ids[m]].reference.value).result) in w.log.answers)
  }

  // The world after the first n rows of an uninterrupted pass over a batch selected in `w`.
  ghost function PassedOver(w: World, ids: seq<ChargeId>, n: nat, ask: Reference -> QueryReply, maxAttempts: nat, now: Instant)
    : World
    requires n <= |ids| && forall i :: 0 <= i < |ids| ==> ids[i] in w.tables.charges
  {
    w.(tables := Pass(w.tables, ids, n, ask, maxAttempts, now).0)
  }

  /** One iteration of the pass, on whatever the tables have become since the batch was read, is a look. */
  lemma ExamineIsLook(v: World, w: World, id: ChargeId, reply: QueryReply, now: Instant)
    requires id in v.tables.charges
    requires var row := v.tables.charges[id];
      row.reference.Some? && reply.Complete? ==> (row.reference.value, reply.result) in w.log.answers
    ensures var row := v.tables.charges[id];
      && Next(v, v, w, w, w.(tables := Examine(w.tables, id, row, reply, now).0), LookOf(id, row, reply, now))
      && IsLook(LookOf(id, row, reply, now), id)
  {
    hide CountAttempt, QueryTx;
  }

  // The acts of an uninterrupted pass that selected its batch at moment n.
  ghost function PassActs(w: World, ids: seq<ChargeId>, ask: Reference -> QueryReply, now: Instant, n: nat): seq<Act>
    requires forall i :: 0 <= i < |ids| ==> ids[i] in w.tables.charges
  {
    seq(|ids|, i requires 0 <= i < |ids| =>
      var row := w.tables.charges[ids[i]];
      Act(LookOf(ids[i], row, Ask(row, ask), now), n, n, n + i))
  }

  ghost function PassWorlds(w: World, ids: seq<ChargeId>, ask: Reference -> QueryReply, maxAttempts: nat, now: Instant)
    : seq<World>
    requires forall i :: 0 <= i < |ids| ==> ids[i] in w.tables.charges
  {
    seq(|ids|, i requires 0 <= i < |ids| => PassedOver(w, ids, i + 1, ask, maxAttempts, now))
  }

  lemma PassLink(w: World, ids: seq<ChargeId>, ask: Reference -> QueryReply, maxAttempts: nat, now: Instant, m: nat)
    requires Heard(w, ids, ask) && m < |ids|
    ensures var row := w.tables.charges[ids[m]];
      var here, there := PassedOver(w, ids, m, ask, maxAttempts, now), PassedOver(w, ids, m + 1, ask, maxAttempts, now);
      var look := LookOf(ids[m], row, Ask(row, ask), now);
      Next(w, w, here, here, there, look) && IsLook(look, ids[m])
  {
    var row := w.tables.charges[ids[m]];
    ExamineIsLook(w, PassedOver(w, ids, m, ask, maxAttempts, now), ids[m], Ask(row, ask), now);
  }

  lemma Continued(run: seq<World>, acts: seq<Act>, worlds: seq<World>, more: seq<Act>)
    requires IsRun(run, acts) && |worlds| == |more|
    requires forall i :: |acts| <= i < |acts| + |more| ==> Linked(run + worlds, acts + more, i)
    ensures IsRun(run + worlds, acts + more)
  {
    hide Next, Init;
    forall i | 0 <= i < |acts + more| ensures Linked(run + worlds, acts + more, i) {
      if i < |acts| { assert Linked(run, acts, i); }
    }
  }

  // Where the looks of an uninterrupted pass are.
  function From(n: nat, count: nat): seq<nat> {
    seq(count, i requires 0 <= i < count => n + i)
  }

  lemma LooksArePass(run: seq<World>, acts: seq<Act>, n: nat, ids: seq<ChargeId>, cutoff: Instant, size: nat, maxAttempts: nat)
    requires n + |ids| <= |acts| < |run| && IsBatch(run[n].tables, cutoff, maxAttempts, size, ids)
    requires forall i :: n <= i < n + |ids| ==> acts[i].v == n && IsLook(acts[i].step, ids[i - n])
    ensures IsPass(run, acts, PassSpan(n, n + |ids|, cutoff, ids, From(n, |ids|)), size, maxAttempts)
  {
    hide IsBatch, IsLook;
  }

  lemma PassContinues(run: seq<World>, acts: seq<Act>, ids: seq<ChargeId>, ask: Reference -> QueryReply,
                      maxAttempts: nat, now: Instant, m: nat)
    requires |run| == |acts| + 1 && Heard(run[|acts|], ids, ask) && m < |ids|
    ensures var n, w := |acts|, run[|acts|];
      var run', acts' := run + PassWorlds(w, ids, ask, maxAttempts, now), acts + PassActs(w, ids, ask, now, n);
      Linked(run', acts', n + m) && acts'[n + m].v == n && IsLook(acts'[n + m].step, ids[m])
  {
    var n, w := |acts|, run[|acts|];
    PassLink(w, ids, ask, maxAttempts, now, m);
    hide Next, IsLook, LookOf, Pass, Heard;
    var run' := run + PassWorlds(w, ids, ask, maxAttempts, now);
    assert run'[n] == w && run'[n + m + 1] == PassedOver(w, ids, m + 1, ask, maxAttempts, now);
    NothingPassed(w, ids, ask, maxAttempts, now);
    assert run'[n + m] == PassedOver(w, ids, m, ask, maxAttempts, now);
  }

  lemma NothingPassed(w: World, ids: seq<ChargeId>, ask: Reference -> QueryReply, maxAttempts: nat, now: Instant)
    requires forall i :: 0 <= i < |ids| ==> ids[i] in w.tables.charges
    ensures PassedOver(w, ids, 0, ask, maxAttempts, now) == w
  {
  }

  // The run, continued by an uninterrupted pass.
  ghost function RunOn(run: seq<World>, ids: seq<ChargeId>, ask: Reference -> QueryReply, maxAttempts: nat, now: Instant)
    : seq<World>
    requires run != [] && forall i :: 0 <= i < |ids| ==> ids[i] in run[|run| - 1].tables.charges
  {
    run + PassWorlds(run[|run| - 1], ids, ask, maxAttempts, now)
  }

  ghost function ActsOn(run: seq<World>, acts: seq<Act>, ids: seq<ChargeId>, ask: Reference -> QueryReply, now: Instant)
    : seq<Act>
    requires run != [] && forall i :: 0 <= i < |ids| ==> ids[i] in run[|run| - 1].tables.charges
  {
    acts + PassActs(run[|run| - 1], ids, ask, now, |acts|)
  }

  lemma PassIsRun(run: seq<World>, acts: seq<Act>, ids: seq<ChargeId>, ask: Reference -> QueryReply, maxAttempts: nat,
                  now: Instant)
    requires IsRun(run, acts) && Heard(run[|acts|], ids, ask)
    ensures IsRun(RunOn(run, ids, ask, maxAttempts, now), ActsOn(run, acts, ids, ask, now))
  {
    var n, w := |acts|, run[|acts|];
    var worlds, more := PassWorlds(w, ids, ask, maxAttempts, now), PassActs(w, ids, ask, now, n);
    forall i | n <= i < n + |ids| ensures Linked(run + worlds, acts + more, i) {
      PassContinues(run, acts, ids, ask, maxAttempts, now, i - n);
      assert n + (i - n) == i;
    }
    hide Linked, Heard, PassActs, PassWorlds;
    Continued(run, acts, worlds, more);
  }

  lemma PassIsPass(run: seq<World>, acts: seq<Act>, ids: seq<ChargeId>, ask: Reference -> QueryReply, cutoff: Instant,
                   size: nat, maxAttempts: nat, now: Instant)
    requires |run| == |acts| + 1 && IsBatch(run[|acts|].tables, cutoff, maxAttempts, size, ids) && Heard(run[|acts|], ids, ask)
    ensures IsPass(RunOn(run, ids, ask, maxAttempts, now), ActsOn(run, acts, ids, ask, now),
                   PassSpan(|acts|, |acts| + |ids|, cutoff, ids, From(|acts|, |ids|)), size, maxAttempts)
  {
    var n, w := |acts|, run[|acts|];
    var worlds, more := PassWorlds(w, ids, ask, maxAttempts, now), PassActs(w, ids, ask, now, n);
    forall i | n <= i < n + |ids| ensures (acts + more)[i].v == n && IsLook((acts + more)[i].step, ids[i - n]) {
      PassContinues(run, acts, ids, ask, maxAttempts, now, i - n);
      assert n + (i - n) == i;
    }
    hide IsLook, IsBatch, Heard, PassedOver;
    LooksArePass(run + worlds, acts + more, n, ids, cutoff, size, maxAttempts);
  }

  /** Whatever is replied, a pass by itself continues any run, look by look, and is a pass of that run. */
  lemma ReconcileOnceIsPass(run: seq<World>, acts: seq<Act>, ids: seq<ChargeId>, ask: Reference -> QueryReply,
                            cutoff: Instant, size: nat, maxAttempts: nat, now: Instant)
    requires IsRun(run, acts) && IsBatch(run[|acts|].tables, cutoff, maxAttempts, size, ids) && Heard(run[|acts|], ids, ask)
    ensures var n, run', acts' := |acts|, RunOn(run, ids, ask, maxAttempts, now), ActsOn(run, acts, ids, ask, now);
      && IsRun(run', acts') && |acts'| == n + |ids| && run <= run' && acts <= acts'
      && IsPass(run', acts', PassSpan(n, n + |ids|, cutoff, ids, From(n, |ids|)), size, maxAttempts)
      && run'[|acts'|].tables == Pass(run[n].tables, ids, |ids|, ask, maxAttempts, now).0
  {
    hide Linked, Init, IsPass, IsBatch, Heard, RunOn, ActsOn, Pass;
    HeardAreThere(run[|acts|], ids, ask);
    PassIsRun(run, acts, ids, ask, maxAttempts, now);
    PassIsPass(run, acts, ids, ask, cutoff, size, maxAttempts, now);
    LastPassed(run, ids, ask, maxAttempts, now);
    Continues(run, acts, ids, ask, maxAttempts, now);
  }

  lemma HeardAreThere(w: World, ids: seq<ChargeId>, ask: Reference -> QueryReply)
    requires Heard(w, ids, ask)
    ensures forall i :: 0 <= i < |ids| ==> ids[i] in w.tables.charges
  {
  }

  lemma Continues(run: seq<World>, acts: seq<Act>, ids: seq<ChargeId>, ask: Reference -> QueryReply, maxAttempts: nat, now: Instant)
    requires |run| == |acts| + 1 && forall i :: 0 <= i < |ids| ==> ids[i] in run[|acts|].tables.charges
    ensures run <= RunOn(run, ids, ask, maxAttempts, now) && acts <= ActsOn(run, acts, ids, ask, now)
    ensures |RunOn(run, ids, ask, maxAttempts, now)| == |run| + |ids| && |ActsOn(run, acts, ids, ask, now)| == |acts| + |ids|
  {
  }

  lemma LastPassed(run: seq<World>, ids: seq<ChargeId>, ask: Reference -> QueryReply, maxAttempts: nat, now: Instant)
    requires run != [] && forall i :: 0 <= i < |ids| ==> ids[i] in run[|run| - 1].tables.charges
    ensures RunOn(run, ids, ask, maxAttempts, now)[|run| - 1 + |ids|].tables
      == Pass(run[|run| - 1].tables, ids, |ids|, ask, maxAttempts, now).0
  {
    var w := run[|run| - 1];
    NothingPassed(w, ids, ask, maxAttempts, now);
    hide Pass;
    if ids != [] {
      assert (run + PassWorlds(w, ids, ask, maxAttempts, now))[|run| - 1 + |ids|]
        == PassWorlds(w, ids, ask, maxAttempts, now)[|ids| - 1];
    }
  }

  // ---------------------------------------------------------------- how often a charge can be looked at

  lemma AttemptsStep(p: World, v: World, u: World, w: World, w': World, s: Step, id: ChargeId)
    requires Behind(p, v, u, w) && Next(p, v, u, w, w', s) && id in w'.tables.charges
    ensures id !in w.tables.charges ==> w'.tables.charges[id].reconcileAttempts == 0
    ensures id in w.tables.charges ==>
      w'.tables.charges[id].reconcileAttempts
        <= w.tables.charges[id].reconcileAttempts + if IsLook(s, id) then 1 else 0
  {
    hide Sound, Evolves, CallbackTx, QueryTx, AppliedOnce, Evidence, VerdictFor, LogAfter, DeliveryAfter, LogGrows,
      EventsAfter, PaysOnlyAgreed, ClaimedByOnlyCandidate;
    if s.CallbackApplied? {
      ViewsBehind(p, v, u, w);
      CallbackEffect(v.tables, u.tables, w.tables, s.body, s.verdict, s.now);
    } else if s.QueryApplied? {
      AttemptsThroughQuery(p, v, u, w, s, id);
    } else {
      AttemptsElsewhere(p, v, u, w, s, id);
    }
  }

  lemma AttemptsThroughQuery(p: World, v: World, u: World, w: World, s: Step, id: ChargeId)
    requires Behind(p, v, u, w) && Enabled(p, v, u, w, s) && s.QueryApplied? && id in TablesAfter(v, u, w, s).charges
    ensures id in w.tables.charges
    ensures TablesAfter(v, u, w, s).charges[id].reconcileAttempts
      <= w.tables.charges[id].reconcileAttempts + if IsLook(s, id) then 1 else 0
  {
    hide Sound, Evolves, CallbackTx, AppliedOnce, Evidence, LogGrows;
    if s.id in u.tables.charges {
      QueryResolvable(v.tables, u.tables, w.tables, s.id, s.code);
      CountAttemptKeeps(w.tables, s.id);
      ResolveOutcome(CountAttempt(w.tables, s.id), s.id, u.tables.charges[s.id],
        Resolution(s.code == SUCCESS, s.code, None, ByQuery), s.now);
    }
  }

  lemma AttemptsElsewhere(p: World, v: World, u: World, w: World, s: Step, id: ChargeId)
    requires Enabled(p, v, u, w, s) && !s.CallbackApplied? && !s.QueryApplied? && id in TablesAfter(v, u, w, s).charges
    ensures id !in w.tables.charges ==> TablesAfter(v, u, w, s).charges[id].reconcileAttempts == 0
    ensures id in w.tables.charges ==>
      TablesAfter(v, u, w, s).charges[id].reconcileAttempts
        <= w.tables.charges[id].reconcileAttempts + if IsLook(s, id) then 1 else 0
  {
    hide CallbackTx, QueryTx, VerdictFor, SaleTaken, ReferenceTaken;
  }

  // Every look at the charge was decided when the charge was selected, with an attempt left, at its moment v.
  ghost predicate Selected(run: seq<World>, acts: seq<Act>, id: ChargeId, maxAttempts: nat) {
    |run| == |acts| + 1 && forall n :: 0 <= n < |acts| && IsLook(acts[n].step, id) ==>
      acts[n].v <= n && Waiting(run[acts[n].v].tables, id, maxAttempts)
  }

  // The looks at the charge that are between their SELECT and their count at moment m.
  ghost function Looking(acts: seq<Act>, id: ChargeId, m: nat): set<nat> {
    set n: nat | n < |acts| && IsLook(acts[n].step, id) && acts[n].v <= m <= n
  }

  ghost predicate AtMostLooking(acts: seq<Act>, id: ChargeId, k: nat) {
    forall m: nat :: m < |acts| ==> |Looking(acts, id, m)| <= k
  }

  ghost function LooksBetween(acts: seq<Act>, id: ChargeId, i: nat, j: nat): set<nat> {
    set n: nat | i <= n < j && n < |acts| && IsLook(acts[n].step, id)
  }

  // From moment m to moment j the charge is there, and past m it has no attempt left.
  ghost predicate SpentSince(run: seq<World>, id: ChargeId, maxAttempts: nat, m: nat, j: nat) {
    && m < j < |run| && id in run[m].tables.charges
    && forall n :: m < n <= j ==> id in run[n].tables.charges && run[n].tables.charges[id].reconcileAttempts >= maxAttempts
  }

  lemma RunAttempts(run: seq<World>, acts: seq<Act>, j: nat, id: ChargeId)
    requires IsRun(run, acts) && 0 < j < |run| && id in run[j].tables.charges
    ensures id !in run[j - 1].tables.charges ==> run[j].tables.charges[id].reconcileAttempts == 0
    ensures id in run[j - 1].tables.charges ==>
      run[j].tables.charges[id].reconcileAttempts
        <= run[j - 1].tables.charges[id].reconcileAttempts + if IsLook(acts[j - 1].step, id) then 1 else 0
  {
    hide Init, Next, Inv, Grows, Behind, IsLook;
    RunKeeps(run, acts, j);
    assert Linked(run, acts, j - 1);
    var a := acts[j - 1];
    BehindInRun(run, j, a.p, a.v, a.u, j - 1);
    AttemptsStep(run[a.p], run[a.v], run[a.u], run[j - 1], run[j], a.step, id);
  }

  lemma {:induction false} LastUnspent(run: seq<World>, acts: seq<Act>, j: nat, id: ChargeId, maxAttempts: nat) returns (m: nat)
    requires IsRun(run, acts) && j < |run| && maxAttempts > 0
    requires id in run[j].tables.charges && run[j].tables.charges[id].reconcileAttempts >= maxAttempts
    ensures SpentSince(run, id, maxAttempts, m, j) && run[m].tables.charges[id].reconcileAttempts < maxAttempts
  {
    hide Linked;
    assert j > 0;
    RunAttempts(run, acts, j, id);
    if run[j - 1].tables.charges[id].reconcileAttempts < maxAttempts {
      m := j - 1;
    } else {
      m := LastUnspent(run, acts, j - 1, id, maxAttempts);
    }
  }

  lemma {:induction false} AttemptsAreLooks(run: seq<World>, acts: seq<Act>, i: nat, j: nat, id: ChargeId)
    requires IsRun(run, acts) && i <= j < |run| && forall n :: i <= n <= j ==> id in run[n].tables.charges
    ensures run[j].tables.charges[id].reconcileAttempts
      <= run[i].tables.charges[id].reconcileAttempts + |LooksBetween(acts, id, i, j)|
  {
    hide Linked, IsLook;
    if i < j {
      AttemptsAreLooks(run, acts, i, j - 1, id);
      RunAttempts(run, acts, j, id);
      var before := LooksBetween(acts, id, i, j - 1);
      assert IsLook(acts[j - 1].step, id) ==> LooksBetween(acts, id, i, j) == before + {j - 1};
      assert !IsLook(acts[j - 1].step, id) ==> LooksBetween(acts, id, i, j) == before;
    }
  }

  /**
    * Passes may overlap, a manual one takes no lock: with at most k looks at a charge between their SELECT
    * and their count at any moment, it never has more than maxAttempts + k - 1 attempts.
    */
  lemma OverlapsBoundLooks(run: seq<World>, acts: seq<Act>, k: nat, j: nat, id: ChargeId, maxAttempts: nat)
    requires IsRun(run, acts) && Selected(run, acts, id, maxAttempts) && AtMostLooking(acts, id, k)
    requires k > 0 && maxAttempts > 0 && j < |run| && id in run[j].tables.charges
    ensures run[j].tables.charges[id].reconcileAttempts <= maxAttempts + k - 1
  {
    hide IsRun, IsLook;
    if run[j].tables.charges[id].reconcileAttempts >= maxAttempts {
      var m := LastUnspent(run, acts, j, id, maxAttempts);
      AttemptsAreLooks(run, acts, m, j, id);
      forall n | n in LooksBetween(acts, id, m, j) ensures n in Looking(acts, id, m) {
        assert Waiting(run[acts[n].v].tables, id, maxAttempts);
      }
      SubsetSize(LooksBetween(acts, id, m, j), Looking(acts, id, m));
    }
  }
}
