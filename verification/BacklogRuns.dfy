/**
  * The backlog theorem over runs: while nobody answers for N old charges, whatever else happens and however
  * passes overlap or crash, each of them gets its attempts, ahead of every newer charge, and ends in front
  * of a human, never FAILED.
  */
module BacklogRuns {
  import opened Common
  import opened Charges
  import opened ChargeInvariants
  import opened CallbackLemmas
  import opened Protocol
  import opened ProtocolInvariants
  import opened ChargeTheorems
  import opened Reconciler
  import opened Looks
  import Attribution

  // ---------------------------------------------------------------- what disturbs a backlog

  // What takes an open charge out of the backlog: a definite answer for it, a hold, a purge.
  ghost predicate Disturbs(u: World, w: World, s: Step, id: ChargeId) {
    || AnswersFor(u, w, s, id)
    || (s.CallbackApplied? && Reaches(u, w, s.body, s.now, id) && id in w.tables.charges
        && s.body.code == SUCCESS && s.body.amount != Some(w.tables.charges[id].facts.amount))
    || (s.Purged? && id in w.tables.charges && Abandoned(w.tables.charges[id], s.now - s.age, s.tenants))
  }

  // What puts another charge among those that were waiting at `newest`: a back-dated insert, a release.
  predicate Overtakes(t: Tables, s: Step, newest: Instant) {
    || (s.Insert? && s.facts.createdAt <= newest)
    || (s.Released? && s.id in t.charges && t.charges[s.id].facts.createdAt <= newest)
  }

  function CountIn(s: Step, id: ChargeId): nat {
    if s == AttemptCounted(id) then 1 else 0
  }

  lemma OpenStep(p: World, v: World, u: World, w: World, w': World, s: Step, id: ChargeId)
    requires Behind(p, v, u, w) && Next(p, v, u, w, w', s) && !Disturbs(u, w, s, id) && Open(w.tables, id)
    ensures Open(w'.tables, id) && w'.tables.charges[id].facts == w.tables.charges[id].facts
    ensures w'.tables.charges[id].reconcileAttempts == w.tables.charges[id].reconcileAttempts + CountIn(s, id)
  {
    hide Sound, Evolves, CallbackTx, QueryTx, AppliedOnce, Evidence, VerdictFor, LogAfter, DeliveryAfter, LogGrows, EventsAfter;
    if s.CallbackApplied? {
      ViewsBehind(p, v, u, w);
      CallbackEffect(v.tables, u.tables, w.tables, s.body, s.verdict, s.now);
      SoundParts(w.tables);
      UnansweredStep(p, v, u, w, w', s, id);
    } else if s.QueryApplied? {
      Attribution.QueryKeepsReferences(p, v, u, w, s);
      QueryElsewhere(p, v, u, w, s, id);
    } else {
      SoundParts(w.tables);
      OpenElsewhere(p, v, u, w, s, id);
    }
  }

  lemma OpenElsewhere(p: World, v: World, u: World, w: World, s: Step, id: ChargeId)
    requires Enabled(p, v, u, w, s) && !Disturbs(u, w, s, id) && Open(w.tables, id) && Faithful(w.tables)
    requires !s.CallbackApplied? && !s.QueryApplied?
    ensures var t' := TablesAfter(v, u, w, s);
      Open(t', id) && t'.charges[id].facts == w.tables.charges[id].facts
      && t'.charges[id].reconcileAttempts == w.tables.charges[id].reconcileAttempts + CountIn(s, id)
  {
    hide CallbackTx, QueryTx, VerdictFor, SaleTaken, ReferenceTaken;
  }

  lemma WaitedStep(p: World, v: World, u: World, w: World, w': World, s: Step, newest: Instant, maxAttempts: nat, id: ChargeId)
    requires Behind(p, v, u, w) && Next(p, v, u, w, w', s) && !Overtakes(w.tables, s, newest)
    requires Waiting(w'.tables, id, maxAttempts) && w'.tables.charges[id].facts.createdAt <= newest
    ensures Waiting(w.tables, id, maxAttempts) && w.tables.charges[id].facts == w'.tables.charges[id].facts
  {
    hide Sound, Evolves, CallbackTx, QueryTx, AppliedOnce, Evidence, VerdictFor, LogAfter, DeliveryAfter, LogGrows,
      EventsAfter, PaysOnlyAgreed, ClaimedByOnlyCandidate;
    if s.CallbackApplied? {
      ViewsBehind(p, v, u, w);
      CallbackEffect(v.tables, u.tables, w.tables, s.body, s.verdict, s.now);
    } else if s.QueryApplied? {
      WaitedThroughQuery(p, v, u, w, s, maxAttempts, id);
    } else {
      WaitedElsewhere(p, v, u, w, s, newest, maxAttempts, id);
    }
  }

  lemma WaitedThroughQuery(p: World, v: World, u: World, w: World, s: Step, maxAttempts: nat, id: ChargeId)
    requires Behind(p, v, u, w) && Enabled(p, v, u, w, s) && s.QueryApplied?
    requires Waiting(TablesAfter(v, u, w, s), id, maxAttempts)
    ensures Waiting(w.tables, id, maxAttempts) && w.tables.charges[id].facts == TablesAfter(v, u, w, s).charges[id].facts
  {
    hide Sound, Evolves, CallbackTx, AppliedOnce, Evidence, LogGrows;
    if s.id in u.tables.charges {
      QueryResolvable(v.tables, u.tables, w.tables, s.id, s.code);
      CountAttemptKeeps(w.tables, s.id);
      ResolveOutcome(CountAttempt(w.tables, s.id), s.id, u.tables.charges[s.id],
        Resolution(s.code == SUCCESS, s.code, None, ByQuery), s.now);
    }
  }

  lemma WaitedElsewhere(p: World, v: World, u: World, w: World, s: Step, newest: Instant, maxAttempts: nat, id: ChargeId)
    requires Enabled(p, v, u, w, s) && !Overtakes(w.tables, s, newest) && !s.CallbackApplied? && !s.QueryApplied?
    requires var t' := TablesAfter(v, u, w, s); Waiting(t', id, maxAttempts) && t'.charges[id].facts.createdAt <= newest
    ensures Waiting(w.tables, id, maxAttempts) && w.tables.charges[id].facts == TablesAfter(v, u, w, s).charges[id].facts
  {
    hide CallbackTx, QueryTx, VerdictFor, SaleTaken, ReferenceTaken;
  }

  // ---------------------------------------------------------------- stretches

  ghost predicate Undisturbed(run: seq<World>, acts: seq<Act>, i: nat, j: nat, order: seq<ChargeId>, newest: Instant) {
    && |run| == |acts| + 1 && i <= j < |run|
    && forall k :: i <= k < j ==>
         acts[k].u <= k && !Overtakes(run[k].tables, acts[k].step, newest)
         && forall m :: 0 <= m < |order| ==> !Disturbs(run[acts[k].u], run[k], acts[k].step, order[m])
  }

  // How often between moments i and j the charge's attempt is counted.
  function CountsOf(acts: seq<Act>, i: nat, j: nat, id: ChargeId): nat
    requires i <= j <= |acts|
  {
    if i == j then 0 else CountsOf(acts, i, j - 1, id) + CountIn(acts[j - 1].step, id)
  }

  lemma {:induction false} OpenStretch(run: seq<World>, acts: seq<Act>, i: nat, j: nat, order: seq<ChargeId>,
                                       newest: Instant, m: nat)
    requires IsRun(run, acts) && Undisturbed(run, acts, i, j, order, newest) && m < |order|
    requires Open(run[i].tables, order[m])
    ensures Open(run[j].tables, order[m])
    ensures run[j].tables.charges[order[m]].facts == run[i].tables.charges[order[m]].facts
    ensures run[j].tables.charges[order[m]].reconcileAttempts
      == run[i].tables.charges[order[m]].reconcileAttempts + CountsOf(acts, i, j, order[m])
  {
    hide IsRun, Undisturbed, CountIn;
    Moments(run, acts, i, j, order, newest);
    if i < j {
      PartUndisturbed(run, acts, i, j - 1, i, j, order, newest);
      OpenStretch(run, acts, i, j - 1, order, newest, m);
      PartUndisturbed(run, acts, j - 1, j, i, j, order, newest);
      OpenOneMore(run, acts, j - 1, order, newest, m);
    }
  }

  lemma Moments(run: seq<World>, acts: seq<Act>, i: nat, j: nat, order: seq<ChargeId>, newest: Instant)
    requires Undisturbed(run, acts, i, j, order, newest)
    ensures |run| == |acts| + 1 && i <= j < |run|
  {
  }

  lemma OpenOneMore(run: seq<World>, acts: seq<Act>, i: nat, order: seq<ChargeId>, newest: Instant, m: nat)
    requires IsRun(run, acts) && Undisturbed(run, acts, i, i + 1, order, newest) && m < |order|
    requires Open(run[i].tables, order[m])
    ensures Open(run[i + 1].tables, order[m])
    ensures run[i + 1].tables.charges[order[m]].facts == run[i].tables.charges[order[m]].facts
    ensures run[i + 1].tables.charges[order[m]].reconcileAttempts
      == run[i].tables.charges[order[m]].reconcileAttempts + CountIn(acts[i].step, order[m])
  {
    hide Init, Next, Inv, Grows, Behind, Disturbs, Overtakes, CountIn, Open;
    RunKeeps(run, acts, i + 1);
    assert Linked(run, acts, i);
    var a := acts[i];
    BehindInRun(run, i + 1, a.p, a.v, a.u, i);
    OpenStep(run[a.p], run[a.v], run[a.u], run[i], run[i + 1], a.step, order[m]);
  }

  lemma {:induction false} WaitedStretch(run: seq<World>, acts: seq<Act>, i: nat, j: nat, order: seq<ChargeId>,
                                         newest: Instant, maxAttempts: nat, id: ChargeId)
    requires IsRun(run, acts) && Undisturbed(run, acts, i, j, order, newest)
    requires Waiting(run[j].tables, id, maxAttempts) && run[j].tables.charges[id].facts.createdAt <= newest
    ensures Waiting(run[i].tables, id, maxAttempts) && run[i].tables.charges[id].facts == run[j].tables.charges[id].facts
  {
    hide Init, Next, Inv, Grows, Behind, Disturbs, Overtakes, Waiting;
    if i < j {
      RunKeeps(run, acts, j);
      assert Linked(run, acts, j - 1);
      var a := acts[j - 1];
      BehindInRun(run, j, a.p, a.v, a.u, j - 1);
      WaitedStep(run[a.p], run[a.v], run[a.u], run[j - 1], run[j], a.step, newest, maxAttempts, id);
      WaitedStretch(run, acts, i, j - 1, order, newest, maxAttempts, id);
    }
  }

  /** Through an undisturbed stretch the backlog stays open, and no older charge joins the waiting line. */
  lemma BacklogStretch(run: seq<World>, acts: seq<Act>, i: nat, j: nat, order: seq<ChargeId>, newest: Instant,
                       maxAttempts: nat)
    requires IsRun(run, acts) && Undisturbed(run, acts, i, j, order, newest)
    requires forall m :: 0 <= m < |order| ==> Open(run[i].tables, order[m])
    requires NoOlder(run[i].tables, order, newest, maxAttempts)
    ensures forall m :: 0 <= m < |order| ==>
      && Open(run[j].tables, order[m])
      && run[j].tables.charges[order[m]].facts == run[i].tables.charges[order[m]].facts
      && run[j].tables.charges[order[m]].reconcileAttempts
           == run[i].tables.charges[order[m]].reconcileAttempts + CountsOf(acts, i, j, order[m])
    ensures NoOlder(run[j].tables, order, newest, maxAttempts)
  {
    hide IsRun, Disturbs, Overtakes, CountsOf;
    forall m | 0 <= m < |order|
      ensures Open(run[j].tables, order[m])
      ensures run[j].tables.charges[order[m]].facts == run[i].tables.charges[order[m]].facts
      ensures run[j].tables.charges[order[m]].reconcileAttempts
        == run[i].tables.charges[order[m]].reconcileAttempts + CountsOf(acts, i, j, order[m])
    {
      OpenStretch(run, acts, i, j, order, newest, m);
    }
    forall id | Waiting(run[j].tables, id, maxAttempts) && run[j].tables.charges[id].facts.createdAt <= newest
      ensures id in order
    {
      WaitedStretch(run, acts, i, j, order, newest, maxAttempts, id);
    }
  }

  // ---------------------------------------------------------------- the backlog, pass by pass

  lemma PartUndisturbed(run: seq<World>, acts: seq<Act>, i: nat, j: nat, from: nat, until: nat, order: seq<ChargeId>,
                        newest: Instant)
    requires Undisturbed(run, acts, from, until, order, newest) && from <= i <= j <= until
    ensures Undisturbed(run, acts, i, j, order, newest)
  {
  }

  lemma {:induction false} CountedWithin(acts: seq<Act>, i: nat, j: nat, n: nat, id: ChargeId)
    requires i <= n < j <= |acts| && acts[n].step == AttemptCounted(id)
    ensures CountsOf(acts, i, j, id) >= 1
  {
    if n < j - 1 { CountedWithin(acts, i, j - 1, n, id); }
  }

  /** A pass counts an attempt for every charge of the backlog in its batch, whatever comes in between. */
  lemma PassCounts(run: seq<World>, acts: seq<Act>, pass: PassSpan, size: nat, maxAttempts: nat,
                   order: seq<ChargeId>, newest: Instant, i: nat)
    requires IsPass(run, acts, pass, size, maxAttempts) && Undisturbed(run, acts, pass.start, pass.end, order, newest)
    requires i < |order| && order[i] in pass.ids
    ensures CountsOf(acts, pass.start, pass.end, order[i]) >= 1
  {
    hide IsBatch, CountsOf, Overtakes;
    var m :| 0 <= m < |pass.ids| && pass.ids[m] == order[i];
    var n := pass.looks[m];
    assert !Disturbs(run[acts[n].u], run[n], acts[n].step, order[i]);
    assert acts[n].step == AttemptCounted(order[i]);
    CountedWithin(acts, pass.start, pass.end, n, order[i]);
  }

  /** A stretch, with whatever passes begin, end or crash in it, leaves no charge of the backlog further behind. */
  lemma BacklogRests(run: seq<World>, acts: seq<Act>, i: nat, j: nat, order: seq<ChargeId>, newest: Instant,
                     size: nat, maxAttempts: nat, q: nat, r: nat)
    requires IsRun(run, acts) && Undisturbed(run, acts, i, j, order, newest)
    requires Backlog(run[i].tables, order, newest, size, maxAttempts, q, r)
    ensures Backlog(run[j].tables, order, newest, size, maxAttempts, q, r)
  {
    hide IsRun, Disturbs, Overtakes, NoOlder, CountsOf;
    BacklogStretch(run, acts, i, j, order, newest, maxAttempts);
  }

  lemma BacklogMoves(run: seq<World>, acts: seq<Act>, pass: PassSpan, order: seq<ChargeId>, newest: Instant,
                     size: nat, maxAttempts: nat, q: nat, r: nat)
    requires IsRun(run, acts) && IsPass(run, acts, pass, size, maxAttempts) && newest <= pass.cutoff
    requires Undisturbed(run, acts, pass.start, pass.end, order, newest)
    requires Backlog(run[pass.start].tables, order, newest, size, maxAttempts, q, r)
    ensures if r + 1 == maxAttempts then Backlog(run[pass.end].tables, order, newest, size, maxAttempts, q + 1, 0)
      else Backlog(run[pass.end].tables, order, newest, size, maxAttempts, q, r + 1)
  {
    hide IsRun, Disturbs, Overtakes, IsBatch, NoOlder, CountsOf;
    BacklogStretch(run, acts, pass.start, pass.end, order, newest, maxAttempts);
    forall i | 0 <= i < |order| && order[i] in pass.ids ensures CountsOf(acts, pass.start, pass.end, order[i]) >= 1 {
      PassCounts(run, acts, pass, size, maxAttempts, order, newest, i);
    }
    BacklogPass(run[pass.start].tables, run[pass.end].tables, order, newest, size, maxAttempts, q, r, pass.cutoff, pass.ids);
  }

  // Passes one after another, as the scheduled ones are; others may overlap them, and looks may crash away.
  predicate InOrder(passes: seq<PassSpan>, from: nat, until: nat) {
    && from <= until
    && (forall p :: 0 <= p < |passes| ==> from <= passes[p].start <= passes[p].end <= until)
    && (forall p, p' :: 0 <= p < p' < |passes| ==> passes[p].end <= passes[p'].start)
  }

  ghost predicate Passes(run: seq<World>, acts: seq<Act>, passes: seq<PassSpan>, from: nat, until: nat,
                         newest: Instant, size: nat, maxAttempts: nat)
  {
    && InOrder(passes, from, until)
    && forall p :: 0 <= p < |passes| ==> IsPass(run, acts, passes[p], size, maxAttempts) && newest <= passes[p].cutoff
  }

  // The moment the first p passes are over.
  function Over(passes: seq<PassSpan>, p: nat, from: nat): nat
    requires p <= |passes|
  {
    if p == 0 then from else passes[p - 1].end
  }

  // A backlog, and passes over it, that nobody disturbs.
  ghost predicate Worked(run: seq<World>, acts: seq<Act>, passes: seq<PassSpan>, from: nat, until: nat,
                         order: seq<ChargeId>, newest: Instant, size: nat, maxAttempts: nat)
  {
    && IsRun(run, acts) && Undisturbed(run, acts, from, until, order, newest)
    && Passes(run, acts, passes, from, until, newest, size, maxAttempts)
    && Backlog(run[from].tables, order, newest, size, maxAttempts, 0, 0)
  }

  lemma {:induction false} BacklogAfter(run: seq<World>, acts: seq<Act>, passes: seq<PassSpan>, from: nat, until: nat,
                                        order: seq<ChargeId>, newest: Instant, size: nat, maxAttempts: nat, p: nat)
    returns (q: nat, r: nat)
    requires Worked(run, acts, passes, from, until, order, newest, size, maxAttempts) && p <= |passes|
    ensures p == q * maxAttempts + r && Over(passes, p, from) < |run|
    ensures Backlog(run[Over(passes, p, from)].tables, order, newest, size, maxAttempts, q, r)
  {
    hide IsRun, Disturbs, Overtakes, IsPass, Backlog;
    if p == 0 {
      q, r := 0, 0;
      BacklogHasRounds(run[from].tables, order, newest, size, maxAttempts, 0, 0);
    } else {
      var q0, r0 := BacklogAfter(run, acts, passes, from, until, order, newest, size, maxAttempts, p - 1);
      var pass, last := passes[p - 1], Over(passes, p - 1, from);
      PartUndisturbed(run, acts, last, pass.start, from, until, order, newest);
      PartUndisturbed(run, acts, pass.start, pass.end, from, until, order, newest);
      hide Undisturbed, Passes;
      BacklogRests(run, acts, last, pass.start, order, newest, size, maxAttempts, q0, r0);
      BacklogMoves(run, acts, pass, order, newest, size, maxAttempts, q0, r0);
      BacklogHasRounds(run[last].tables, order, newest, size, maxAttempts, q0, r0);
      q, r := if r0 + 1 == maxAttempts then q0 + 1 else q0, if r0 + 1 == maxAttempts then 0 else r0 + 1;
      assert (q0 + 1) * maxAttempts == q0 * maxAttempts + maxAttempts;
    }
  }

  lemma BacklogHasRounds(t: Tables, order: seq<ChargeId>, newest: Instant, size: nat, maxAttempts: nat, q: nat, r: nat)
    requires Backlog(t, order, newest, size, maxAttempts, q, r)
    ensures r < maxAttempts
  {
  }

  lemma RoundsAreUnique(maxAttempts: nat, q: nat, r: nat, rounds: nat)
    requires r < maxAttempts && q * maxAttempts + r == rounds * maxAttempts
    ensures q == rounds && r == 0
  {
    MultiplesKeepOrder(q + 1, rounds, maxAttempts);
    MultiplesKeepOrder(rounds + 1, q, maxAttempts);
  }

  lemma MultiplesKeepOrder(a: nat, b: nat, c: nat)
    ensures a <= b ==> a * c <= b * c
    ensures (a + 1) * c == a * c + c
  {
  }

  /**
    * In any pass, a charge from outside the backlog is looked at only when every charge of the backlog
    * that still has attempts left is in the same batch: no charge waits behind a newer one.
    */
  lemma NoneWaitsBehindNewer(run: seq<World>, acts: seq<Act>, from: nat, until: nat, order: seq<ChargeId>, newest: Instant,
                             pass: PassSpan, size: nat, maxAttempts: nat, i: nat, id: ChargeId)
    requires IsRun(run, acts) && Undisturbed(run, acts, from, until, order, newest)
    requires NoOlder(run[from].tables, order, newest, maxAttempts)
    requires forall m :: 0 <= m < |order| ==> Open(run[from].tables, order[m])
    requires IsPass(run, acts, pass, size, maxAttempts) && newest <= pass.cutoff && from <= pass.start <= until
    requires id in pass.ids && id !in order && i < |order|
    ensures order[i] in pass.ids <==> Waiting(run[pass.start].tables, order[i], maxAttempts)
  {
    hide IsRun, Disturbs, Overtakes, IsLook;
    PartUndisturbed(run, acts, from, pass.start, from, until, order, newest);
    BacklogStretch(run, acts, from, pass.start, order, newest, maxAttempts);
    NewerComesLast(run[pass.start].tables, order, newest, size, maxAttempts, pass.cutoff, pass.ids, id, i);
  }

  /**
    * N charges, everything waiting up to `newest`, a batch of `size`, and enough rounds to cover them: once
    * rounds * maxAttempts passes have followed one another, with whatever others overlapping them or crashing
    * part-way, each of the N has had at least its maxAttempts attempts, each of them a look, and at most k - 1
    * more when at most k looks at it overlap; it is still PENDING and needs attention, and no later pass will
    * ask about it.
    */
  lemma BacklogBound(run: seq<World>, acts: seq<Act>, passes: seq<PassSpan>, from: nat, until: nat, order: seq<ChargeId>,
                     newest: Instant, size: nat, maxAttempts: nat, rounds: nat, k: nat, i: nat)
    requires Worked(run, acts, passes, from, until, order, newest, size, maxAttempts)
    requires |passes| == rounds * maxAttempts && rounds * size >= |order| && i < |order|
    requires k > 0 && Selected(run, acts, order[i], maxAttempts) && AtMostLooking(acts, order[i], k)
    ensures from <= until < |run| && until <= |acts| && order[i] in run[from].tables.charges
    ensures var examined := run[from].tables.charges[order[i]].reconcileAttempts + CountsOf(acts, from, until, order[i]);
      maxAttempts <= examined <= maxAttempts + k - 1
    ensures var t := run[until].tables;
      && order[i] in t.charges && NeedsAttention(t.charges[order[i]], maxAttempts) && t.charges[order[i]].hold.None?
      && forall id :: Waiting(t, id, maxAttempts) ==> t.charges[id].facts.createdAt > newest
  {
    hide IsRun, Disturbs, Overtakes, IsPass, CountsOf, Selected, AtMostLooking;
    var q, r := BacklogAfter(run, acts, passes, from, until, order, newest, size, maxAttempts, |passes|);
    RoundsAreUnique(maxAttempts, q, r, rounds);
    var last := Over(passes, |passes|, from);
    PartUndisturbed(run, acts, last, until, from, until, order, newest);
    BacklogRests(run, acts, last, until, order, newest, size, maxAttempts, q, r);
    OpenStretch(run, acts, from, until, order, newest, i);
    OverlapsBoundLooks(run, acts, k, until, order[i], maxAttempts);
  }
}
