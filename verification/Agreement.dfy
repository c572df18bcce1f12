/**
  * Against FakeAdapter: in every order of delivery, replay, clock advance, reconcile pass and retry, a
  * decided charge says what the fake's record of its reference says.
  */
module Agreement {
  import opened Common
  import opened Charges
  import opened ChargeInvariants
  import opened CallbackLemmas
  import opened Protocol
  import opened ProtocolInvariants
  import opened Attribution
  import opened Fake

  // What the driver of the fake chooses at a step.
  datatype Drive =
    | Leave
    | Push(hint: string)
    | HandOut(index: nat)
    | Replay
    | Resolve(reference: Reference, outcome: Outcome, queue: bool)

  // The fake's side of a protocol step; each timeout is resolved at most once.
  ghost predicate Driven(v: World, w: World, s: Step, d: Drive, f: State, g: State, delay: int, h: Checksum) {
    match s
    case PushReaches(id, r, acknowledged) =>
      d.Push? && id in v.tables.charges
      && var facts := v.tables.charges[id].facts;
         var (after, reply) := StkPush(f, facts.amount, facts.msisdn, d.hint, w.clock, delay, h);
         g == after && (reply == Accepted(r) || (reply == TimedOut(r) && !acknowledged))
    case PushRefused(_) => false
    case BodyReceived(body) =>
      || (d.HandOut? && d.index < |f.pending| && f.pending[d.index].notBefore <= w.clock
          && body == f.pending[d.index].body && g == HandOver(f, d.index))
      || (d.Replay? && exists cb :: cb in f.delivered && cb.body == body && g == f.(delivered := f.delivered + [cb]))
    case QueryAnswered(r, code) => StkQuery(f, r, w.clock) == Complete(code) && g == f
    case Tick(_) =>
      || g == f
      || (d.Resolve? && d.reference in UnresolvedTimeouts(f)
          && ResolveTimeout(f, d.reference, d.outcome, d.queue, w.clock, h) == Ok(g))
    case _ => g == f
  }

  ghost predicate FakeRun(run: seq<World>, acts: seq<Act>, fakes: seq<State>, drives: seq<Drive>, delay: int, h: Checksum) {
    && IsRun(run, acts) && |fakes| == |run| && |drives| == |acts|
    && fakes[0].stk == map[] && fakes[0].pending == [] && fakes[0].delivered == []
    && forall i :: 0 <= i < |acts| ==>
         acts[i].v <= i && Driven(run[acts[i].v], run[i], acts[i].step, drives[i], fakes[i], fakes[i + 1], delay, h)
  }

  // ---------------------------------------------------------------- the invariant

  // Everything the provider ever said is what its records say.
  ghost predicate ToldTruth(w: World, f: State) {
    && Consistent(f)
    && (forall b :: b in w.log.bodies ==> Truthful(f, b))
    && (forall a :: a in w.log.answers ==> a.0 in f.stk && f.stk[a.0].result == Some(a.1))
    && w.log.refusals == {}
    && (forall r :: r in w.log.pushes ==>
          r in f.stk && f.stk[r].amount == w.log.pushes[r].amount && f.stk[r].msisdn == w.log.pushes[r].msisdn)
  }

  // A charge's reference names a record of its own amount and phone.
  ghost predicate Fits(c: Charge, f: State) {
    c.reference.Some? ==>
      c.reference.value in f.stk
      && f.stk[c.reference.value].amount == c.facts.amount && f.stk[c.reference.value].msisdn == c.facts.msisdn
  }

  ghost predicate AllFit(w: World, f: State) {
    forall id :: id in w.tables.charges ==> Fits(w.tables.charges[id], f)
  }

  lemma FakeStep(v: World, w: World, s: Step, d: Drive, f: State, g: State, delay: int, h: Checksum)
    requires Driven(v, w, s, d, f, g, delay, h) && Consistent(f)
    ensures Consistent(g) && RecordsKept(f, g)
  {
    match s
    case PushReaches(id, _, _) =>
      PushKeeps(f, v.tables.charges[id].facts.amount, v.tables.charges[id].facts.msisdn, d.hint, w.clock, delay, h);
    case BodyReceived(_) =>
      if d.HandOut? { HandOverKeeps(f, d.index); }
    case Tick(_) =>
      if g != f { ResolveTimeoutKeeps(f, d.reference, d.outcome, d.queue, w.clock, h); }
    case _ =>
  }

  lemma TruthStep(v: World, w: World, w': World, s: Step, d: Drive, f: State, g: State, delay: int, h: Checksum)
    requires Driven(v, w, s, d, f, g, delay, h) && ToldTruth(w, f)
    requires w'.log == LogAfter(v, w, s)
    ensures ToldTruth(w', g)
  {
    FakeStep(v, w, s, d, f, g, delay, h);
    forall b | b in w.log.bodies ensures Truthful(g, b) { TruthStays(f, g, b); }
    match s
    case PushReaches(id, r, _) =>
      PushKeeps(f, v.tables.charges[id].facts.amount, v.tables.charges[id].facts.msisdn, d.hint, w.clock, delay, h);
    case BodyReceived(body) =>
      if d.HandOut? { HandOverKeeps(f, d.index); }
      TruthStays(f, g, body);
    case _ =>
  }

  lemma FitsStays(c: Charge, d: Charge, f: State, g: State)
    requires Fits(c, f) && RecordsKept(f, g) && d.facts == c.facts && d.reference == c.reference
    ensures Fits(d, g)
  {
  }

  lemma FitStep(p: World, v: World, u: World, w: World, w': World, s: Step, f: State, g: State)
    requires Behind(p, v, u, w) && Next(p, v, u, w, w', s)
    requires ToldTruth(w, f) && RecordsKept(f, g) && PushesMatch(w) && AllFit(w, f)
    ensures AllFit(w', g)
  {
    hide Sound, Evolves, CallbackTx, QueryTx, AppliedOnce, Evidence, VerdictFor, Inv, PushesMatch, LogGrows, LogAfter,
      DeliveryAfter, Consistent;
    StepKeeps(p, v, u, w, w', s);
    forall id | id in w'.tables.charges ensures Fits(w'.tables.charges[id], g) {
      if id in w.tables.charges && w.tables.charges[id].reference == w'.tables.charges[id].reference {
        SameFacts(w, w', id);
        FitsStays(w.tables.charges[id], w'.tables.charges[id], f, g);
      } else if s.CallbackApplied? {
        CallbackKeepsIds(p, v, u, w, s);
        AdoptedFits(p, v, u, w, w', s, id, f, g);
      } else if s.QueryApplied? {
        QueryKeepsReferences(p, v, u, w, s);
        assert false;
      } else if s.AckClaimed? {
        AckedFits(p, v, u, w, w', s, id, f, g);
      }
    }
  }

  lemma SameFacts(w: World, w': World, id: ChargeId)
    requires Inv(w) && Grows(w, w') && id in w.tables.charges && id in w'.tables.charges
    ensures w'.tables.charges[id].facts == w.tables.charges[id].facts
  {
    assert id in w.tables.born;
    assert RowEvolves(w.tables.charges[id], w'.tables.charges[id]);
  }

  lemma AckedFits(p: World, v: World, u: World, w: World, w': World, s: Step, id: ChargeId, f: State, g: State)
    requires Behind(p, v, u, w) && Next(p, v, u, w, w', s) && s.AckClaimed? && Inv(w')
    requires ToldTruth(w, f) && RecordsKept(f, g) && PushesMatch(w)
    requires id in w'.tables.charges && (id in w.tables.charges ==>
      w.tables.charges[id].reference != w'.tables.charges[id].reference)
    ensures Fits(w'.tables.charges[id], g)
  {
    hide Evolves, AppliedOnce, Evidence, OneEffect, UniqueKeys, Shapes, Consistent, LogGrows;
    assert id == s.id && (s.id, s.reference) in w.log.acks;
    assert id in w'.tables.born && w'.tables.born == w.tables.born;
  }

  /** An adoption claims only for the single charge of the callback's amount and phone. */
  lemma AdoptedFits(p: World, v: World, u: World, w: World, w': World, s: Step, id: ChargeId, f: State, g: State)
    requires Behind(p, v, u, w) && Next(p, v, u, w, w', s) && s.CallbackApplied?
    requires ToldTruth(w, f) && RecordsKept(f, g)
    requires id in w.tables.charges && id in w'.tables.charges
    requires w.tables.charges[id].reference != w'.tables.charges[id].reference
    ensures Fits(w'.tables.charges[id], g)
  {
    hide Sound, Evolves, CallbackTx, AppliedOnce, Evidence, VerdictFor, EventsAfter, PaysOnlyAgreed, Consistent;
    assert Views(v.tables, u.tables, w.tables);
    CallbackEffect(v.tables, u.tables, w.tables, s.body, s.verdict, s.now);
    assert RowAfter(w.tables.charges[id], w'.tables.charges[id], s.body,
      Resolves(CallbackTx(v.tables, u.tables, w.tables, s.body, s.verdict, s.now).value, id));
    assert id in Candidates(u.tables, s.body.amount.value, s.body.msisdn, s.now);
    StaleFacts(u, w, id);
    assert s.body in w.log.bodies;
  }

  lemma StaleFacts(u: World, w: World, id: ChargeId)
    requires Inv(u) && Inv(w) && Grows(u, w) && id in u.tables.charges && id in w.tables.charges
    ensures w.tables.charges[id].facts == u.tables.charges[id].facts
  {
    StaleRowAgrees(u.tables, w.tables, id);
  }

  // ---------------------------------------------------------------- every run

  lemma {:induction false} FakeRunKeeps(run: seq<World>, acts: seq<Act>, fakes: seq<State>, drives: seq<Drive>,
                                        delay: int, h: Checksum, i: nat)
    requires FakeRun(run, acts, fakes, drives, delay, h) && i < |run|
    ensures ToldTruth(run[i], fakes[i]) && PushesMatch(run[i]) && AllFit(run[i], fakes[i])
  {
    hide Inv, Grows, Next, Behind, PushesMatch, AllFit, ToldTruth;
    if i == 0 {
      FakeStarts(run[0], fakes[0]);
    } else {
      FakeRunKeeps(run, acts, fakes, drives, delay, h, i - 1);
      RunKeeps(run, acts, i);
      assert Linked(run, acts, i - 1);
      var a := acts[i - 1];
      BehindInRun(run, i, a.p, a.v, a.u, i - 1);
      FakeRunStep(run[a.p], run[a.v], run[a.u], run[i - 1], run[i], a.step, drives[i - 1], fakes[i - 1], fakes[i], delay, h);
    }
  }

  lemma FakeRunStep(p: World, v: World, u: World, w: World, w': World, s: Step, d: Drive, f: State, g: State,
                    delay: int, h: Checksum)
    requires Behind(p, v, u, w) && Next(p, v, u, w, w', s) && Driven(v, w, s, d, f, g, delay, h)
    requires ToldTruth(w, f) && PushesMatch(w) && AllFit(w, f)
    ensures ToldTruth(w', g) && PushesMatch(w') && AllFit(w', g)
  {
    hide Behind, PushesMatch, AllFit, Driven, Enabled, TablesAfter, LogAfter, DeliveryAfter;
    PushesStayRight(p, v, u, w, w', s);
    TruthStep(v, w, w', s, d, f, g, delay, h);
    FakeStep(v, w, s, d, f, g, delay, h);
    FitStep(p, v, u, w, w', s, f, g);
  }

  lemma FakeStarts(w: World, f: State)
    requires Init(w) && f.stk == map[] && f.pending == [] && f.delivered == []
    ensures ToldTruth(w, f) && PushesMatch(w) && AllFit(w, f)
  {
  }

  // The fake's record of a reference: paid, declined, or neither yet.
  predicate SaysPaid(f: State, r: Reference) {
    r in f.stk && f.stk[r].result == Some(SUCCESS)
  }

  predicate SaysDeclined(f: State, r: Reference) {
    r in f.stk && f.stk[r].result in {Some(CANCELLED_BY_USER), Some(INSUFFICIENT_FUNDS)}
  }

  /**
    * A decided charge has a reference, of a push of its own amount and phone, and is PAID exactly when the
    * fake's record of that reference is a success and FAILED exactly when it is a decline.
    */
  lemma AgreesWithProvider(run: seq<World>, acts: seq<Act>, fakes: seq<State>, drives: seq<Drive>,
                           delay: int, h: Checksum, i: nat, id: ChargeId)
    requires FakeRun(run, acts, fakes, drives, delay, h) && i < |run|
    requires id in run[i].tables.charges && !run[i].tables.charges[id].status.Pending?
    ensures var c, f := run[i].tables.charges[id], fakes[i];
      && c.reference.Some? && Fits(c, f)
      && (c.status.Paid? <==> SaysPaid(f, c.reference.value))
      && (c.status.Failed? <==> SaysDeclined(f, c.reference.value))
  {
    hide OneEffect, UniqueKeys, Faithful, AppliedOnce, Grows, IsRun, PushesMatch, Driven;
    FakeRunKeeps(run, acts, fakes, drives, delay, h, i);
    RunKeeps(run, acts, i + 1);
    var w, f := run[i], fakes[i];
    var c := w.tables.charges[id];
    assert Inv(w);
    assert WellShaped(c) && EvidenceFor(w.log, id, c) && Fits(c, f);
    match c.resolvedBy
    case None => assert false;
    case Some(ByCallback) =>
      var b :| b in w.log.bodies && b.reference == c.reference.value && c.resultCode == Some(b.code);
      assert Truthful(f, b);
    case Some(ByQuery) =>
      assert (c.reference.value, c.resultCode.value) in w.log.answers;
  }

  /** Until the provider has decided, so long as it says nothing, the charge is PENDING. */
  lemma UndecidedStaysPending(run: seq<World>, acts: seq<Act>, fakes: seq<State>, drives: seq<Drive>,
                              delay: int, h: Checksum, i: nat, id: ChargeId)
    requires FakeRun(run, acts, fakes, drives, delay, h) && i < |run| && id in run[i].tables.charges
    requires var c := run[i].tables.charges[id];
      c.reference.None? || c.reference.value in UnresolvedTimeouts(fakes[i])
    ensures run[i].tables.charges[id].status.Pending?
  {
    hide FakeRun;
    if !run[i].tables.charges[id].status.Pending? {
      AgreesWithProvider(run, acts, fakes, drives, delay, h, i, id);
    }
  }

  // ---------------------------------------------------------------- replays

  lemma CommittedIsRecorded(seen: Tables, pool: Tables, t: Tables, body: StkBody, verdict: Verdict, now: Instant)
    requires Views(seen, pool, t) && CallbackTx(seen, pool, t, body, verdict, now).Committed?
    ensures KeyOf(body) in CallbackTx(seen, pool, t, body, verdict, now).tables.events
  {
    CallbackEffect(seen, pool, t, body, verdict, now);
    hide CallbackTx, Sound, Evolves, RowsAfter, PaysOnlyAgreed, ClaimedByOnlyCandidate;
  }

  /**
    * Once a callback's transaction has committed, the same body again, whatever it reads and whatever the
    * provider is asked, counts a duplicate and moves nothing.
    */
  lemma ReplayMovesNothing(seen: Tables, pool: Tables, t: Tables, body: StkBody, verdict: Verdict, now: Instant,
                           later: Tables, seenThen: Tables, poolThen: Tables, verdictThen: Verdict, then_: Instant)
    requires Views(seen, pool, t) && CallbackTx(seen, pool, t, body, verdict, now).Committed?
    requires Evolves(CallbackTx(seen, pool, t, body, verdict, now).tables, later)
    ensures KeyOf(body) in later.events
    ensures var event := later.events[KeyOf(body)];
      CallbackTx(seenThen, poolThen, later, body, verdictThen, then_) ==
        Committed(later.(events := later.events[KeyOf(body) := event.(duplicates := event.duplicates + 1)]), Duplicate)
  {
    CommittedIsRecorded(seen, pool, t, body, verdict, now);
    hide Sound;
  }
}
