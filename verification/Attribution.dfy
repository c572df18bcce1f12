/**
  * No mis-attribution: when each charge is pushed once, callbacks echo their own push and arrive within
  * the adoption window, and purges keep clear of it, every reference a charge ever holds is the
  * reference of its own push, across late acknowledgements, adoptions and ambiguous candidates.
  */
module Attribution {
  import opened Common
  import opened Charges
  import opened ChargeInvariants
  import opened CallbackLemmas
  import opened PosTables
  import opened Protocol
  import opened ProtocolInvariants

  ghost predicate NeverPushed(log: Log, id: ChargeId) {
    id !in log.refusals && forall r :: r in log.pushes ==> log.pushes[r].chargeId != id
  }

  // A success body repeats the amount and phone of the push its reference names.
  ghost predicate Echoes(log: Log, body: StkBody) {
    body.code == SUCCESS ==>
      && body.reference in log.pushes
      && body.amount == Some(log.pushes[body.reference].amount) && body.msisdn == log.pushes[body.reference].msisdn
  }

  // What the environment promises about one step.
  ghost predicate HonestStep(v: World, u: World, w: World, s: Step) {
    match s
    case PushReaches(id, _, _) => NeverPushed(w.log, id)
    case PushRefused(id) => NeverPushed(w.log, id)
    case CallbackApplied(body, _, _, _, _) =>
      && Echoes(v.log, body)
      && (body.code == SUCCESS && body.reference in v.log.pushes ==>
            var id := v.log.pushes[body.reference].chargeId;
            id in w.tables.born ==> u.clock <= w.tables.born[id].createdAt + ADOPTION_WINDOW)
    case Purged(_, age, _) => age >= ADOPTION_WINDOW
    case _ => true
  }

  ghost predicate HonestRun(run: seq<World>, acts: seq<Act>) {
    IsRun(run, acts) && forall i :: 0 <= i < |acts| ==>
      acts[i].v <= i && acts[i].u <= i && HonestStep(run[acts[i].v], run[acts[i].u], run[i], acts[i].step)
  }

  // ---------------------------------------------------------------- the invariant

  ghost predicate OwnReferences(w: World) {
    forall id :: id in w.tables.charges && w.tables.charges[id].reference.Some? ==>
      var r := w.tables.charges[id].reference.value;
      r in w.log.pushes && w.log.pushes[r].chargeId == id
  }

  ghost predicate PushesOnce(w: World) {
    && (forall r, q :: r in w.log.pushes && q in w.log.pushes && w.log.pushes[r].chargeId == w.log.pushes[q].chargeId ==> r == q)
    && (forall r :: r in w.log.pushes ==> w.log.pushes[r].chargeId !in w.log.refusals)
  }

  ghost predicate PushesMatch(w: World) {
    && (forall r :: r in w.log.pushes ==>
          var p := w.log.pushes[r];
          p.chargeId in w.tables.born
          && p.amount == w.tables.born[p.chargeId].amount && p.msisdn == w.tables.born[p.chargeId].msisdn)
    && (forall a :: a in w.log.acks ==> a.1 in w.log.pushes && w.log.pushes[a.1].chargeId == a.0)
  }

  ghost predicate PurgedAreOld(w: World) {
    forall id :: id in w.tables.born && id !in w.tables.charges ==>
      w.tables.born[id].createdAt + ADOPTION_WINDOW < w.clock
  }

  ghost predicate Attributed(w: World) {
    OwnReferences(w) && PushesOnce(w) && PushesMatch(w) && PurgedAreOld(w)
  }

  // ---------------------------------------------------------------- the key step

  /** In what findAdoptableCharge read, the charge whose push the callback belongs to is itself a candidate. */
  lemma OwnerIsCandidate(u: World, body: StkBody, now: Instant)
    requires Inv(u) && Attributed(u) && Echoes(u.log, body) && body.code == SUCCESS
    requires var id := u.log.pushes[body.reference].chargeId;
      id in u.tables.born && now <= u.clock <= u.tables.born[id].createdAt + ADOPTION_WINDOW
    ensures var id := u.log.pushes[body.reference].chargeId;
      && id in u.tables.charges
      && (u.tables.charges[id].reference == Some(body.reference)
          || id in Candidates(u.tables, body.amount.value, body.msisdn, now))
  {
    hide OneEffect, UniqueKeys, AppliedOnce;
    var id := u.log.pushes[body.reference].chargeId;
    assert id in u.tables.charges;
    var c := u.tables.charges[id];
    assert WellShaped(c) && EvidenceFor(u.log, id, c);
    if c.reference.Some? {
      assert u.log.pushes[c.reference.value].chargeId == id;
    } else {
      assert c.resolvedBy.None?;
      assert id !in u.log.refusals;
    }
  }

  /** So a claimed reference goes to its owner. */
  lemma AdoptionFindsOwner(p: World, v: World, u: World, w: World, w': World, s: Step, j: ChargeId)
    requires Behind(p, v, u, w) && Next(p, v, u, w, w', s) && s.CallbackApplied? && HonestStep(v, u, w, s)
    requires Attributed(u) && Attributed(w) && Inv(w') && Grows(w, w')
    requires j in w.tables.charges && j in w'.tables.charges
    requires w'.tables.charges[j].reference != w.tables.charges[j].reference
    ensures w'.tables.charges[j].reference == Some(s.body.reference)
    ensures s.body.reference in w.log.pushes && w.log.pushes[s.body.reference].chargeId == j
  {
    hide Sound, Evolves, CallbackTx, AppliedOnce, Evidence, VerdictFor, EventsAfter, PaysOnlyAgreed, PurgedAreOld,
      PushesOnce, OwnReferences;
    var body := s.body;
    assert Views(v.tables, u.tables, w.tables);
    CallbackEffect(v.tables, u.tables, w.tables, body, s.verdict, s.now);
    assert RowAfter(w.tables.charges[j], w'.tables.charges[j], body,
      Resolves(CallbackTx(v.tables, u.tables, w.tables, body, s.verdict, s.now).value, j));
    var owner := v.log.pushes[body.reference].chargeId;
    BornBehind(v, u, w, body);
    OwnerIsCandidate(u, body, s.now);
    if u.tables.charges[owner].reference == Some(body.reference) {
      HeldIsNotClaimed(u, w, w', owner, j, body.reference);
      assert false;
    } else {
      assert Candidates(u.tables, body.amount.value, body.msisdn, s.now) == {j};
    }
  }

  lemma BornBehind(v: World, u: World, w: World, body: StkBody)
    requires Inv(u) && Inv(w) && Grows(v, u) && Grows(u, w) && PushesMatch(u) && body.reference in v.log.pushes
    ensures body.reference in u.log.pushes && u.log.pushes[body.reference] == v.log.pushes[body.reference]
    ensures body.reference in w.log.pushes && w.log.pushes[body.reference] == v.log.pushes[body.reference]
    ensures var id := v.log.pushes[body.reference].chargeId;
      id in u.tables.born && id in w.tables.born && w.tables.born[id] == u.tables.born[id]
  {
    hide Inv;
  }

  /** A reference somebody held at u is claimed by nobody in the step from w to w'. */
  lemma HeldIsNotClaimed(u: World, w: World, w': World, owner: ChargeId, j: ChargeId, r: Reference)
    requires Inv(u) && Inv(w) && Inv(w') && Grows(u, w) && Grows(w, w')
    requires owner in u.tables.charges && u.tables.charges[owner].reference == Some(r)
    requires j in w.tables.charges && j in w'.tables.charges && w'.tables.charges[j].reference == Some(r)
    ensures w.tables.charges[j].reference == Some(r)
  {
    hide Evidence, AppliedOnce, OneEffect, Shapes, LogGrows;
    StillHeld(u.tables, w.tables, owner, r);
    StillHeld(w.tables, w'.tables, owner, r);
  }

  // ---------------------------------------------------------------- one step

  lemma ReferencesStayOwn(p: World, v: World, u: World, w: World, w': World, s: Step)
    requires Behind(p, v, u, w) && Next(p, v, u, w, w', s) && HonestStep(v, u, w, s)
    requires Attributed(u) && Attributed(w)
    ensures OwnReferences(w')
  {
    hide Sound, Evolves, CallbackTx, QueryTx, AppliedOnce, Evidence, VerdictFor, PurgedAreOld, PushesOnce, Inv, Behind;
    StepKeeps(p, v, u, w, w', s);
    forall id | id in w'.tables.charges && w'.tables.charges[id].reference.Some?
      ensures var r := w'.tables.charges[id].reference.value;
        r in w'.log.pushes && w'.log.pushes[r].chargeId == id
    {
      if id in w.tables.charges && w.tables.charges[id].reference == w'.tables.charges[id].reference {
      } else if s.CallbackApplied? {
        CallbackKeepsIds(p, v, u, w, s);
        AdoptionFindsOwner(p, v, u, w, w', s, id);
      } else if s.QueryApplied? {
        QueryKeepsReferences(p, v, u, w, s);
        assert false;
      }
    }
  }

  lemma CallbackKeepsIds(p: World, v: World, u: World, w: World, s: Step)
    requires Behind(p, v, u, w) && Enabled(p, v, u, w, s) && s.CallbackApplied?
    ensures TablesAfter(v, u, w, s).charges.Keys == w.tables.charges.Keys
  {
    hide Sound, Evolves, CallbackTx, AppliedOnce, Evidence, VerdictFor, EventsAfter, PaysOnlyAgreed, ClaimedByOnlyCandidate;
    CallbackEffect(v.tables, u.tables, w.tables, s.body, s.verdict, s.now);
  }

  lemma QueryKeepsReferences(p: World, v: World, u: World, w: World, s: Step)
    requires Behind(p, v, u, w) && Enabled(p, v, u, w, s) && s.QueryApplied?
    ensures TablesAfter(v, u, w, s).charges.Keys == w.tables.charges.Keys
    ensures forall id :: id in w.tables.charges ==>
      TablesAfter(v, u, w, s).charges[id].reference == w.tables.charges[id].reference
  {
    hide Sound, Evolves, CallbackTx, AppliedOnce, Evidence;
    if s.id in u.tables.charges {
      QueryResolvable(v.tables, u.tables, w.tables, s.id, s.code);
      CountAttemptKeeps(w.tables, s.id);
      ResolveOutcome(CountAttempt(w.tables, s.id), s.id, u.tables.charges[s.id],
        Resolution(s.code == SUCCESS, s.code, None, ByQuery), s.now);
    }
  }

  lemma PushesStayOnce(p: World, v: World, u: World, w: World, w': World, s: Step)
    requires Next(p, v, u, w, w', s) && HonestStep(v, u, w, s) && PushesOnce(w)
    ensures PushesOnce(w')
  {
    hide CallbackTx, QueryTx, VerdictFor, TablesAfter, DeliveryAfter, Echoes;
  }

  lemma PushesStayRight(p: World, v: World, u: World, w: World, w': World, s: Step)
    requires Behind(p, v, u, w) && Next(p, v, u, w, w', s) && PushesMatch(w)
    ensures PushesMatch(w')
  {
    hide Sound, CallbackTx, QueryTx, AppliedOnce, Evidence, VerdictFor, TablesAfter, DeliveryAfter, LogGrows;
    StepKeeps(p, v, u, w, w', s);
    if s.PushReaches? { PushedRow(v, w, s.id); }
  }

  lemma PushedRow(v: World, w: World, id: ChargeId)
    requires Inv(v) && Grows(v, w) && id in v.tables.charges
    ensures id in w.tables.born && w.tables.born[id] == v.tables.charges[id].facts
  {
  }

  lemma PurgedStayOld(p: World, v: World, u: World, w: World, w': World, s: Step)
    requires Behind(p, v, u, w) && Next(p, v, u, w, w', s) && HonestStep(v, u, w, s) && PurgedAreOld(w)
    ensures PurgedAreOld(w')
  {
    hide Sound, Evolves, CallbackTx, QueryTx, AppliedOnce, Evidence, VerdictFor, LogAfter, DeliveryAfter, Echoes, LogGrows;
    SoundParts(w.tables);
    if s.CallbackApplied? {
      CallbackKeepsIds(p, v, u, w, s);
      BornKept(p, v, u, w, s);
    } else if s.QueryApplied? {
      QueryKeepsReferences(p, v, u, w, s);
      BornKept(p, v, u, w, s);
    }
  }

  lemma BornKept(p: World, v: World, u: World, w: World, s: Step)
    requires Behind(p, v, u, w) && Enabled(p, v, u, w, s) && (s.CallbackApplied? || s.QueryApplied?)
    ensures TablesAfter(v, u, w, s).born == w.tables.born
  {
    hide Sound, Evolves, CallbackTx, AppliedOnce, Evidence, VerdictFor, EventsAfter, PaysOnlyAgreed, ClaimedByOnlyCandidate;
    if s.CallbackApplied? {
      CallbackEffect(v.tables, u.tables, w.tables, s.body, s.verdict, s.now);
    }
  }

  lemma AttributedStep(p: World, v: World, u: World, w: World, w': World, s: Step)
    requires Behind(p, v, u, w) && Next(p, v, u, w, w', s) && HonestStep(v, u, w, s)
    requires Attributed(u) && Attributed(w)
    ensures Attributed(w')
  {
    hide Behind, Next, HonestStep, OwnReferences, PushesOnce, PushesMatch, PurgedAreOld;
    ReferencesStayOwn(p, v, u, w, w', s);
    PushesStayOnce(p, v, u, w, w', s);
    PushesStayRight(p, v, u, w, w', s);
    PurgedStayOld(p, v, u, w, w', s);
  }

  // ---------------------------------------------------------------- every run

  lemma {:induction false} AttributedRun(run: seq<World>, acts: seq<Act>, n: nat)
    requires HonestRun(run, acts) && n < |run|
    ensures forall i :: 0 <= i <= n ==> Attributed(run[i])
  {
    hide Attributed, Inv, Grows, Next, HonestStep, Behind;
    if n == 0 {
      AttributedInitially(run[0]);
    } else {
      AttributedRun(run, acts, n - 1);
      RunKeeps(run, acts, n);
      assert Linked(run, acts, n - 1);
      var a := acts[n - 1];
      BehindInRun(run, n, a.p, a.v, a.u, n - 1);
      AttributedStep(run[a.p], run[a.v], run[a.u], run[n - 1], run[n], a.step);
    }
  }

  lemma AttributedInitially(w: World)
    requires Init(w)
    ensures Attributed(w)
  {
  }

  /** Every checkout_request_id a charge ever holds is the reference of that charge's own push. */
  lemma NoMisattribution(run: seq<World>, acts: seq<Act>, i: nat, id: ChargeId)
    requires HonestRun(run, acts) && i < |run|
    requires id in run[i].tables.charges && run[i].tables.charges[id].reference.Some?
    ensures var r := run[i].tables.charges[id].reference.value;
      && r in run[i].log.pushes && run[i].log.pushes[r].chargeId == id
      && run[i].log.pushes[r].amount == run[i].tables.charges[id].facts.amount
      && run[i].log.pushes[r].msisdn == run[i].tables.charges[id].facts.msisdn
  {
    AttributedRun(run, acts, i);
    RunKeeps(run, acts, i + 1);
    assert Inv(run[i]) && Attributed(run[i]);
  }
}
