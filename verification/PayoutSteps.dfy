/**
  * The payout services as stretches of the payout protocol, and what they leave, column by column: which
  * reply of Daraja moves a payout and its ledger row, and which result ends them.
  */
module PayoutSteps {
  import opened Common
  import opened Charges
  import opened Payouts
  import opened PayoutProtocol
  import opened PayoutInvariants
  import opened PayoutsDb

  // ---------------------------------------------------------------- the close's insert

  /** The first write of a key adds its row, COMPUTED exactly when it can be sent; a later one changes nothing. */
  lemma WriteOutcome(t: PayoutTables, lid: LedgerId, key: Key, f: Figures, runId: RunId)
    requires lid !in t.ledger
    ensures var t' := WriteLedger(t, lid, key, f, runId);
      && t'.payouts == t.payouts && t'.events == t.events
      && (lid in t'.ledger <==> forall id :: id in t.ledger ==> t.ledger[id].key != key)
      && (lid !in t'.ledger ==> t'.ledger == t.ledger)
      && (lid in t'.ledger ==>
            t'.ledger == t.ledger[lid := t'.ledger[lid]]
            && t'.ledger[lid].key == key && t'.ledger[lid].figures == f && t'.ledger[lid].runId == runId
            && t'.ledger[lid].status == if f.payout > 0 && f.msisdn != NO_MSISDN then LedgerComputed else LedgerSkipped)
  {
  }

  // ---------------------------------------------------------------- sendB2C

  // Of the payouts and the ledger, at most this one and this row have changed.
  ghost predicate OnlyThese(t: PayoutTables, t': PayoutTables, pid: PayoutId, lid: LedgerId) {
    && pid in t.payouts && pid in t'.payouts && t'.payouts == t.payouts[pid := t'.payouts[pid]]
    && t'.ledger.Keys == t.ledger.Keys && (forall id :: id in t.ledger && id != lid ==> t'.ledger[id] == t.ledger[id])
  }

  /**
    * Only a rejection decides a payout, and only a PENDING one; its ledger row then fails with it. An
    * acknowledgement leaves the payout as it was, with its conversation, and moves its row from COMPUTED to
    * REQUESTED; a timeout or any other error moves neither.
    */
  lemma SendOutcome(t: PayoutTables, pid: PayoutId, lid: LedgerId, reply: B2CReply)
    requires pid in t.payouts && lid in t.ledger
    ensures OnlyThese(t, AfterSend(t, pid, lid, reply), pid, lid) && AfterSend(t, pid, lid, reply).events == t.events
    ensures var t' := AfterSend(t, pid, lid, reply);
      var p, q := t.payouts[pid], t'.payouts[pid];
      var row, now := t.ledger[lid].status, t'.ledger[lid];
      var refused := reply.B2CRejected? && p.status == PayoutPending;
      var accepted := reply.B2CAccepted? && !ConversationTaken(t, pid, reply.conversation);
      && q.ledgerId == p.ledgerId && q.tenantId == p.tenantId && q.amount == p.amount && q.msisdn == p.msisdn
      && q.attempts == p.attempts + 1
      && q.status == (if refused then PayoutFailed else p.status)
      && q.ending == (if refused then Some(ByRefusal(reply.response)) else p.ending)
      && q.conversation == (if accepted then Some(reply.conversation) else p.conversation)
      && q.uncertain == (if accepted then false else p.uncertain || reply == B2CUncertain || refused)
      && now.key == t.ledger[lid].key && now.figures == t.ledger[lid].figures && now.runId == t.ledger[lid].runId
      && now.status ==
           (if reply.B2CRejected? && row in {LedgerComputed, LedgerRequested} then LedgerFailed
            else if accepted && row == LedgerComputed then LedgerRequested
            else row)
  {
    if reply.B2CAccepted? { SameConversations(t, pid, reply.conversation); }
    hide ConversationTaken;
  }

  lemma SameConversations(t: PayoutTables, pid: PayoutId, c: Conversation)
    requires pid in t.payouts
    ensures ConversationTaken(CountSend(t, pid), pid, c) == ConversationTaken(t, pid, c)
    ensures AckPayout(CountSend(t, pid), pid, c) ==
      if ConversationTaken(t, pid, c) then CountSend(t, pid)
      else Write(t, pid, t.payouts[pid].(attempts := t.payouts[pid].attempts + 1, conversation := Some(c), uncertain := false))
  {
    var counted := CountSend(t, pid);
    assert forall other :: other in counted.payouts && other != pid ==> counted.payouts[other] == t.payouts[other];
    var p := t.payouts[pid].(attempts := t.payouts[pid].attempts + 1, conversation := Some(c), uncertain := false);
    assert counted.payouts[pid := p] == t.payouts[pid := p];
  }

  // ---------------------------------------------------------------- stretches

  ghost function Do(w: PayoutWorld, s: PayoutStep): PayoutWorld {
    PayoutWorld(TablesNext(w, w, s), LogNext(w, w, s))
  }

  ghost function Played(w: PayoutWorld, steps: seq<PayoutStep>): PayoutWorld {
    if steps == [] then w else Do(Played(w, steps[..|steps| - 1]), steps[|steps| - 1])
  }

  ghost predicate Playable(w: PayoutWorld, steps: seq<PayoutStep>) {
    steps != [] ==>
      var n := |steps| - 1;
      var m := Played(w, steps[..n]);
      Playable(w, steps[..n]) && CanStep(m, m, steps[n])
  }

  lemma PlayOn(w: PayoutWorld, steps: seq<PayoutStep>, s: PayoutStep)
    ensures Played(w, steps + [s]) == Do(Played(w, steps), s)
    ensures Playable(w, steps + [s]) <==> Playable(w, steps) && CanStep(Played(w, steps), Played(w, steps), s)
  {
    assert (steps + [s])[..|steps|] == steps;
    hide Do, CanStep;
  }

  lemma {:induction false} PlayBoth(w: PayoutWorld, steps: seq<PayoutStep>, more: seq<PayoutStep>)
    ensures Played(w, steps + more) == Played(Played(w, steps), more)
    ensures Playable(w, steps + more) <==> Playable(w, steps) && Playable(Played(w, steps), more)
  {
    hide Do, CanStep;
    if more == [] {
      assert steps + more == steps;
    } else {
      var n := |more| - 1;
      PlayBoth(w, steps, more[..n]);
      assert steps + more == (steps + more[..n]) + [more[n]] && more == more[..n] + [more[n]];
      PlayOn(w, steps + more[..n], more[n]);
      PlayOn(Played(w, steps), more[..n], more[n]);
    }
  }

  // The run, continued by the steps; every actor reads the moment before its step.
  ghost function Worlds(run: seq<PayoutWorld>, steps: seq<PayoutStep>): seq<PayoutWorld>
    requires run != []
  {
    if steps == [] then run else Worlds(run, steps[..|steps| - 1]) + [Played(run[|run| - 1], steps)]
  }

  function Acts(acts: seq<PayoutAct>, steps: seq<PayoutStep>): seq<PayoutAct> {
    if steps == [] then acts
    else
      var before := Acts(acts, steps[..|steps| - 1]);
      before + [PayoutAct(steps[|steps| - 1], |before|)]
  }

  /** A playable stretch continues any payout run, and ends where it says. */
  lemma {:induction false} StretchContinues(run: seq<PayoutWorld>, acts: seq<PayoutAct>, steps: seq<PayoutStep>)
    requires IsPayoutRun(run, acts) && Playable(run[|acts|], steps)
    ensures IsPayoutRun(Worlds(run, steps), Acts(acts, steps))
    ensures |Acts(acts, steps)| == |acts| + |steps| && run <= Worlds(run, steps) && acts <= Acts(acts, steps)
    ensures Worlds(run, steps)[|acts| + |steps|] == Played(run[|acts|], steps)
  {
    hide CanStep, Do, PayoutInit, TablesNext, LogNext;
    if steps != [] {
      var n := |steps| - 1;
      StretchContinues(run, acts, steps[..n]);
      OneMoreAct(Worlds(run, steps[..n]), Acts(acts, steps[..n]), steps[n]);
    }
  }

  lemma OneMoreAct(run: seq<PayoutWorld>, acts: seq<PayoutAct>, s: PayoutStep)
    requires IsPayoutRun(run, acts) && CanStep(run[|acts|], run[|acts|], s)
    ensures IsPayoutRun(run + [Do(run[|acts|], s)], acts + [PayoutAct(s, |acts|)])
  {
    var run', acts' := run + [Do(run[|acts|], s)], acts + [PayoutAct(s, |acts|)];
    hide CanStep, TablesNext, LogNext, PayoutInit;
    forall i | 0 <= i < |acts'| ensures acts'[i].v <= i && PayoutNext(run'[acts'[i].v], run'[i], run'[i + 1], acts'[i].step) {
      if i < |acts| {
        assert acts[i].v <= i && PayoutNext(run[acts[i].v], run[i], run[i + 1], acts[i].step);
      }
    }
  }

  // ---------------------------------------------------------------- sendB2C as a stretch

  /** The steps of one execution of sendB2C, by how its call ended; a lost call may or may not have left. */
  function SendSteps(t: PayoutTables, pid: PayoutId, reply: B2CReply, n: SendId, left: bool): seq<PayoutStep> {
    [SendCounted(pid, n)]
    + (if left || reply.B2CRejected? || reply.B2CAccepted? then [RequestSent(pid, n)] else [])
    + match reply
      case B2CError => []
      case B2CUncertain => [UncertainNoted(pid)]
      case B2CRejected(response) =>
        [RequestRefused(pid), PayoutRefusalRecorded(pid, response), LedgerRefusalRecorded(pid)]
      case B2CAccepted(c) =>
        [RequestAcked(pid, c)]
        + if ConversationTaken(t, pid, c) then [] else [PayoutAckRecorded(pid, c), LedgerAckRecorded(pid)]
  }

  // The payout `pid` of a world, about to be sent by execution `n`.
  ghost predicate Sendable(w: PayoutWorld, pid: PayoutId, n: SendId) {
    && pid in w.tables.payouts && NeverReached(w.tables.payouts[pid]) && w.tables.payouts[pid].ledgerId in w.tables.ledger
    && n !in w.log.counted && n !in w.log.sent
  }

  // The two steps every execution begins with.
  lemma Begins(w: PayoutWorld, pid: PayoutId, n: SendId)
    requires Sendable(w, pid, n)
    ensures var w1 := Do(w, SendCounted(pid, n));
      var w2 := Do(w1, RequestSent(pid, n));
      && CanStep(w, w, SendCounted(pid, n)) && CanStep(w1, w1, RequestSent(pid, n))
      && w1.tables == CountSend(w.tables, pid) && w2.tables == w1.tables
      && (exists r :: r in w2.log.requests && r.originator == pid)
  {
    var figures := w.tables.ledger[w.tables.payouts[pid].ledgerId].figures;
    assert Request(pid, figures.payout, figures.msisdn) in Do(Do(w, SendCounted(pid, n)), RequestSent(pid, n)).log.requests;
  }

  lemma Beginning(w: PayoutWorld, pid: PayoutId, n: SendId, left: bool)
    requires Sendable(w, pid, n)
    ensures var steps := [SendCounted(pid, n)] + if left then [RequestSent(pid, n)] else [];
      && Playable(w, steps) && Played(w, steps).tables == CountSend(w.tables, pid)
      && (left ==> exists r :: r in Played(w, steps).log.requests && r.originator == pid)
  {
    Begins(w, pid, n);
    hide Do, CanStep, CountSend, Sendable;
    PlayOn(w, [], SendCounted(pid, n));
    assert [] + [SendCounted(pid, n)] == [SendCounted(pid, n)] == [SendCounted(pid, n)] + [];
    PlayOn(w, [SendCounted(pid, n)], RequestSent(pid, n));
  }

  /**
    * So sendB2C is a stretch of the payout protocol: a payout it fails was refused, one it acknowledges has an
    * acknowledgement in the log, and every request was counted first.
    */
  lemma SendIsStretch(w: PayoutWorld, pid: PayoutId, reply: B2CReply, n: SendId, left: bool)
    requires Sendable(w, pid, n)
    ensures var steps := SendSteps(w.tables, pid, reply, n, left);
      Playable(w, steps) && Played(w, steps).tables == AfterSend(w.tables, pid, w.tables.payouts[pid].ledgerId, reply)
  {
    var asked := left || reply.B2CRejected? || reply.B2CAccepted?;
    var begin := [SendCounted(pid, n)] + if asked then [RequestSent(pid, n)] else [];
    Beginning(w, pid, n, asked);
    var m, lid := Played(w, begin), w.tables.payouts[pid].ledgerId;
    hide Playable, Played;
    match reply
    case B2CError =>
      assert SendSteps(w.tables, pid, reply, n, left) == begin + [] == begin;
    case B2CUncertain =>
      PlayOn(w, begin, UncertainNoted(pid));
    case B2CRejected(response) =>
      RefusalEnds(w, begin, pid, lid, response);
    case B2CAccepted(c) =>
      AckEnds(w, begin, pid, lid, c);
  }

  lemma RefusalEnds(w: PayoutWorld, begin: seq<PayoutStep>, pid: PayoutId, lid: LedgerId, response: Option<int>)
    requires Playable(w, begin) && Played(w, begin).tables == CountSend(w.tables, pid)
    requires exists r :: r in Played(w, begin).log.requests && r.originator == pid
    requires pid in w.tables.payouts && w.tables.payouts[pid].ledgerId == lid
    ensures var steps := begin + [RequestRefused(pid), PayoutRefusalRecorded(pid, response), LedgerRefusalRecorded(pid)];
      && Playable(w, steps)
      && Played(w, steps).tables == RefuseLedger(RefusePayout(CountSend(w.tables, pid), pid, response), lid)
  {
    var a, b, c := RequestRefused(pid), PayoutRefusalRecorded(pid, response), LedgerRefusalRecorded(pid);
    PlayOn(w, begin, a);
    PlayOn(w, begin + [a], b);
    PlayOn(w, begin + [a] + [b], c);
    assert begin + [a] + [b] + [c] == begin + [a, b, c];
    hide Played, Playable;
  }

  lemma AckEnds(w: PayoutWorld, begin: seq<PayoutStep>, pid: PayoutId, lid: LedgerId, c: Conversation)
    requires Playable(w, begin) && Played(w, begin).tables == CountSend(w.tables, pid)
    requires exists r :: r in Played(w, begin).log.requests && r.originator == pid
    requires pid in w.tables.payouts && w.tables.payouts[pid].ledgerId == lid
    ensures var steps := begin + ([RequestAcked(pid, c)]
        + if ConversationTaken(w.tables, pid, c) then [] else [PayoutAckRecorded(pid, c), LedgerAckRecorded(pid)]);
      Playable(w, steps) && Played(w, steps).tables == AfterSend(w.tables, pid, lid, B2CAccepted(c))
  {
    var x, y, z := RequestAcked(pid, c), PayoutAckRecorded(pid, c), LedgerAckRecorded(pid);
    SameConversations(w.tables, pid, c);
    PlayOn(w, begin, x);
    PlayOn(w, begin + [x], y);
    PlayOn(w, begin + [x] + [y], z);
    assert begin + [x] + [y] + [z] == begin + ([x] + [y, z]);
    assert begin + ([x] + []) == begin + [x];
    hide Played, Playable, ConversationTaken;
  }

  // ---------------------------------------------------------------- createPayout

  lemma SendKeeps(t: PayoutTables, pid: PayoutId, reply: B2CReply)
    requires RowsSound(t) && pid in t.payouts
    ensures RowsKeep(t, AfterSend(t, pid, t.payouts[pid].ledgerId, reply))
  {
    hide RowsSound, PayoutsEvolve, ConversationTaken;
    var lid := t.payouts[pid].ledgerId;
    var counted := CountSend(t, pid);
    BookkeepingWriteKeeps(t, pid, t.payouts[pid].(attempts := t.payouts[pid].attempts + 1));
    match reply
    case B2CError =>
    case B2CUncertain =>
      var noted := NoteUncertain(counted, pid);
      BookkeepingWriteKeeps(counted, pid, counted.payouts[pid].(uncertain := true));
      EvolvesOn(t, counted, noted);
    case B2CRejected(response) =>
      var refused := RefusePayout(counted, pid, response);
      RefusePayoutKeeps(counted, pid, response);
      EvolvesOn(t, counted, refused);
      SameRows(refused);
      RefuseLedgerKeeps(refused, refused, pid);
      EvolvesOn(t, refused, RefuseLedger(refused, lid));
    case B2CAccepted(c) =>
      if !SendThrows(t, pid, reply) {
        SameConversations(t, pid, c);
        var acked := AckPayout(counted, pid, c);
        BookkeepingWriteKeeps(counted, pid, counted.payouts[pid].(conversation := Some(c), uncertain := false));
        assert acked.payouts == counted.payouts[pid := counted.payouts[pid].(conversation := Some(c), uncertain := false)];
        EvolvesOn(t, counted, acked);
        SameRows(acked);
        AckLedgerKeeps(acked, acked, pid);
        EvolvesOn(t, acked, AckLedger(acked, lid));
      }
  }

  lemma EvolvesOn(a: PayoutTables, b: PayoutTables, c: PayoutTables)
    requires PayoutsEvolve(a, b) && PayoutsEvolve(b, c)
    ensures PayoutsEvolve(a, c)
  {
    forall id | id in a.ledger ensures id in c.ledger && LedgerRowEvolves(a.ledger[id], c.ledger[id]) {
      assert LedgerRowEvolves(a.ledger[id], b.ledger[id]) && LedgerRowEvolves(b.ledger[id], c.ledger[id]);
    }
    forall id | id in a.payouts ensures id in c.payouts && PayoutEvolves(a.payouts[id], c.payouts[id]) {
      assert PayoutEvolves(a.payouts[id], b.payouts[id]) && PayoutEvolves(b.payouts[id], c.payouts[id]);
    }
  }

  // A payout for this row, of the row's own figures.
  ghost predicate PaidOut(t: PayoutTables, lid: LedgerId) {
    && lid in t.ledger
    && exists pid :: pid in t.payouts && t.payouts[pid].ledgerId == lid
         && t.payouts[pid].amount == t.ledger[lid].figures.payout && t.payouts[pid].msisdn == t.ledger[lid].figures.msisdn
  }

  /** A request for a COMPUTED row that can be paid leaves a payout of its figures, whatever Daraja replies. */
  lemma RequestLeavesPayout(t: PayoutTables, lid: LedgerId, pid: PayoutId, reply: B2CReply)
    requires RowsSound(t) && lid in t.ledger && t.ledger[lid].status.LedgerComputed? && pid !in t.payouts
    ensures var t' := CreateTx(t, t, lid, pid, reply).0;
      RowsKeep(t, t') && (t.ledger[lid].figures.payout % 100 == 0 ==> PaidOut(t', lid))
  {
    hide RowsSound, PayoutsEvolve, AfterSend, PayoutOf, HasPayout, PaidOut;
    ComputedIsOwed(t, lid);
    SameRows(t);
    if HasPayout(t, lid) {
      var existing := PayoutOf(t, lid);
      SendKeeps(t, existing, reply);
      PayoutFitsRow(t, existing);
      PaidOutStays(t, AfterSend(t, existing, lid, reply), lid);
    } else if t.ledger[lid].figures.payout % 100 == 0 {
      var made := InsertPayout(t, pid, lid, t.ledger[lid]);
      InsertPayoutKeeps(t, t, pid, lid);
      SendKeeps(made, pid, reply);
      EvolvesOn(t, made, AfterSend(made, pid, lid, reply));
      PayoutFitsRow(made, pid);
      PaidOutStays(made, AfterSend(made, pid, lid, reply), lid);
    }
  }

  lemma ComputedIsOwed(t: PayoutTables, lid: LedgerId)
    requires RowsSound(t) && lid in t.ledger && t.ledger[lid].status.LedgerComputed?
    ensures t.ledger[lid].figures.payout > 0
  {
  }

  lemma PayoutFitsRow(t: PayoutTables, pid: PayoutId)
    requires RowsSound(t) && pid in t.payouts
    ensures PaidOut(t, t.payouts[pid].ledgerId)
  {
    assert PairInStep(t, pid);
  }

  lemma PaidOutStays(t: PayoutTables, t': PayoutTables, lid: LedgerId)
    requires PaidOut(t, lid) && PayoutsEvolve(t, t')
    ensures PaidOut(t', lid)
  {
    var pid :| pid in t.payouts && t.payouts[pid].ledgerId == lid
      && t.payouts[pid].amount == t.ledger[lid].figures.payout && t.payouts[pid].msisdn == t.ledger[lid].figures.msisdn;
    assert PayoutEvolves(t.payouts[pid], t'.payouts[pid]) && LedgerRowEvolves(t.ledger[lid], t'.ledger[lid]);
  }

  /** The first request for a row makes its payout and sends it once; the reply decides the rest. */
  lemma FirstRequestOutcome(t: PayoutTables, lid: LedgerId, pid: PayoutId, reply: B2CReply)
    requires lid in t.ledger && Payable(t.ledger[lid]) && !HasPayout(t, lid) && pid !in t.payouts
    ensures var (t', answer) := CreateTx(t, t, lid, pid, reply);
      var f := t.ledger[lid].figures;
      && pid in t'.payouts && t'.payouts == t.payouts[pid := t'.payouts[pid]] && t'.events == t.events
      && (var p := t'.payouts[pid];
          && p.ledgerId == lid && p.tenantId == t.ledger[lid].key.tenantId && p.amount == f.payout && p.msisdn == f.msisdn
          && p.attempts == 1
          && (p.status == PayoutFailed <==> reply.B2CRejected?) && (p.status == PayoutPending <==> !reply.B2CRejected?)
          && (p.conversation.Some? ==> reply == B2CAccepted(p.conversation.value)))
      && (reply.B2CRejected? || reply == B2CUncertain ==> answer == NewlyCreated(pid))
      && (answer == NewlyCreated(pid) && reply.B2CAccepted? ==> t'.payouts[pid].conversation == Some(reply.conversation))
  {
    var made := InsertPayout(t, pid, lid, t.ledger[lid]);
    SendOutcome(made, pid, lid, reply);
    hide AfterSend, HasPayout, ConversationTaken;
  }

  /** And that request is a stretch: one insert, one send. */
  lemma FirstRequestIsStretch(w: PayoutWorld, lid: LedgerId, pid: PayoutId, reply: B2CReply, n: SendId, left: bool)
    requires lid in w.tables.ledger && w.tables.ledger[lid].status.LedgerComputed? && Payable(w.tables.ledger[lid])
    requires !HasPayout(w.tables, lid) && pid !in w.tables.payouts && n !in w.log.counted && n !in w.log.sent
    ensures var made := InsertPayout(w.tables, pid, lid, w.tables.ledger[lid]);
      var steps := [PayoutInserted(pid, lid)] + SendSteps(made, pid, reply, n, left);
      Playable(w, steps) && Played(w, steps).tables == CreateTx(w.tables, w.tables, lid, pid, reply).0
  {
    var first := PayoutInserted(pid, lid);
    PlayOn(w, [], first);
    assert [] + [first] == [first];
    var made := InsertPayout(w.tables, pid, lid, w.tables.ledger[lid]);
    SendIsStretch(Do(w, first), pid, reply, n, left);
    PlayBoth(w, [first], SendSteps(made, pid, reply, n, left));
    hide SendSteps, AfterSend, Played, Playable, HasPayout;
  }

  // ---------------------------------------------------------------- results

  /**
    * The first result for a PENDING payout ends it and its ledger row together: PAID for a zero result of its
    * exact amount, FAILED for any other code; a zero result of another amount is held and moves nothing.
    */
  lemma ResultOutcome(seen: PayoutTables, t: PayoutTables, b: ResultBody)
    requires RowsSound(t) && PayoutsEvolve(seen, t) && ResultKey(b) !in t.events
    ensures var (t', outcome) := ResultTx(seen, t, b);
      var pid := b.originator;
      var known := pid in seen.payouts;
      && (known ==> pid in t.payouts && t.payouts[pid].ledgerId in t.ledger)
      && (!known ==>
            && outcome == B2CUnmatched && t'.payouts == t.payouts && t'.ledger == t.ledger
            && t'.events == t.events[ResultKey(b) := Event(false, false, 0)])
      && (known ==>
            var p, lid := t.payouts[pid], t.payouts[pid].ledgerId;
            var agreed := b.code != 0 || b.amount == Some(p.amount);
            var ends := agreed && p.status == PayoutPending;
            && (ends <==> outcome == B2CSettled(pid, true)) && (!agreed <==> outcome == B2CHeld(pid))
            && t'.events == t.events[ResultKey(b) := Event(true, ends, 0)]
            && (!ends ==> t'.payouts == t.payouts && t'.ledger == t.ledger)
            && (ends ==>
                  && OnlyThese(t, t', pid, lid)
                  && t'.payouts[pid] == p.(status := if b.code == 0 then PayoutPaid else PayoutFailed,
                       ending := Some(ByResult(b.code)))
                  && t'.ledger[lid] == t.ledger[lid].(status := if b.code == 0 then LedgerPaid else LedgerFailed)))
  {
    if b.originator in seen.payouts {
      assert PayoutEvolves(seen.payouts[b.originator], t.payouts[b.originator]);
      assert PairInStep(t, b.originator);
      hide RowsSound, PayoutsEvolve, PairInStep;
      if t.payouts[b.originator].status.PayoutPending? { EndMovesBoth(MarkEvent(t, ResultKey(b), true), b.originator, b.code); }
    }
    hide RowsSound, PayoutsEvolve, PairInStep, EndPayout;
  }

  lemma EndMovesBoth(t: PayoutTables, pid: PayoutId, code: int)
    requires pid in t.payouts && t.payouts[pid].ledgerId in t.ledger
    requires t.ledger[t.payouts[pid].ledgerId].status in {LedgerComputed, LedgerRequested}
    ensures var t', lid := EndPayout(t, pid, code), t.payouts[pid].ledgerId;
      && OnlyThese(t, t', pid, lid) && t'.events == t.events
      && t'.payouts[pid] == t.payouts[pid].(status := if code == 0 then PayoutPaid else PayoutFailed, ending := Some(ByResult(code)))
      && t'.ledger[lid] == t.ledger[lid].(status := if code == 0 then LedgerPaid else LedgerFailed)
  {
  }
}
