/** Whole-run theorems about payouts: no second disbursement, coherent status columns, no guessing, convergence. */
module PayoutTheorems {
  import opened Common
  import opened Charges
  import opened Payouts
  import opened PayoutProtocol
  import opened PayoutInvariants

  // ---------------------------------------------------------------- duplicate disbursement = 0

  // The (tenant, attendant, day) a payout is for.
  ghost predicate PaysFor(t: PayoutTables, pid: PayoutId, key: Key) {
    pid in t.payouts && t.payouts[pid].ledgerId in t.ledger && t.ledger[t.payouts[pid].ledgerId].key == key
  }

  /** One ledger row per (tenant, attendant, day), over any overlapping or torn closes. */
  lemma OneLedgerRowPerKey(run: seq<PayoutWorld>, acts: seq<PayoutAct>, i: nat, x: LedgerId, y: LedgerId)
    requires IsPayoutRun(run, acts) && i < |run|
    requires x in run[i].tables.ledger && y in run[i].tables.ledger
    requires run[i].tables.ledger[x].key == run[i].tables.ledger[y].key
    ensures x == y
  {
    PayoutRunKeeps(run, acts, i + 1);
    assert PayoutInv(run[i]);
  }

  /** And every payout is for one such key, which no other payout is for. */
  lemma OnePayoutPerKey(run: seq<PayoutWorld>, acts: seq<PayoutAct>, i: nat, a: PayoutId, b: PayoutId)
    requires IsPayoutRun(run, acts) && i < |run|
    ensures var t := run[i].tables;
      && (a in t.payouts ==> exists key :: PaysFor(t, a, key))
      && (forall key :: PaysFor(t, a, key) && PaysFor(t, b, key) ==> a == b)
  {
    PayoutRunKeeps(run, acts, i + 1);
    var t := run[i].tables;
    assert PayoutInv(run[i]);
    if a in t.payouts {
      assert PairInStep(t, a);
      assert PaysFor(t, a, t.ledger[t.payouts[a].ledgerId].key);
    }
  }

  /** Every request ever sent for a key is the same request, and says what the key's ledger row says. */
  lemma OneRequestPerKey(run: seq<PayoutWorld>, acts: seq<PayoutAct>, i: nat, r: Request, q: Request, key: Key)
    requires IsPayoutRun(run, acts) && i < |run|
    requires r in run[i].log.requests && q in run[i].log.requests
    requires PaysFor(run[i].tables, r.originator, key) && PaysFor(run[i].tables, q.originator, key)
    ensures r == q
    ensures FirstWrite(run[i].log.writes, key).Some?
    ensures var f := FirstWrite(run[i].log.writes, key).value;
      r.amount == f.payout > 0 && r.msisdn == f.msisdn != NO_MSISDN
  {
    PayoutRunKeeps(run, acts, i + 1);
    OnePayoutPerKey(run, acts, i, r.originator, q.originator);
    assert PayoutInv(run[i]);
    assert PairInStep(run[i].tables, r.originator);
  }

  /** A row is SKIPPED for good exactly when it has nothing to send or nowhere to send it, and then has no payout. */
  lemma SkippedIsUnpayable(run: seq<PayoutWorld>, acts: seq<PayoutAct>, i: nat, lid: LedgerId)
    requires IsPayoutRun(run, acts) && i < |run| && lid in run[i].tables.ledger
    ensures var row := run[i].tables.ledger[lid];
      && (row.status.LedgerSkipped? <==> row.figures.payout == 0 || row.figures.msisdn == NO_MSISDN)
      && (row.status.LedgerSkipped? ==> !HasPayout(run[i].tables, lid))
  {
    PayoutRunKeeps(run, acts, i + 1);
    assert PayoutInv(run[i]);
    forall pid | pid in run[i].tables.payouts && run[i].tables.payouts[pid].ledgerId == lid
      ensures !run[i].tables.ledger[lid].status.LedgerSkipped?
    {
      assert PairInStep(run[i].tables, pid);
    }
  }

  ghost function MovedFor(w: PayoutWorld, transfers: seq<Request>, key: Key): nat {
    if transfers == [] then 0
    else
      var n := |transfers| - 1;
      MovedFor(w, transfers[..n], key) + if PaysFor(w.tables, transfers[n].originator, key) then transfers[n].amount else 0
  }

  lemma {:induction false} NobodyElseMoves(w: PayoutWorld, transfers: seq<Request>, key: Key)
    requires forall i :: 0 <= i < |transfers| ==> !PaysFor(w.tables, transfers[i].originator, key)
    ensures MovedFor(w, transfers, key) == 0
  {
    if transfers != [] { NobodyElseMoves(w, transfers[..|transfers| - 1], key); }
  }

  lemma {:induction false} OneMoves(w: PayoutWorld, transfers: seq<Request>, key: Key, at: nat)
    requires at < |transfers| && PaysFor(w.tables, transfers[at].originator, key)
    requires forall i :: 0 <= i < |transfers| && i != at ==> !PaysFor(w.tables, transfers[i].originator, key)
    ensures MovedFor(w, transfers, key) == transfers[at].amount
  {
    var n := |transfers| - 1;
    if at == n {
      NobodyElseMoves(w, transfers[..n], key);
    } else {
      OneMoves(w, transfers[..n], key, at);
    }
  }

  /**
    * With a provider that pays an OriginatorConversationID once, the money moved for a key is nothing or
    * exactly what the first close computed for it, whatever crashed, overlapped, repeated or timed out.
    */
  lemma NoDuplicateDisbursement(run: seq<PayoutWorld>, acts: seq<PayoutAct>, i: nat, key: Key)
    requires IsPayoutRun(run, acts) && i < |run|
    ensures var moved, written := MovedFor(run[i], run[i].log.transfers, key), FirstWrite(run[i].log.writes, key);
      moved == 0 || (written.Some? && moved == written.value.payout)
  {
    PayoutRunKeeps(run, acts, i + 1);
    assert PayoutInv(run[i]);
    var transfers := run[i].log.transfers;
    if at :| 0 <= at < |transfers| && PaysFor(run[i].tables, transfers[at].originator, key) {
      forall k | 0 <= k < |transfers| && PaysFor(run[i].tables, transfers[k].originator, key) ensures k == at {
        OneRequestPerKey(run, acts, i, transfers[at], transfers[k], key);
      }
      OneMoves(run[i], transfers, key, at);
      OneRequestPerKey(run, acts, i, transfers[at], transfers[at], key);
    } else {
      NobodyElseMoves(run[i], transfers, key);
    }
  }

  // ---------------------------------------------------------------- coherence

  /** The status columns agree between any two of sendB2C's statements, and REQUESTED was acknowledged. */
  lemma StatusesCohere(run: seq<PayoutWorld>, acts: seq<PayoutAct>, i: nat, pid: PayoutId)
    requires IsPayoutRun(run, acts) && i < |run| && pid in run[i].tables.payouts
    ensures run[i].tables.payouts[pid].ledgerId in run[i].tables.ledger
    ensures var p := run[i].tables.payouts[pid];
      var row := run[i].tables.ledger[p.ledgerId];
      && (p.status.PayoutPending? ==> row.status.LedgerComputed? || row.status.LedgerRequested?)
      && (p.status.PayoutPaid? <==> row.status.LedgerPaid?)
      && (row.status.LedgerFailed? ==> p.status.PayoutFailed?)
      && (row.status.LedgerRequested? ==>
            p.conversation.Some? && (pid, p.conversation.value) in run[i].log.acks)
  {
    PayoutRunKeeps(run, acts, i + 1);
    assert PayoutInv(run[i]);
    assert PairInStep(run[i].tables, pid) && PayoutEvidence(run[i].log, pid, run[i].tables.payouts[pid]);
  }

  // Daraja acknowledged the payout, refused it, or reported a result for it.
  ghost predicate Definite(log: PayoutLog, pid: PayoutId) {
    || (exists a :: a in log.acks && a.0 == pid)
    || pid in log.refusals
    || (exists b :: b in log.bodies && b.originator == pid)
  }

  /** A row that left COMPUTED has a payout Daraja acknowledged, refused or reported on. */
  lemma NothingLeavesComputedUnheard(run: seq<PayoutWorld>, acts: seq<PayoutAct>, i: nat, lid: LedgerId)
    requires IsPayoutRun(run, acts) && i < |run|
    requires lid in run[i].tables.ledger && Moved(run[i].tables.ledger[lid])
    ensures exists pid ::
      pid in run[i].tables.payouts && run[i].tables.payouts[pid].ledgerId == lid && Definite(run[i].log, pid)
  {
    PayoutRunKeeps(run, acts, i + 1);
    assert PayoutInv(run[i]);
    assert HasPayout(run[i].tables, lid);
    var pid :| pid in run[i].tables.payouts && run[i].tables.payouts[pid].ledgerId == lid;
    var p := run[i].tables.payouts[pid];
    assert PairInStep(run[i].tables, pid) && PayoutEvidence(run[i].log, pid, p);
    if p.conversation.Some? { assert (pid, p.conversation.value) in run[i].log.acks; }
    assert Definite(run[i].log, pid);
  }

  // ---------------------------------------------------------------- when the ledger lags

  // The second statement of the refusal path has run.
  ghost predicate RefusalLedgered(acts: seq<PayoutAct>, i: nat, pid: PayoutId) {
    exists k :: 0 <= k < i && k < |acts| && acts[k].step == LedgerRefusalRecorded(pid)
  }

  // `had`: the refusal's second statement has run.
  ghost predicate Lags(t: PayoutTables, pid: PayoutId, had: bool) {
    && (had ==> pid in t.payouts && !t.payouts[pid].status.PayoutPending?)
    && (pid in t.payouts && t.payouts[pid].status.PayoutFailed? ==>
          && t.payouts[pid].ledgerId in t.ledger && t.payouts[pid].ending.Some?
          && (t.ledger[t.payouts[pid].ledgerId].status.LedgerFailed? <==> t.payouts[pid].ending.value.ByResult? || had))
  }

  // A payout that has already failed: its row fails by the refusal's own statement and nothing else.
  lemma FailedStep(v: PayoutWorld, w: PayoutWorld, s: PayoutStep, pid: PayoutId)
    requires CanStep(v, w, s) && OnePayoutPerRow(w.tables) && PayoutsEvolve(v.tables, w.tables)
    requires PairInStep(w.tables, pid) && w.tables.payouts[pid].status.PayoutFailed?
    ensures var t, t', lid := w.tables, TablesNext(v, w, s), w.tables.payouts[pid].ledgerId;
      lid in t'.ledger
      && (t'.ledger[lid].status.LedgerFailed? <==> t.ledger[lid].status.LedgerFailed? || s == LedgerRefusalRecorded(pid))
  {
    hide KeyTaken, HasPayout, ResultTx, InStep;
    if (s.LedgerRefusalRecorded? || s.LedgerAckRecorded?) && s.pid in v.tables.payouts {
      assert PayoutEvolves(v.tables.payouts[s.pid], w.tables.payouts[s.pid]);
      FailedRow(w.tables, pid);
    } else if s.ResultApplied? {
      ResultLeavesOthers(v.tables, w.tables, s.body, pid);
    }
  }

  lemma FailedRow(t: PayoutTables, pid: PayoutId)
    requires PairInStep(t, pid) && t.payouts[pid].status.PayoutFailed?
    ensures !t.ledger[t.payouts[pid].ledgerId].status.LedgerPaid? && !t.ledger[t.payouts[pid].ledgerId].status.LedgerSkipped?
  {
  }

  lemma ResultLeavesOthers(seen: PayoutTables, t: PayoutTables, b: ResultBody, pid: PayoutId)
    requires OnePayoutPerRow(t) && pid in t.payouts && !t.payouts[pid].status.PayoutPending?
    requires t.payouts[pid].ledgerId in t.ledger
    ensures var t', lid := ResultTx(seen, t, b).0, t.payouts[pid].ledgerId;
      lid in t'.ledger && t'.ledger[lid] == t.ledger[lid]
  {
  }

  // A payout that fails in this step.
  lemma FailingStep(v: PayoutWorld, w: PayoutWorld, s: PayoutStep, pid: PayoutId)
    requires CanStep(v, w, s) && PairInStep(w.tables, pid) && w.tables.payouts[pid].status.PayoutPending?
    requires var t' := TablesNext(v, w, s); pid in t'.payouts && t'.payouts[pid].status.PayoutFailed?
    ensures var t' := TablesNext(v, w, s);
      && t'.payouts[pid].ledgerId in t'.ledger && t'.payouts[pid].ending.Some?
      && (t'.ledger[t'.payouts[pid].ledgerId].status.LedgerFailed? <==> t'.payouts[pid].ending.value.ByResult?)
  {
    hide KeyTaken, HasPayout;
  }

  lemma LagStep(v: PayoutWorld, w: PayoutWorld, w': PayoutWorld, s: PayoutStep, pid: PayoutId, had: bool)
    requires PayoutInv(w) && PayoutGrows(v, w) && PayoutGrows(w, w') && PayoutNext(v, w, w', s)
    requires Lags(w.tables, pid, had)
    ensures Lags(w'.tables, pid, had || s == LedgerRefusalRecorded(pid))
  {
    hide PayoutLogGrows, HasPayout, LedgerIsMerge, RequestsFit, AllEvidenced, TransfersOnce, InStep, PayoutFits, ResultTx;
    if s == LedgerRefusalRecorded(pid) {
      assert PayoutEvolves(v.tables.payouts[pid], w.tables.payouts[pid]);
    }
    if pid in w.tables.payouts {
      assert PairInStep(w.tables, pid);
      assert PayoutEvolves(w.tables.payouts[pid], w'.tables.payouts[pid]);
      if w.tables.payouts[pid].status.PayoutFailed? {
        FailedStep(v, w, s, pid);
      } else if w'.tables.payouts[pid].status.PayoutFailed? {
        FailingStep(v, w, s, pid);
      }
    } else {
      NewlyPending(v, w, s, pid);
    }
  }

  lemma NewlyPending(v: PayoutWorld, w: PayoutWorld, s: PayoutStep, pid: PayoutId)
    requires pid !in w.tables.payouts
    ensures pid in TablesNext(v, w, s).payouts ==> TablesNext(v, w, s).payouts[pid].status.PayoutPending?
  {
  }

  lemma {:induction false} LagRun(run: seq<PayoutWorld>, acts: seq<PayoutAct>, i: nat, pid: PayoutId)
    requires IsPayoutRun(run, acts) && i < |run|
    ensures Lags(run[i].tables, pid, RefusalLedgered(acts, i, pid))
  {
    hide PayoutInv, PayoutGrows, PayoutNext, Lags;
    if i == 0 {
      LagStarts(run[0], acts, pid);
    } else {
      LagRun(run, acts, i - 1, pid);
      PayoutRunKeeps(run, acts, i + 1);
      LagStep(run[acts[i - 1].v], run[i - 1], run[i], acts[i - 1].step, pid, RefusalLedgered(acts, i - 1, pid));
      Extended(acts, i, pid);
    }
  }

  lemma LagStarts(w: PayoutWorld, acts: seq<PayoutAct>, pid: PayoutId)
    requires PayoutInit(w)
    ensures Lags(w.tables, pid, RefusalLedgered(acts, 0, pid))
  {
  }

  lemma Extended(acts: seq<PayoutAct>, i: nat, pid: PayoutId)
    requires 0 < i <= |acts|
    ensures RefusalLedgered(acts, i, pid) <==>
      RefusalLedgered(acts, i - 1, pid) || acts[i - 1].step == LedgerRefusalRecorded(pid)
  {
    if RefusalLedgered(acts, i, pid) {
      var k :| 0 <= k < i && k < |acts| && acts[k].step == LedgerRefusalRecorded(pid);
      assert k < i - 1 || k == i - 1;
    }
  }

  /**
    * A FAILED payout shows in the ledger exactly when a result failed it or the refusal's second
    * statement ran: a crash between the two leaves the row behind, and no later close repairs it.
    */
  lemma LedgerFailsWithPayout(run: seq<PayoutWorld>, acts: seq<PayoutAct>, i: nat, pid: PayoutId)
    requires IsPayoutRun(run, acts) && i < |run|
    requires pid in run[i].tables.payouts && run[i].tables.payouts[pid].status.PayoutFailed?
    ensures var t := run[i].tables;
      && t.payouts[pid].ledgerId in t.ledger && t.payouts[pid].ending.Some?
      && (t.ledger[t.payouts[pid].ledgerId].status.LedgerFailed?
          <==> t.payouts[pid].ending.value.ByResult? || RefusalLedgered(acts, i, pid))
  {
    LagRun(run, acts, i, pid);
  }

  // ---------------------------------------------------------------- a timeout is not a decline

  /** A payout is FAILED only after a B2C rejection or a non-zero result, and PAID only after a matching result. */
  lemma PayoutEndsOnEvidence(run: seq<PayoutWorld>, acts: seq<PayoutAct>, i: nat, pid: PayoutId)
    requires IsPayoutRun(run, acts) && i < |run| && pid in run[i].tables.payouts
    ensures var p, log := run[i].tables.payouts[pid], run[i].log;
      && (p.status.PayoutFailed? ==>
            pid in log.refusals || exists b :: b in log.bodies && b.originator == pid && b.code != SUCCESS)
      && (p.status.PayoutPaid? ==>
            exists b :: b in log.bodies && b.originator == pid && b.code == SUCCESS && b.amount == Some(p.amount))
  {
    PayoutRunKeeps(run, acts, i + 1);
    assert PayoutInv(run[i]);
    assert PayoutEvidence(run[i].log, pid, run[i].tables.payouts[pid]);
  }

  predicate Decisive(s: PayoutStep) {
    s.PayoutRefusalRecorded? || s.ResultApplied?
  }

  ghost predicate PayoutStatusesKept(a: PayoutTables, b: PayoutTables) {
    forall pid :: pid in a.payouts ==> pid in b.payouts && b.payouts[pid].status == a.payouts[pid].status
  }

  lemma IndecisiveStep(v: PayoutWorld, w: PayoutWorld, w': PayoutWorld, s: PayoutStep)
    requires PayoutNext(v, w, w', s) && !Decisive(s)
    ensures PayoutStatusesKept(w.tables, w'.tables)
  {
  }

  /** No stretch of timeouts, re-sends, acknowledgements, closes and crashes changes any payout's status. */
  lemma {:induction false} PayoutsNotGuessed(run: seq<PayoutWorld>, acts: seq<PayoutAct>, i: nat, j: nat)
    requires IsPayoutRun(run, acts) && i <= j < |run| && forall k :: i <= k < j ==> !Decisive(acts[k].step)
    ensures PayoutStatusesKept(run[i].tables, run[j].tables)
  {
    hide PayoutInit, PayoutNext;
    if i < j {
      PayoutsNotGuessed(run, acts, i, j - 1);
      IndecisiveStep(run[acts[j - 1].v], run[j - 1], run[j], acts[j - 1].step);
    }
  }

  // ---------------------------------------------------------------- convergence

  /** The ledger is the left-biased merge of everything the closes ever wrote. */
  lemma ClosesConverge(run: seq<PayoutWorld>, acts: seq<PayoutAct>, i: nat, key: Key, f: Figures)
    requires IsPayoutRun(run, acts) && i < |run|
    ensures FirstWrite(run[i].log.writes, key) == Some(f) <==>
      exists id :: id in run[i].tables.ledger && run[i].tables.ledger[id].key == key && run[i].tables.ledger[id].figures == f
  {
    PayoutRunKeeps(run, acts, i + 1);
    assert PayoutInv(run[i]);
    var w := run[i];
    if FirstWrite(w.log.writes, key) == Some(f) {
      FirstWriteGrows(w.log.writes, LedgerWrite(key, f), key);
      var k :| 0 <= k < |w.log.writes| && w.log.writes[k].key == key;
      assert KeyTaken(w.tables, key);
      var id :| id in w.tables.ledger && w.tables.ledger[id].key == key;
    }
  }

  // ---------------------------------------------------------------- bounded sends

  predicate Counts(s: PayoutStep, pid: PayoutId) {
    s.SendCounted? && s.pid == pid
  }

  predicate Sends(s: PayoutStep, pid: PayoutId) {
    s.RequestSent? && s.pid == pid
  }

  // The requests for a payout that left before moment j.
  ghost function SendsBefore(acts: seq<PayoutAct>, pid: PayoutId, j: nat): set<nat> {
    set n: nat | n < j && n < |acts| && Sends(acts[n].step, pid)
  }

  ghost function CountedFor(log: PayoutLog, pid: PayoutId): set<SendId> {
    Of(log.counted, log.counted.Keys, pid)
  }

  ghost function SentFor(log: PayoutLog, pid: PayoutId): set<SendId> {
    Of(log.counted, log.sent, pid)
  }

  // Those of `sends` that were for the payout.
  ghost function Of(counted: map<SendId, PayoutId>, sends: set<SendId>, pid: PayoutId): set<SendId> {
    set n | n in sends && n in counted && counted[n] == pid
  }

  // b2c_attempts is the number of executions that counted; only those send.
  ghost predicate Tallied(w: PayoutWorld, pid: PayoutId) {
    && |CountedFor(w.log, pid)| == (if pid in w.tables.payouts then w.tables.payouts[pid].attempts else 0)
    && w.log.sent <= w.log.counted.Keys
  }

  lemma AttemptsStep(v: PayoutWorld, w: PayoutWorld, w': PayoutWorld, s: PayoutStep, pid: PayoutId)
    requires PayoutNext(v, w, w', s) && pid in w'.tables.payouts
    ensures pid !in w.tables.payouts ==> w'.tables.payouts[pid].attempts == 0
    ensures pid in w.tables.payouts && !Counts(s, pid) ==>
      w'.tables.payouts[pid].attempts == w.tables.payouts[pid].attempts
    ensures Counts(s, pid) && pid in w.tables.payouts ==>
      pid in v.tables.payouts && v.tables.payouts[pid].attempts < B2C_MAX_ATTEMPTS
      && w'.tables.payouts[pid].attempts == w.tables.payouts[pid].attempts + 1
  {
  }

  lemma TalliedStep(v: PayoutWorld, w: PayoutWorld, w': PayoutWorld, s: PayoutStep, pid: PayoutId)
    requires PayoutGrows(v, w) && PayoutGrows(w, w') && PayoutNext(v, w, w', s) && Tallied(w, pid)
    ensures Tallied(w', pid)
    ensures |SentFor(w'.log, pid)| == |SentFor(w.log, pid)| + if Sends(s, pid) then 1 else 0
  {
    if pid in w'.tables.payouts { AttemptsStep(v, w, w', s, pid); }
    hide TablesNext, PayoutsEvolve;
    TalliedLog(v, w, s, pid);
  }

  lemma TalliedLog(v: PayoutWorld, w: PayoutWorld, s: PayoutStep, pid: PayoutId)
    requires CanStep(v, w, s) && PayoutLogGrows(v.log, w.log) && w.log.sent <= w.log.counted.Keys
    ensures var l := LogNext(v, w, s);
      && |CountedFor(l, pid)| == |CountedFor(w.log, pid)| + (if Counts(s, pid) then 1 else 0)
      && |SentFor(l, pid)| == |SentFor(w.log, pid)| + (if Sends(s, pid) then 1 else 0)
      && l.sent <= l.counted.Keys
  {
    SendColumns(v, w, s);
    hide LogNext, CanStep, PayoutLogGrows, Of;
    if s.SendCounted? {
      OneMoreCount(w.log.counted, w.log.sent, s.send, s.pid, pid);
    } else if s.RequestSent? {
      OneMoreSend(w.log.counted, w.log.sent, s.send, pid);
    }
  }

  lemma OneMoreCount(counted: map<SendId, PayoutId>, sent: set<SendId>, n: SendId, p: PayoutId, pid: PayoutId)
    requires n !in counted && sent <= counted.Keys
    ensures var next := counted[n := p];
      && |Of(next, next.Keys, pid)| == |Of(counted, counted.Keys, pid)| + (if p == pid then 1 else 0)
      && Of(next, sent, pid) == Of(counted, sent, pid) && sent <= next.Keys
  {
    var next, before := counted[n := p], Of(counted, counted.Keys, pid);
    assert Of(next, next.Keys, pid) == if p == pid then before + {n} else before;
  }

  lemma OneMoreSend(counted: map<SendId, PayoutId>, sent: set<SendId>, n: SendId, pid: PayoutId)
    requires n in counted && n !in sent
    ensures |Of(counted, sent + {n}, pid)| == |Of(counted, sent, pid)| + (if counted[n] == pid then 1 else 0)
  {
    var before := Of(counted, sent, pid);
    assert Of(counted, sent + {n}, pid) == if counted[n] == pid then before + {n} else before;
  }

  // What a step does to the counted and the sent.
  lemma SendColumns(v: PayoutWorld, w: PayoutWorld, s: PayoutStep)
    requires CanStep(v, w, s) && PayoutLogGrows(v.log, w.log)
    ensures var l := LogNext(v, w, s);
      && l.counted == (if s.SendCounted? then w.log.counted[s.send := s.pid] else w.log.counted)
      && l.sent == (if s.RequestSent? then w.log.sent + {s.send} else w.log.sent)
    ensures s.SendCounted? ==> s.send !in w.log.counted
    ensures s.RequestSent? ==> s.send in w.log.counted && w.log.counted[s.send] == s.pid && s.send !in w.log.sent
  {
  }

  lemma TalliedAtStart(w: PayoutWorld, acts: seq<PayoutAct>, pid: PayoutId)
    requires PayoutInit(w)
    ensures Tallied(w, pid) && |SendsBefore(acts, pid, 0)| == |SentFor(w.log, pid)|
  {
    assert CountedFor(w.log, pid) == {} && SentFor(w.log, pid) == {} && SendsBefore(acts, pid, 0) == {};
  }

  lemma OneMoreAct(acts: seq<PayoutAct>, pid: PayoutId, j: nat)
    requires 0 < j <= |acts|
    ensures |SendsBefore(acts, pid, j)| == |SendsBefore(acts, pid, j - 1)| + if Sends(acts[j - 1].step, pid) then 1 else 0
  {
    var before := SendsBefore(acts, pid, j - 1);
    assert SendsBefore(acts, pid, j) == if Sends(acts[j - 1].step, pid) then before + {j - 1} else before;
  }

  lemma {:induction false} TalliedRun(run: seq<PayoutWorld>, acts: seq<PayoutAct>, j: nat, pid: PayoutId)
    requires IsPayoutRun(run, acts) && j < |run|
    ensures Tallied(run[j], pid) && |SendsBefore(acts, pid, j)| == |SentFor(run[j].log, pid)|
  {
    hide PayoutInit, PayoutNext, PayoutInv, PayoutGrows, Tallied, SendsBefore, SentFor, Sends;
    if j == 0 {
      TalliedAtStart(run[0], acts, pid);
    } else {
      TalliedRun(run, acts, j - 1, pid);
      PayoutRunKeeps(run, acts, j + 1);
      var a := acts[j - 1];
      TalliedStep(run[a.v], run[j - 1], run[j], a.step, pid);
      OneMoreAct(acts, pid, j);
    }
  }

  /** Every request that leaves was counted before, on its own: b2c_attempts is never less than the sends. */
  lemma SendsAreCounted(run: seq<PayoutWorld>, acts: seq<PayoutAct>, j: nat, pid: PayoutId)
    requires IsPayoutRun(run, acts) && j < |run|
    ensures |SendsBefore(acts, pid, j)| <= if pid in run[j].tables.payouts then run[j].tables.payouts[pid].attempts else 0
  {
    hide IsPayoutRun, SendsBefore;
    TalliedRun(run, acts, j, pid);
    SubsetSize(SentFor(run[j].log, pid), CountedFor(run[j].log, pid));
  }

  // No other send is counted between a request's read of the payout and its own count.
  ghost predicate NonOverlapping(run: seq<PayoutWorld>, acts: seq<PayoutAct>) {
    |run| == |acts| + 1 &&
    forall i :: 0 <= i < |acts| && acts[i].step.SendCounted? ==>
      var pid := acts[i].step.pid;
      acts[i].v < |run| && pid in run[acts[i].v].tables.payouts && pid in run[i].tables.payouts
      && run[acts[i].v].tables.payouts[pid].attempts == run[i].tables.payouts[pid].attempts
  }

  /** Then no payout is sent more than B2C_MAX_ATTEMPTS times. */
  lemma SendsAreBounded(run: seq<PayoutWorld>, acts: seq<PayoutAct>, j: nat, pid: PayoutId)
    requires IsPayoutRun(run, acts) && NonOverlapping(run, acts) && j < |run|
    ensures |SendsBefore(acts, pid, j)| <= B2C_MAX_ATTEMPTS
    ensures pid in run[j].tables.payouts ==> run[j].tables.payouts[pid].attempts <= B2C_MAX_ATTEMPTS
  {
    hide IsPayoutRun, NonOverlapping, SendsBefore;
    SendsAreCounted(run, acts, j, pid);
    if pid in run[j].tables.payouts { AttemptsAreBounded(run, acts, j, pid); }
  }

  lemma {:induction false} AttemptsAreBounded(run: seq<PayoutWorld>, acts: seq<PayoutAct>, j: nat, pid: PayoutId)
    requires IsPayoutRun(run, acts) && NonOverlapping(run, acts) && j < |run| && pid in run[j].tables.payouts
    ensures run[j].tables.payouts[pid].attempts <= B2C_MAX_ATTEMPTS
  {
    hide PayoutNext;
    if j > 0 {
      var a := acts[j - 1];
      if pid in run[j - 1].tables.payouts { AttemptsAreBounded(run, acts, j - 1, pid); }
      AttemptsStep(run[a.v], run[j - 1], run[j], a.step, pid);
    }
  }

  // The requests for a payout that have read it by moment m and not yet counted themselves.
  ghost function InFlight(acts: seq<PayoutAct>, pid: PayoutId, m: nat): set<nat> {
    set i: nat | i < |acts| && Counts(acts[i].step, pid) && acts[i].v <= m <= i
  }

  ghost predicate AtMostInFlight(acts: seq<PayoutAct>, pid: PayoutId, k: nat) {
    forall m: nat :: m < |acts| ==> |InFlight(acts, pid, m)| <= k
  }

  ghost function CountsBetween(acts: seq<PayoutAct>, pid: PayoutId, i: nat, j: nat): set<nat> {
    set n: nat | i <= n < j && n < |acts| && Counts(acts[n].step, pid)
  }

  lemma PayoutStays(run: seq<PayoutWorld>, acts: seq<PayoutAct>, i: nat, j: nat, pid: PayoutId)
    requires IsPayoutRun(run, acts) && i <= j < |run| && pid in run[i].tables.payouts
    ensures pid in run[j].tables.payouts
  {
    PayoutRunKeeps(run, acts, j + 1);
    assert PayoutGrows(run[i], run[j]);
  }

  /** b2c_attempts is the number of counts. */
  lemma {:induction false} AttemptsAreCounts(run: seq<PayoutWorld>, acts: seq<PayoutAct>, i: nat, j: nat, pid: PayoutId)
    requires IsPayoutRun(run, acts) && i <= j < |run| && pid in run[i].tables.payouts
    ensures pid in run[j].tables.payouts
    ensures run[j].tables.payouts[pid].attempts
      == run[i].tables.payouts[pid].attempts + |CountsBetween(acts, pid, i, j)|
  {
    hide PayoutNext, PayoutInit;
    if i == j {
      assert CountsBetween(acts, pid, i, j) == {};
    } else {
      AttemptsAreCounts(run, acts, i, j - 1, pid);
      PayoutStays(run, acts, i, j, pid);
      AttemptsStep(run[acts[j - 1].v], run[j - 1], run[j], acts[j - 1].step, pid);
      var before := CountsBetween(acts, pid, i, j - 1);
      assert CountsBetween(acts, pid, i, j) == if Counts(acts[j - 1].step, pid) then before + {j - 1} else before;
    }
  }

  /** The last moment before j at which another send was still allowed. */
  lemma {:induction false} LastBelow(run: seq<PayoutWorld>, acts: seq<PayoutAct>, j: nat, pid: PayoutId) returns (m: nat)
    requires IsPayoutRun(run, acts) && j < |run| && pid in run[j].tables.payouts
    requires run[j].tables.payouts[pid].attempts >= B2C_MAX_ATTEMPTS
    ensures m < j && pid in run[m].tables.payouts && run[m].tables.payouts[pid].attempts == B2C_MAX_ATTEMPTS - 1
    ensures forall n :: m < n <= j ==>
      pid in run[n].tables.payouts && run[n].tables.payouts[pid].attempts >= B2C_MAX_ATTEMPTS
  {
    hide PayoutNext;
    assert j > 0;
    AttemptsStep(run[acts[j - 1].v], run[j - 1], run[j], acts[j - 1].step, pid);
    if run[j - 1].tables.payouts[pid].attempts < B2C_MAX_ATTEMPTS {
      m := j - 1;
    } else {
      m := LastBelow(run, acts, j - 1, pid);
    }
  }

  /**
    * The bound is checked before it is counted, so k requests that overlap can pass it by k - 1: every send
    * over the bound was already in flight at the last moment the bound allowed another.
    */
  lemma OverlapsBoundSends(run: seq<PayoutWorld>, acts: seq<PayoutAct>, k: nat, j: nat, pid: PayoutId)
    requires IsPayoutRun(run, acts) && AtMostInFlight(acts, pid, k) && k > 0 && j < |run|
    ensures |SendsBefore(acts, pid, j)| <= B2C_MAX_ATTEMPTS + k - 1
    ensures pid in run[j].tables.payouts ==> run[j].tables.payouts[pid].attempts <= B2C_MAX_ATTEMPTS + k - 1
  {
    hide IsPayoutRun, AtMostInFlight, SendsBefore;
    SendsAreCounted(run, acts, j, pid);
    if pid in run[j].tables.payouts { OverlapsBoundAttempts(run, acts, k, j, pid); }
  }

  lemma OverlapsBoundAttempts(run: seq<PayoutWorld>, acts: seq<PayoutAct>, k: nat, j: nat, pid: PayoutId)
    requires IsPayoutRun(run, acts) && AtMostInFlight(acts, pid, k) && k > 0
    requires j < |run| && pid in run[j].tables.payouts
    ensures run[j].tables.payouts[pid].attempts <= B2C_MAX_ATTEMPTS + k - 1
  {
    if run[j].tables.payouts[pid].attempts >= B2C_MAX_ATTEMPTS {
      var m := LastBelow(run, acts, j, pid);
      AttemptsAreCounts(run, acts, m, j, pid);
      hide PayoutNext, PayoutInit;
      forall n | n in CountsBetween(acts, pid, m, j) ensures n in InFlight(acts, pid, m) {
        PayoutStays(run, acts, m, n, pid);
        PayoutStays(run, acts, m, n + 1, pid);
        AttemptsStep(run[acts[n].v], run[n], run[n + 1], acts[n].step, pid);
      }
      SubsetSize(CountsBetween(acts, pid, m, j), InFlight(acts, pid, m));
    }
  }
}
