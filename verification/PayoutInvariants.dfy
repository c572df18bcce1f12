/** What every step of the payout protocol keeps, and so every run. */
module PayoutInvariants {
  import opened Common
  import opened Charges
  import opened Payouts
  import opened PayoutProtocol

  ghost predicate RowsSound(t: PayoutTables) {
    OneRowPerKey(t) && OnePayoutPerRow(t) && SkippedRight(t) && AllInStep(t)
  }

  ghost predicate RowsKeep(t: PayoutTables, t': PayoutTables) {
    RowsSound(t') && PayoutsEvolve(t, t')
  }

  // ---------------------------------------------------------------- tables

  lemma SameRows(t: PayoutTables)
    requires RowsSound(t)
    ensures RowsKeep(t, t)
  {
  }

  /** A payout keeps its ledger row, so rows that had one have one. */
  lemma HasPayoutStays(t: PayoutTables, t': PayoutTables, lid: LedgerId)
    requires PayoutsEvolve(t, t') && HasPayout(t, lid)
    ensures HasPayout(t', lid)
  {
    var pid :| pid in t.payouts && t.payouts[pid].ledgerId == lid;
    assert pid in t'.payouts && PayoutEvolves(t.payouts[pid], t'.payouts[pid]);
  }

  /** A pair whose payout and ledger row are untouched stays in step; every other pair must show that it is. */
  lemma InStepStays(t: PayoutTables, t': PayoutTables)
    requires AllInStep(t) && PayoutsEvolve(t, t')
    requires forall pid :: pid in t'.payouts ==> PairInStep(t', pid) || Untouched(t, t', pid)
    requires forall lid :: lid in t'.ledger && Moved(t'.ledger[lid]) ==>
      (lid in t.ledger && Moved(t.ledger[lid])) || HasPayout(t', lid)
    ensures AllInStep(t')
  {
    hide InStep, HasPayout, PayoutsEvolve;
    forall lid | lid in t'.ledger && Moved(t'.ledger[lid]) ensures HasPayout(t', lid) {
      if !HasPayout(t', lid) { HasPayoutStays(t, t', lid); }
    }
    assert forall pid :: pid in t.payouts ==> PairInStep(t, pid);
  }

  ghost predicate Untouched(t: PayoutTables, t': PayoutTables, pid: PayoutId) {
    && pid in t.payouts && pid in t'.payouts && t'.payouts[pid] == t.payouts[pid]
    && var lid := t.payouts[pid].ledgerId;
       lid in t.ledger && lid in t'.ledger && t'.ledger[lid] == t.ledger[lid]
  }

  lemma SkippedStays(t: PayoutTables, t': PayoutTables)
    requires SkippedRight(t) && PayoutsEvolve(t, t') && t'.ledger.Keys == t.ledger.Keys
    ensures SkippedRight(t')
  {
    forall id | id in t'.ledger
      ensures t'.ledger[id].status.LedgerSkipped?
        <==> t'.ledger[id].figures.payout == 0 || t'.ledger[id].figures.msisdn == NO_MSISDN
    {
      assert LedgerRowEvolves(t.ledger[id], t'.ledger[id]);
    }
  }

  lemma KeysStay(t: PayoutTables, t': PayoutTables)
    requires OneRowPerKey(t) && OnePayoutPerRow(t) && SkippedRight(t) && PayoutsEvolve(t, t')
    requires t'.ledger.Keys == t.ledger.Keys && t'.payouts.Keys == t.payouts.Keys
    ensures OneRowPerKey(t') && OnePayoutPerRow(t') && SkippedRight(t')
  {
    SkippedStays(t, t');
    hide SkippedRight;
    forall i, j | i in t'.ledger && j in t'.ledger && t'.ledger[i].key == t'.ledger[j].key ensures i == j {
      assert LedgerRowEvolves(t.ledger[i], t'.ledger[i]) && LedgerRowEvolves(t.ledger[j], t'.ledger[j]);
    }
    forall i, j | i in t'.payouts && j in t'.payouts && t'.payouts[i].ledgerId == t'.payouts[j].ledgerId ensures i == j {
      assert PayoutEvolves(t.payouts[i], t'.payouts[i]) && PayoutEvolves(t.payouts[j], t'.payouts[j]);
    }
  }

  lemma WriteLedgerKeeps(t: PayoutTables, lid: LedgerId, key: Key, f: Figures, runId: RunId)
    requires RowsSound(t) && lid !in t.ledger
    ensures RowsKeep(t, WriteLedger(t, lid, key, f, runId))
  {
    SameRows(t);
    hide InStep, HasPayout;
    var t' := WriteLedger(t, lid, key, f, runId);
    if !KeyTaken(t, key) {
      assert OneRowPerKey(t') && SkippedRight(t');
      AddedEvolves(t, t', lid);
      forall pid | pid in t'.payouts ensures Untouched(t, t', pid) { assert PairInStep(t, pid); }
      InStepStays(t, t');
    }
  }

  lemma AddedEvolves(t: PayoutTables, t': PayoutTables, lid: LedgerId)
    requires lid !in t.ledger && lid in t'.ledger && t' == t.(ledger := t.ledger[lid := t'.ledger[lid]])
    ensures PayoutsEvolve(t, t')
  {
  }

  lemma InsertPayoutKeeps(v: PayoutTables, t: PayoutTables, pid: PayoutId, lid: LedgerId)
    requires RowsSound(t) && PayoutsEvolve(v, t) && pid !in t.payouts
    requires lid in v.ledger && v.ledger[lid].status.LedgerComputed? && Payable(v.ledger[lid])
    ensures RowsKeep(t, InsertPayout(t, pid, lid, v.ledger[lid]))
  {
    SameRows(t);
    if !HasPayout(t, lid) {
      assert LedgerRowEvolves(v.ledger[lid], t.ledger[lid]) && t.ledger[lid].status.LedgerComputed?;
      NewPayoutKeeps(t, pid, lid, v.ledger[lid]);
    }
  }

  lemma NewPayoutKeeps(t: PayoutTables, pid: PayoutId, lid: LedgerId, row: LedgerRow)
    requires RowsSound(t) && pid !in t.payouts && !HasPayout(t, lid) && Payable(row)
    requires lid in t.ledger && t.ledger[lid].status.LedgerComputed?
    requires row.key == t.ledger[lid].key && row.figures == t.ledger[lid].figures
    ensures RowsKeep(t, InsertPayout(t, pid, lid, row))
  {
    var t' := InsertPayout(t, pid, lid, row);
    NewPayoutInStep(t, pid, lid, row);
    hide InStep, Payable, PayoutFits;
    assert OnePayoutPerRow(t');
    assert PayoutsEvolve(t, t') by { AddedPayoutEvolves(t, t', pid); }
    hide PayoutsEvolve;
    forall q | q in t.payouts ensures Untouched(t, t', q) { PairInTables(t, q); }
    InStepStays(t, t');
  }

  lemma PairInTables(t: PayoutTables, pid: PayoutId)
    requires AllInStep(t) && pid in t.payouts
    ensures t.payouts[pid].ledgerId in t.ledger
  {
    assert PairInStep(t, pid);
  }

  lemma NewPayoutInStep(t: PayoutTables, pid: PayoutId, lid: LedgerId, row: LedgerRow)
    requires !HasPayout(t, lid) && Payable(row) && lid in t.ledger && t.ledger[lid].status.LedgerComputed?
    requires row.key == t.ledger[lid].key && row.figures == t.ledger[lid].figures
    ensures PairInStep(InsertPayout(t, pid, lid, row), pid)
  {
  }

  lemma AddedPayoutEvolves(t: PayoutTables, t': PayoutTables, pid: PayoutId)
    requires pid !in t.payouts && pid in t'.payouts && t' == t.(payouts := t.payouts[pid := t'.payouts[pid]])
    ensures PayoutsEvolve(t, t')
  {
  }

  /** Replacing one payout keeps everything when it evolves and stays in step with its ledger row. */
  lemma WriteKeeps(t: PayoutTables, pid: PayoutId, p: Payout)
    requires RowsSound(t) && pid in t.payouts && PayoutEvolves(t.payouts[pid], p)
    requires p.ledgerId in t.ledger && InStep(p, t.ledger[p.ledgerId])
    ensures RowsKeep(t, Write(t, pid, p))
  {
    hide InStep, HasPayout;
    var t' := Write(t, pid, p);
    assert PairInStep(t, pid) && PairInStep(t', pid);
    forall q | q in t'.payouts && q != pid ensures Untouched(t, t', q) { assert PairInStep(t, q); }
    WriteEvolves(t, pid, p);
    KeysStay(t, t');
    InStepStays(t, t');
  }

  lemma WriteEvolves(t: PayoutTables, pid: PayoutId, p: Payout)
    requires pid in t.payouts && PayoutEvolves(t.payouts[pid], p)
    ensures PayoutsEvolve(t, Write(t, pid, p))
  {
  }

  /** Bookkeeping columns: attempts, the note, and a conversation id. */
  lemma BookkeepingWriteKeeps(t: PayoutTables, pid: PayoutId, p: Payout)
    requires RowsSound(t) && pid in t.payouts
    requires p == t.payouts[pid].(attempts := p.attempts, uncertain := p.uncertain, conversation := p.conversation)
    requires t.payouts[pid].attempts <= p.attempts
    requires t.payouts[pid].conversation.Some? ==> p.conversation.Some?
    ensures RowsKeep(t, Write(t, pid, p))
  {
    assert PairInStep(t, pid);
    WriteKeeps(t, pid, p);
  }

  lemma RefusePayoutKeeps(t: PayoutTables, pid: PayoutId, response: Option<int>)
    requires RowsSound(t)
    ensures RowsKeep(t, RefusePayout(t, pid, response))
  {
    SameRows(t);
    if pid in t.payouts && t.payouts[pid].status.PayoutPending? {
      var p := t.payouts[pid].(status := PayoutFailed, ending := Some(ByRefusal(response)), uncertain := true);
      assert PairInStep(t, pid);
      WriteKeeps(t, pid, p);
    }
  }

  /** Moving a ledger row on keeps everything when its payout stays in step. */
  lemma MoveKeeps(t: PayoutTables, pid: PayoutId, from: set<LedgerStatus>, to: LedgerStatus)
    requires RowsSound(t) && pid in t.payouts && from <= {LedgerComputed, LedgerRequested}
    requires !to.LedgerSkipped? && !to.LedgerComputed?
    requires var p := t.payouts[pid];
      p.ledgerId in t.ledger && t.ledger[p.ledgerId].status in from ==>
        InStep(p, t.ledger[p.ledgerId].(status := to))
    ensures RowsKeep(t, MoveLedger(t, t.payouts[pid].ledgerId, from, to))
  {
    hide InStep;
    var lid := t.payouts[pid].ledgerId;
    var t' := MoveLedger(t, lid, from, to);
    assert PairInStep(t, pid) && PairInStep(t', pid);
    forall q | q in t'.payouts && q != pid ensures Untouched(t, t', q) { assert PairInStep(t, q); }
    assert HasPayout(t', lid);
    MoveEvolves(t, lid, from, to);
    hide HasPayout;
    KeysStay(t, t');
    InStepStays(t, t');
  }

  lemma MoveEvolves(t: PayoutTables, lid: LedgerId, from: set<LedgerStatus>, to: LedgerStatus)
    requires from <= {LedgerComputed, LedgerRequested} && !to.LedgerSkipped? && !to.LedgerComputed?
    ensures PayoutsEvolve(t, MoveLedger(t, lid, from, to))
  {
  }

  lemma RefuseLedgerKeeps(v: PayoutTables, t: PayoutTables, pid: PayoutId)
    requires RowsSound(t) && PayoutsEvolve(v, t) && pid in v.payouts && !v.payouts[pid].status.PayoutPending?
    ensures RowsKeep(t, RefuseLedger(t, v.payouts[pid].ledgerId))
  {
    assert PayoutEvolves(v.payouts[pid], t.payouts[pid]);
    assert PairInStep(t, pid);
    MoveKeeps(t, pid, {LedgerComputed, LedgerRequested}, LedgerFailed);
  }

  lemma AckLedgerKeeps(v: PayoutTables, t: PayoutTables, pid: PayoutId)
    requires RowsSound(t) && PayoutsEvolve(v, t) && pid in v.payouts && v.payouts[pid].conversation.Some?
    ensures RowsKeep(t, AckLedger(t, v.payouts[pid].ledgerId))
  {
    assert PayoutEvolves(v.payouts[pid], t.payouts[pid]);
    assert PairInStep(t, pid);
    MoveKeeps(t, pid, {LedgerComputed}, LedgerRequested);
  }

  lemma EventsOnlyKeeps(t: PayoutTables, t': PayoutTables)
    requires RowsSound(t) && t'.ledger == t.ledger && t'.payouts == t.payouts
    ensures RowsKeep(t, t')
  {
    hide InStep, HasPayout;
    assert PayoutsEvolve(t, t');
    forall q | q in t'.payouts ensures Untouched(t, t', q) { assert PairInStep(t, q); }
    InStepStays(t, t');
  }

  /** A payout and its ledger row end together. */
  lemma EndPayoutKeeps(t: PayoutTables, pid: PayoutId, code: int)
    requires RowsSound(t) && pid in t.payouts && t.payouts[pid].status.PayoutPending?
    ensures RowsKeep(t, EndPayout(t, pid, code))
  {
    assert PairInStep(t, pid);
    var t' := EndPayout(t, pid, code);
    EndedInStep(t, pid, code);
    EndEvolves(t, pid, code);
    hide InStep, HasPayout, PayoutFits, PayoutsEvolve, EndPayout;
    forall q | q in t'.payouts && q != pid ensures Untouched(t, t', q) { OthersUntouched(t, pid, code, q); }
    KeysStay(t, t');
    InStepStays(t, t');
  }

  lemma EndedInStep(t: PayoutTables, pid: PayoutId, code: int)
    requires pid in t.payouts && t.payouts[pid].status.PayoutPending? && PairInStep(t, pid)
    ensures var t' := EndPayout(t, pid, code);
      && PairInStep(t', pid) && HasPayout(t', t.payouts[pid].ledgerId)
      && forall lid :: lid in t'.ledger && lid != t.payouts[pid].ledgerId ==> lid in t.ledger && t'.ledger[lid] == t.ledger[lid]
  {
    var t' := EndPayout(t, pid, code);
    assert pid in t'.payouts && t'.payouts[pid].ledgerId == t.payouts[pid].ledgerId;
  }

  lemma OthersUntouched(t: PayoutTables, pid: PayoutId, code: int, q: PayoutId)
    requires RowsSound(t) && pid in t.payouts && q in EndPayout(t, pid, code).payouts && q != pid
    ensures Untouched(t, EndPayout(t, pid, code), q)
  {
    hide InStep, HasPayout;
    assert q in t.payouts && PairInStep(t, q);
  }

  lemma EndEvolves(t: PayoutTables, pid: PayoutId, code: int)
    requires pid in t.payouts && t.payouts[pid].status.PayoutPending?
    ensures PayoutsEvolve(t, EndPayout(t, pid, code))
    ensures EndPayout(t, pid, code).ledger.Keys == t.ledger.Keys && EndPayout(t, pid, code).payouts.Keys == t.payouts.Keys
  {
  }

  lemma ResultKeeps(seen: PayoutTables, t: PayoutTables, b: ResultBody)
    requires RowsSound(t)
    ensures RowsKeep(t, ResultTx(seen, t, b).0)
  {
    hide RowsSound, PayoutsEvolve, EndPayout;
    var k, pid := ResultKey(b), b.originator;
    var marked := MarkEvent(t, k, true);
    EventsOnlyKeeps(t, marked);
    if ResultTx(seen, t, b).1 == B2CSettled(pid, true) {
      EndPayoutKeeps(marked, pid, b.code);
      EvolvesFrom(t, marked, ResultTx(seen, t, b).0);
    } else {
      EventsOnlyKeeps(t, ResultTx(seen, t, b).0);
    }
  }

  lemma EvolvesFrom(t: PayoutTables, m: PayoutTables, t': PayoutTables)
    requires m.ledger == t.ledger && m.payouts == t.payouts && PayoutsEvolve(m, t')
    ensures PayoutsEvolve(t, t')
  {
  }

  lemma TableStepKeeps(v: PayoutWorld, w: PayoutWorld, s: PayoutStep)
    requires RowsSound(w.tables) && PayoutsEvolve(v.tables, w.tables) && CanStep(v, w, s)
    ensures RowsKeep(w.tables, TablesNext(v, w, s))
  {
    hide RowsSound, PayoutsEvolve, ResultTx;
    var t := w.tables;
    SameRows(t);
    match s
    case LedgerWritten(lid, key, figures, runId) => WriteLedgerKeeps(t, lid, key, figures, runId);
    case PayoutInserted(pid, lid) => InsertPayoutKeeps(v.tables, t, pid, lid);
    case SendCounted(pid, _) =>
      if pid in t.payouts { BookkeepingWriteKeeps(t, pid, t.payouts[pid].(attempts := t.payouts[pid].attempts + 1)); }
    case UncertainNoted(pid) =>
      if pid in t.payouts { BookkeepingWriteKeeps(t, pid, t.payouts[pid].(uncertain := true)); }
    case PayoutRefusalRecorded(pid, response) => RefusePayoutKeeps(t, pid, response);
    case LedgerRefusalRecorded(pid) => RefuseLedgerKeeps(v.tables, t, pid);
    case PayoutAckRecorded(pid, c) =>
      if pid in t.payouts { BookkeepingWriteKeeps(t, pid, t.payouts[pid].(conversation := Some(c), uncertain := false)); }
    case LedgerAckRecorded(pid) => AckLedgerKeeps(v.tables, t, pid);
    case ResultApplied(body) => ResultKeeps(v.tables, t, body);
    case _ =>
  }

  // ---------------------------------------------------------------- the ledger is a merge

  lemma {:induction false} FirstWriteGrows(writes: seq<LedgerWrite>, next: LedgerWrite, key: Key)
    ensures FirstWrite(writes + [next], key) ==
      if FirstWrite(writes, key).Some? then FirstWrite(writes, key)
      else if next.key == key then Some(next.figures) else None
    ensures FirstWrite(writes, key).Some? <==> exists i :: 0 <= i < |writes| && writes[i].key == key
  {
    if writes != [] {
      FirstWriteGrows(writes[1..], next, key);
      assert (writes + [next])[1..] == writes[1..] + [next];
      forall i | 0 <= i < |writes| && writes[i].key == key && i > 0
        ensures exists j :: 0 <= j < |writes[1..]| && writes[1..][j].key == key
      {
        assert writes[1..][i - 1].key == key;
      }
    } else {
      assert ([] + [next])[1..] == [];
    }
  }

  lemma KeyTakenStays(t: PayoutTables, t': PayoutTables, key: Key)
    requires PayoutsEvolve(t, t') && KeyTaken(t, key)
    ensures KeyTaken(t', key)
  {
    var id :| id in t.ledger && t.ledger[id].key == key;
    assert id in t'.ledger && LedgerRowEvolves(t.ledger[id], t'.ledger[id]);
  }

  /** What the table keeps is what was written first: a later figure, whatever it says, changes nothing. */
  lemma MergeStep(v: PayoutWorld, w: PayoutWorld, w': PayoutWorld, s: PayoutStep)
    requires LedgerIsMerge(w) && RowsSound(w.tables) && PayoutsEvolve(v.tables, w.tables) && PayoutNext(v, w, w', s)
    ensures LedgerIsMerge(w')
  {
    TableStepKeeps(v, w, s);
    hide RowsSound, KeyTaken, ResultTx;
    if s.LedgerWritten? {
      WrittenMerges(w, w', s);
    } else {
      SameLedgerRows(v, w, s);
      assert w'.log.writes == w.log.writes;
    }
    forall i | 0 <= i < |w.log.writes| ensures KeyTaken(w'.tables, w.log.writes[i].key) {
      KeyTakenStays(w.tables, w'.tables, w.log.writes[i].key);
    }
  }

  lemma WrittenMerges(w: PayoutWorld, w': PayoutWorld, s: PayoutStep)
    requires LedgerIsMerge(w) && s.LedgerWritten? && w'.tables == WriteLedger(w.tables, s.lid, s.key, s.figures, s.runId)
    requires w'.log.writes == w.log.writes + [LedgerWrite(s.key, s.figures)]
    ensures forall id :: id in w'.tables.ledger ==>
      FirstWrite(w'.log.writes, w'.tables.ledger[id].key) == Some(w'.tables.ledger[id].figures)
    ensures KeyTaken(w'.tables, s.key)
  {
    forall id | id in w'.tables.ledger
      ensures FirstWrite(w'.log.writes, w'.tables.ledger[id].key) == Some(w'.tables.ledger[id].figures)
    {
      FirstWriteGrows(w.log.writes, LedgerWrite(s.key, s.figures), w'.tables.ledger[id].key);
      assert !KeyTaken(w.tables, s.key) ==> FirstWrite(w.log.writes, s.key).None? by {
        FirstWriteGrows(w.log.writes, LedgerWrite(s.key, s.figures), s.key);
      }
    }
    assert !KeyTaken(w.tables, s.key) ==> s.lid in w'.tables.ledger && w'.tables.ledger[s.lid].key == s.key;
  }

  lemma SameLedgerRows(v: PayoutWorld, w: PayoutWorld, s: PayoutStep)
    requires !s.LedgerWritten?
    ensures var t' := TablesNext(v, w, s);
      t'.ledger.Keys == w.tables.ledger.Keys
      && forall id :: id in t'.ledger ==>
           t'.ledger[id].key == w.tables.ledger[id].key && t'.ledger[id].figures == w.tables.ledger[id].figures
  {
  }

  // ---------------------------------------------------------------- requests, transfers, evidence

  lemma RequestsFitStep(v: PayoutWorld, w: PayoutWorld, w': PayoutWorld, s: PayoutStep)
    requires RequestsFit(w) && PayoutsEvolve(v.tables, w.tables) && PayoutsEvolve(w.tables, w'.tables)
    requires AllInStep(v.tables) && PayoutNext(v, w, w', s)
    ensures RequestsFit(w')
  {
    hide ResultTx, TablesNext, InStep, HasPayout;
    forall r | r in w'.log.requests
      ensures r.originator in w'.tables.payouts && r.amount == w'.tables.payouts[r.originator].amount
        && r.msisdn == w'.tables.payouts[r.originator].msisdn
    {
      if r !in w.log.requests { assert PairInStep(v.tables, s.pid); }
    }
  }

  lemma TransfersStep(v: PayoutWorld, w: PayoutWorld, w': PayoutWorld, s: PayoutStep)
    requires TransfersOnce(w.log) && PayoutNext(v, w, w', s)
    ensures TransfersOnce(w'.log)
  {
    hide TablesNext;
  }

  lemma EvidenceKeeps(log: PayoutLog, log': PayoutLog, pid: PayoutId, p: Payout, p': Payout)
    requires PayoutLogGrows(log, log') && PayoutEvidence(log, pid, p) && p'.amount == p.amount
    requires p'.status == p.status
    requires p'.conversation == p.conversation || (p'.conversation.Some? && (pid, p'.conversation.value) in log'.acks)
    ensures PayoutEvidence(log', pid, p')
  {
  }

  lemma PayoutLogStepGrows(v: PayoutWorld, w: PayoutWorld, s: PayoutStep)
    requires CanStep(v, w, s)
    ensures PayoutLogGrows(w.log, LogNext(v, w, s))
  {
  }

  lemma EvidencedStep(v: PayoutWorld, w: PayoutWorld, w': PayoutWorld, s: PayoutStep)
    requires AllEvidenced(w) && PayoutsEvolve(v.tables, w.tables) && PayoutsEvolve(w.tables, w'.tables)
    requires PayoutLogGrows(v.log, w.log) && PayoutNext(v, w, w', s)
    ensures AllEvidenced(w')
  {
    PayoutLogStepGrows(v, w, s);
    hide ResultTx, PayoutLogGrows, LogNext, PayoutEvidence;
    forall pid | pid in w'.tables.payouts ensures PayoutEvidence(w'.log, pid, w'.tables.payouts[pid]) {
      if pid in w.tables.payouts {
        assert PayoutEvolves(w.tables.payouts[pid], w'.tables.payouts[pid]);
        if w'.tables.payouts[pid].status == w.tables.payouts[pid].status {
          ConversationEvidence(v, w, w', s, pid);
          EvidenceKeeps(w.log, w'.log, pid, w.tables.payouts[pid], w'.tables.payouts[pid]);
        } else {
          EndedEvidence(v, w, w', s, pid);
        }
      } else {
        NewPayoutEvidence(v, w, w', s, pid);
      }
    }
  }

  lemma NewPayoutEvidence(v: PayoutWorld, w: PayoutWorld, w': PayoutWorld, s: PayoutStep, pid: PayoutId)
    requires PayoutNext(v, w, w', s) && pid !in w.tables.payouts && pid in w'.tables.payouts
    ensures PayoutEvidence(w'.log, pid, w'.tables.payouts[pid])
  {
  }

  lemma ConversationEvidence(v: PayoutWorld, w: PayoutWorld, w': PayoutWorld, s: PayoutStep, pid: PayoutId)
    requires PayoutNext(v, w, w', s) && pid in w.tables.payouts && pid in w'.tables.payouts
    ensures var p, p' := w.tables.payouts[pid], w'.tables.payouts[pid];
      p'.conversation == p.conversation || (p'.conversation.Some? && (pid, p'.conversation.value) in w'.log.acks)
  {
  }

  lemma EndedEvidence(v: PayoutWorld, w: PayoutWorld, w': PayoutWorld, s: PayoutStep, pid: PayoutId)
    requires PayoutNext(v, w, w', s) && pid in w.tables.payouts && pid in w'.tables.payouts
    requires PayoutEvidence(w.log, pid, w.tables.payouts[pid]) && PayoutLogGrows(v.log, w.log) && PayoutLogGrows(w.log, w'.log)
    requires PayoutsEvolve(v.tables, w.tables)
    requires w'.tables.payouts[pid].status != w.tables.payouts[pid].status
    ensures PayoutEvidence(w'.log, pid, w'.tables.payouts[pid])
  {
    assert s.PayoutRefusalRecorded? || s.ResultApplied?;
    if s.ResultApplied? {
      assert s.body in w'.log.bodies && s.body.originator == pid;
      assert PayoutEvolves(v.tables.payouts[pid], w.tables.payouts[pid]);
    }
  }

  // ---------------------------------------------------------------- one step, then every run

  lemma PayoutStepKeeps(v: PayoutWorld, w: PayoutWorld, w': PayoutWorld, s: PayoutStep)
    requires PayoutInv(v) && PayoutInv(w) && PayoutGrows(v, w) && PayoutNext(v, w, w', s)
    ensures PayoutInv(w') && PayoutGrows(w, w')
  {
    hide OneRowPerKey, OnePayoutPerRow, SkippedRight, AllInStep, LedgerIsMerge, RequestsFit, AllEvidenced, CanStep, TablesNext, LogNext,
      PayoutsEvolve, PayoutLogGrows, TransfersOnce;
    TableStepKeeps(v, w, s);
    PayoutLogStepGrows(v, w, s);
    MergeStep(v, w, w', s);
    RequestsFitStep(v, w, w', s);
    TransfersStep(v, w, w', s);
    EvidencedStep(v, w, w', s);
  }

  lemma PayoutGrowsTransitive(a: PayoutWorld, b: PayoutWorld, c: PayoutWorld)
    requires PayoutGrows(a, b) && PayoutGrows(b, c)
    ensures PayoutGrows(a, c)
  {
    forall id | id in a.tables.ledger
      ensures id in c.tables.ledger && LedgerRowEvolves(a.tables.ledger[id], c.tables.ledger[id])
    {
      assert LedgerRowEvolves(a.tables.ledger[id], b.tables.ledger[id]);
      assert LedgerRowEvolves(b.tables.ledger[id], c.tables.ledger[id]);
    }
    forall id | id in a.tables.payouts
      ensures id in c.tables.payouts && PayoutEvolves(a.tables.payouts[id], c.tables.payouts[id])
    {
      assert PayoutEvolves(a.tables.payouts[id], b.tables.payouts[id]);
      assert PayoutEvolves(b.tables.payouts[id], c.tables.payouts[id]);
    }
  }

  lemma PayoutGrowsItself(w: PayoutWorld)
    ensures PayoutGrows(w, w)
  {
  }

  lemma PayoutsStart(w: PayoutWorld)
    requires PayoutInit(w)
    ensures PayoutInv(w)
  {
  }

  ghost predicate PayoutsHold(run: seq<PayoutWorld>, n: nat) {
    && n <= |run|
    && (forall i :: 0 <= i < n ==> PayoutInv(run[i]))
    && (forall i, j :: 0 <= i <= j < n ==> PayoutGrows(run[i], run[j]))
  }

  /** Every moment of every payout run satisfies the invariant, and rows only evolve. */
  lemma {:induction false} PayoutRunKeeps(run: seq<PayoutWorld>, acts: seq<PayoutAct>, n: nat)
    requires IsPayoutRun(run, acts) && 1 <= n <= |run|
    ensures PayoutsHold(run, n)
  {
    hide PayoutInit, PayoutInv, PayoutGrows, PayoutNext;
    if n == 1 {
      PayoutsStart(run[0]);
      PayoutGrowsItself(run[0]);
    } else {
      PayoutRunKeeps(run, acts, n - 1);
      var a := acts[n - 2];
      PayoutStepKeeps(run[a.v], run[n - 2], run[n - 1], a.step);
      forall j | 0 <= j < n ensures PayoutGrows(run[j], run[n - 1]) {
        if j < n - 1 {
          PayoutGrowsTransitive(run[j], run[n - 2], run[n - 1]);
        } else {
          PayoutGrowsItself(run[j]);
        }
      }
    }
  }
}
