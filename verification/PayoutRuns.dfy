/**
  * Two runs in which the documentation's word on payouts does not hold: sends past the bound, and a ledger
  * row left behind by a crash between the two statements of the refusal path.
  */
module PayoutRuns {
  import opened Common
  import opened Charges
  import opened Payouts
  import opened PayoutProtocol
  import opened PayoutTheorems

  const KEY := Key(1, 2, "2026-08-01")
  const FIGURES := Figures(150, 100, 50, 500, 7, 1, 3_000)
  const ROW := LedgerRow(KEY, FIGURES, 0, LedgerComputed)
  const WRITTEN := PayoutLog([LedgerWrite(KEY, FIGURES)], map[], {}, {}, {}, {}, {}, [])

  const START := PayoutWorld(NoPayouts, PayoutLog([], map[], {}, {}, {}, {}, {}, []))
  const LEDGERED := PayoutWorld(PayoutTables(map[0 := ROW], map[], map[]), WRITTEN)

  const REQUEST := Request(0, 100, 7)

  function CountedIds(n: nat): map<SendId, PayoutId> {
    map i | i in Range(0, n) :: 0
  }

  // One payout for the one row, counted c times and sent n times.
  function Counted(c: nat, n: nat): PayoutWorld {
    PayoutWorld(PayoutTables(map[0 := ROW], map[0 := NewPayout(0, ROW).(attempts := c)], map[]),
      WRITTEN.(counted := CountedIds(c), sent := Range(0, n), requests := if n == 0 then {} else {REQUEST}))
  }

  const LEDGER_ACT := PayoutAct(LedgerWritten(0, KEY, FIGURES, 0), 0)
  const INSERT_ACT := PayoutAct(PayoutInserted(0, 0), 1)

  lemma RunStarts()
    ensures PayoutInit(START) && PayoutNext(START, START, LEDGERED, LEDGER_ACT.step)
    ensures PayoutNext(LEDGERED, LEDGERED, Counted(0, 0), INSERT_ACT.step)
  {
    assert !KeyTaken(NoPayouts, KEY) && !HasPayout(LEDGERED.tables, 0);
    assert START.log.writes + [LedgerWrite(KEY, FIGURES)] == [LedgerWrite(KEY, FIGURES)];
    assert CountedIds(0) == map[] && Range(0, 0) == {};
  }

  lemma OneMore(n: nat)
    ensures n !in CountedIds(n) && CountedIds(n)[n := 0] == CountedIds(n + 1)
    ensures n !in Range(0, n) && Range(0, n) + {n} == Range(0, n + 1)
  {
  }

  lemma CountStep(c: nat, n: nat, d: nat, m: nat)
    requires c < B2C_MAX_ATTEMPTS
    ensures PayoutNext(Counted(c, n), Counted(d, m), Counted(d + 1, m), SendCounted(0, d))
  {
    OneMore(d);
    hide CountedIds, Range;
    assert Counted(d, m).tables.payouts[0 := NewPayout(0, ROW).(attempts := d + 1)] == Counted(d + 1, m).tables.payouts;
  }

  lemma SendStep(c: nat, n: nat)
    requires n < c
    ensures PayoutNext(Counted(c, n), Counted(c, n), Counted(c, n + 1), RequestSent(0, n))
  {
    hide CanStep, TablesNext, LogNext, Counted;
    SendIsEnabled(c, n);
    SendLeads(c, n);
  }

  lemma SendIsEnabled(c: nat, n: nat)
    requires n < c
    ensures CanStep(Counted(c, n), Counted(c, n), RequestSent(0, n))
  {
    assert n in CountedIds(c) && CountedIds(c)[n] == 0 && n !in Range(0, n);
    hide CountedIds, Range;
  }

  lemma SendLeads(c: nat, n: nat)
    requires n < c
    ensures var w, s := Counted(c, n), RequestSent(0, n);
      PayoutWorld(TablesNext(w, w, s), LogNext(w, w, s)) == Counted(c, n + 1)
  {
    OneMore(n);
    hide CountedIds, Range;
    assert Counted(c, n).log.requests + {REQUEST} == {REQUEST};
  }

  // ---------------------------------------------------------------- past the bound

  // Two sends one after the other; then k requests all read the payout, all count, and all send.
  function After(k: nat, p: nat): PayoutWorld {
    if p <= 4 then Counted((p + 1) / 2, p / 2)
    else if p <= 4 + k then Counted(p - 2, 2)
    else Counted(k + 2, p - k - 2)
  }

  function ActAt(k: nat, p: nat): PayoutAct {
    if p < 4 then PayoutAct(if p % 2 == 0 then SendCounted(0, p / 2) else RequestSent(0, p / 2), p + 2)
    else if p < 4 + k then PayoutAct(SendCounted(0, p - 2), 6)
    else PayoutAct(RequestSent(0, p - k - 2), p + 2)
  }

  function OverlappingRun(k: nat): seq<PayoutWorld> {
    [START, LEDGERED] + seq(2 * k + 5, (p: nat) => After(k, p))
  }

  function OverlappingActs(k: nat): seq<PayoutAct> {
    [LEDGER_ACT, INSERT_ACT] + seq(2 * k + 4, (p: nat) => ActAt(k, p))
  }

  lemma OverlappingStep(k: nat, p: nat)
    requires p < 2 * k + 4
    ensures 2 <= ActAt(k, p).v <= p + 2
    ensures PayoutNext(After(k, ActAt(k, p).v - 2), After(k, p), After(k, p + 1), ActAt(k, p).step)
  {
    hide Counted, PayoutNext;
    if p < 4 {
      CountStep(p / 2, p / 2, p / 2, p / 2);
      SendStep(p / 2 + 1, p / 2);
    } else if p < 4 + k {
      CountStep(2, 2, p - 2, 2);
    } else {
      SendStep(k + 2, p - k - 2);
    }
  }

  lemma OverlappingIsRun(k: nat)
    ensures IsPayoutRun(OverlappingRun(k), OverlappingActs(k))
  {
    var run, acts := OverlappingRun(k), OverlappingActs(k);
    RunStarts();
    hide PayoutNext, PayoutInit, ActAt, Counted;
    assert After(k, 0) == Counted(0, 0);
    hide After;
    forall i | 0 <= i < |acts| ensures acts[i].v <= i && PayoutNext(run[acts[i].v], run[i], run[i + 1], acts[i].step) {
      if i >= 2 {
        OverlappingStep(k, i - 2);
        assert run[i] == After(k, i - 2) && run[i + 1] == After(k, i - 1) && acts[i] == ActAt(k, i - 2);
        assert run[acts[i].v] == After(k, acts[i].v - 2);
      }
    }
  }

  lemma OverlapIsK(k: nat)
    requires k > 0
    ensures AtMostInFlight(OverlappingActs(k), 0, k)
  {
    var acts := OverlappingActs(k);
    forall m: nat | m < |acts| ensures |InFlight(acts, 0, m)| <= k {
      var low, high := m, if m < 6 then m + 1 else Min(|acts|, if m < 6 + k then 6 + k else m);
      forall i | i in InFlight(acts, 0, m) ensures i in Range(low, high) {
        assert i >= 2 && acts[i] == ActAt(k, i - 2);
      }
      SubsetSize(InFlight(acts, 0, m), Range(low, high));
    }
  }

  lemma LastWorld(k: nat)
    ensures |OverlappingRun(k)| == 2 * k + 7 && OverlappingRun(k)[2 * k + 6] == Counted(k + 2, k + 2)
  {
    hide Counted;
    assert After(k, 2 * k + 4) == Counted(k + 2, k + 2);
    hide After;
    var run := OverlappingRun(k);
    assert run[2..][2 * k + 4] == After(k, 2 * k + 4);
  }

  lemma AllSent(n: nat)
    ensures SentFor(Counted(n, n).log, 0) == Range(0, n)
  {
  }

  /** The bound of OverlapsBoundSends is reached, for every k: two overlapping requests send a fourth time. */
  lemma OverlapReachesBound(k: nat)
    requires k > 0
    ensures var run, acts := OverlappingRun(k), OverlappingActs(k);
      && IsPayoutRun(run, acts) && AtMostInFlight(acts, 0, k) && |run| == 2 * k + 7
      && |SendsBefore(acts, 0, 2 * k + 6)| == B2C_MAX_ATTEMPTS + k - 1
      && 0 in run[2 * k + 6].tables.payouts
      && run[2 * k + 6].tables.payouts[0].attempts == B2C_MAX_ATTEMPTS + k - 1
  {
    hide IsPayoutRun, AtMostInFlight, SendsBefore, OverlappingActs, OverlappingRun;
    OverlappingIsRun(k);
    OverlapIsK(k);
    SentAtEnd(k);
    LastWorld(k);
  }

  lemma SentAtEnd(k: nat)
    ensures |SendsBefore(OverlappingActs(k), 0, 2 * k + 6)| == k + 2
  {
    hide IsPayoutRun, SendsBefore, OverlappingActs, OverlappingRun, Tallied, Counted, SentFor;
    OverlappingIsRun(k);
    LastWorld(k);
    TalliedRun(OverlappingRun(k), OverlappingActs(k), 2 * k + 6, 0);
    AllSent(k + 2);
  }

  // ---------------------------------------------------------------- a ledger row left behind

  const REQUESTED := Counted(1, 1)
  const REFUSED := REQUESTED.(log := REQUESTED.log.(refusals := {0}))
  const STRANDED := REFUSED.(tables := REFUSED.tables.(payouts := map[0 :=
    NewPayout(0, ROW).(attempts := 1, status := PayoutFailed, ending := Some(ByRefusal(Some(1))), uncertain := true)]))

  const STRANDED_RUN := [START, LEDGERED, Counted(0, 0), Counted(1, 0), REQUESTED, REFUSED, STRANDED]
  const STRANDED_ACTS := [LEDGER_ACT, INSERT_ACT, PayoutAct(SendCounted(0, 0), 2), PayoutAct(RequestSent(0, 0), 3),
    PayoutAct(RequestRefused(0), 4), PayoutAct(PayoutRefusalRecorded(0, Some(1)), 5)]

  lemma RefusalSteps()
    ensures PayoutNext(REQUESTED, REQUESTED, REFUSED, RequestRefused(0))
    ensures PayoutNext(REFUSED, REFUSED, STRANDED, PayoutRefusalRecorded(0, Some(1)))
  {
    assert REQUEST in REQUESTED.log.requests;
  }

  /**
    * A crash after the refusal's first statement: the payout is FAILED, its row still COMPUTED, and asking
    * for the payout again, as every later close will, is not a send.
    */
  lemma RefusalCanStrandLedger()
    ensures IsPayoutRun(STRANDED_RUN, STRANDED_ACTS)
    ensures var t := STRANDED_RUN[6].tables;
      && 0 in t.payouts && t.payouts[0].status.PayoutFailed? && t.payouts[0].ledgerId == 0
      && 0 in t.ledger && t.ledger[0].status.LedgerComputed? && !NeverReached(t.payouts[0])
  {
    RunStarts();
    CountStep(0, 0, 0, 0);
    SendStep(1, 0);
    RefusalSteps();
    hide PayoutNext, PayoutInit;
    assert STRANDED_ACTS[0] == LEDGER_ACT && STRANDED_ACTS[1] == INSERT_ACT;
  }
}
