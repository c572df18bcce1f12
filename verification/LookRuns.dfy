/** Two runs of the reconciler: passes that overlap past maxAttempts, and ties that delay a backlog. */
module LookRuns {
  import opened Common
  import opened Charges
  import opened PosTables
  import opened Protocol
  import opened Reconciler
  import opened Looks

  function Still(t: Tables): World {
    World(t, Log(map[], {}, {}, {}, {}), 0, Delivery(Pos(map[], {}), map[], {}, {}))
  }

  // ---------------------------------------------------------------- past maxAttempts

  // One charge, looked at n times.
  function Looked(n: nat): World {
    Still(Empty.(born := map[1 := Aged(1, 0).facts], charges := map[1 := Aged(1, n)]))
  }

  // maxAttempts - 1 passes one after another, then k that all select the charge before any of them counts.
  function OverlapRun(maxAttempts: nat, k: nat): seq<World> {
    [Still(Empty)] + seq(maxAttempts + k, (n: nat) => Looked(n))
  }

  function OverlapActs(maxAttempts: nat, k: nat): seq<Act>
    requires maxAttempts > 0
  {
    [Act(Insert(1, Aged(1, 0).facts), 0, 0, 0)]
    + seq(maxAttempts - 1 + k, (n: nat) => Act(AttemptCounted(1), Min(n + 1, maxAttempts), Min(n + 1, maxAttempts), n + 1))
  }

  lemma OverlapSteps(v: nat, n: nat)
    ensures Init(Still(Empty)) && Next(Still(Empty), Still(Empty), Still(Empty), Still(Empty), Looked(0), Insert(1, Aged(1, 0).facts))
    ensures Next(Looked(v), Looked(v), Looked(n), Looked(n), Looked(n + 1), AttemptCounted(1))
  {
    assert !SaleTaken(Empty, 1);
    assert CountAttempt(Looked(n).tables, 1).charges == Looked(n + 1).tables.charges;
  }

  lemma OverlapIsRun(maxAttempts: nat, k: nat)
    requires maxAttempts > 0
    ensures IsRun(OverlapRun(maxAttempts, k), OverlapActs(maxAttempts, k))
  {
    var run, acts := OverlapRun(maxAttempts, k), OverlapActs(maxAttempts, k);
    OverlapSteps(0, 0);
    hide Next, Init, Looked;
    forall i | 0 <= i < |acts| ensures Linked(run, acts, i) {
      if i > 0 { OverlapSteps(Min(i, maxAttempts) - 1, i - 1); }
    }
  }

  lemma OneWaits(n: nat, maxAttempts: nat, size: nat)
    requires n < maxAttempts && size > 0
    ensures IsBatch(Looked(n).tables, 0, maxAttempts, size, [1]) && Waiting(Looked(n).tables, 1, maxAttempts)
  {
  }

  lemma ViewsOfOverlap(maxAttempts: nat, k: nat)
    requires maxAttempts > 0
    ensures var acts := OverlapActs(maxAttempts, k);
      && |acts| == maxAttempts + k && !IsLook(acts[0].step, 1)
      && forall i :: 0 < i < |acts| ==> acts[i].v == Min(i, maxAttempts)
  {
  }

  lemma OverlapIsK(maxAttempts: nat, k: nat)
    requires maxAttempts > 0 && k > 0
    ensures AtMostLooking(OverlapActs(maxAttempts, k), 1, k)
  {
    var acts := OverlapActs(maxAttempts, k);
    ViewsOfOverlap(maxAttempts, k);
    hide OverlapActs, Range;
    forall m: nat | m < |acts| ensures |Looking(acts, 1, m)| <= k {
      var high := if m < maxAttempts then m + 1 else |acts|;
      SubsetSize(Looking(acts, 1, m), Range(m, high));
    }
  }

  /**
    * The bound of OverlapsBoundLooks is reached, for every maxAttempts and k: every look is a pass that
    * selected the charge while it had an attempt left.
    */
  lemma OverlapReachesBound(maxAttempts: nat, k: nat, size: nat)
    requires maxAttempts > 0 && k > 0 && size > 0
    ensures var run, acts := OverlapRun(maxAttempts, k), OverlapActs(maxAttempts, k);
      && IsRun(run, acts) && Selected(run, acts, 1, maxAttempts) && AtMostLooking(acts, 1, k)
      && (forall i :: 1 <= i < |acts| ==>
            IsPass(run, acts, PassSpan(acts[i].v, i + 1, 0, [1], [i]), size, maxAttempts))
      && |acts| == maxAttempts + k && 1 in run[maxAttempts + k].tables.charges
      && run[maxAttempts + k].tables.charges[1].reconcileAttempts == maxAttempts + k - 1
  {
    OverlapIsRun(maxAttempts, k);
    OverlapIsK(maxAttempts, k);
    hide IsRun, AtMostLooking, IsBatch, Waiting;
    var run, acts := OverlapRun(maxAttempts, k), OverlapActs(maxAttempts, k);
    forall i | 1 <= i < |acts|
      ensures IsPass(run, acts, PassSpan(acts[i].v, i + 1, 0, [1], [i]), size, maxAttempts)
      ensures Waiting(run[acts[i].v].tables, 1, maxAttempts)
    {
      OneWaits(Min(i, maxAttempts) - 1, maxAttempts, size);
    }
  }

  // ---------------------------------------------------------------- ties

  // The first n charges.
  function BornFacts(n: nat): (m: map<ChargeId, Facts>)
    ensures forall i :: i in m <==> 1 <= i <= n
    ensures forall i :: i in m ==> m[i] == Aged(i, 0).facts
  {
    if n == 0 then map[] else BornFacts(n - 1)[n := Aged(n, 0).facts]
  }

  function BornCharges(n: nat): (m: map<ChargeId, Charge>)
    ensures forall i :: i in m <==> 1 <= i <= n
    ensures forall i :: i in m ==> m[i] == Aged(i, 0)
  {
    if n == 0 then map[] else BornCharges(n - 1)[n := Aged(n, 0)]
  }

  function Born(n: nat): World {
    Still(Empty.(born := BornFacts(n), charges := BornCharges(n)))
  }

  function Tie(a: nat, b: nat, c: nat, d: nat): World {
    Still(Tied(a, b, c, d))
  }

  const TIE_RUN := [Born(0), Born(1), Born(2), Born(3), Tie(0, 0, 0, 0), Tie(1, 0, 0, 0), Tie(1, 1, 0, 0),
    Tie(2, 1, 0, 0), Tie(2, 1, 1, 0), Tie(2, 2, 1, 0), Tie(2, 2, 2, 0), Tie(2, 2, 2, 1)]
  const TIE_STEPS := [Insert(1, Aged(1, 0).facts), Insert(2, Aged(2, 0).facts), Insert(3, Aged(3, 0).facts),
    Insert(4, Aged(4, 0).facts), AttemptCounted(1), AttemptCounted(2), AttemptCounted(1), AttemptCounted(3),
    AttemptCounted(2), AttemptCounted(3), AttemptCounted(4)]
  const TIE_SELECTS := [0, 1, 2, 3, 4, 4, 6, 6, 8, 8, 10]

  function TieActs(): seq<Act> {
    seq(|TIE_STEPS|, i requires 0 <= i < |TIE_STEPS| => Act(TIE_STEPS[i], TIE_SELECTS[i], TIE_SELECTS[i], i))
  }

  lemma BirthStep(n: nat)
    ensures Next(Born(n), Born(n), Born(n), Born(n), Born(n + 1), Insert(n + 1, Aged(n + 1, 0).facts))
  {
    assert !SaleTaken(Born(n).tables, n + 1);
  }

  lemma BirthStarts()
    ensures Init(Born(0)) && Born(4) == Tie(0, 0, 0, 0)
  {
    assert BornFacts(4) == Tied(0, 0, 0, 0).born && BornCharges(4) == Tied(0, 0, 0, 0).charges;
  }

  lemma TieStep(v: World, a: nat, b: nat, c: nat, d: nat, id: ChargeId)
    requires 1 <= id <= 4
    ensures Next(v, v, Tie(a, b, c, d), Tie(a, b, c, d),
      Tie(Bump(a, id == 1), Bump(b, id == 2), Bump(c, id == 3), Bump(d, id == 4)), AttemptCounted(id))
  {
    TiedCount(a, b, c, d, id);
    hide Tied;
  }

  lemma EarlyTies()
    ensures Next(TIE_RUN[4], TIE_RUN[4], TIE_RUN[4], TIE_RUN[4], TIE_RUN[5], TIE_STEPS[4])
    ensures Next(TIE_RUN[4], TIE_RUN[4], TIE_RUN[5], TIE_RUN[5], TIE_RUN[6], TIE_STEPS[5])
    ensures Next(TIE_RUN[6], TIE_RUN[6], TIE_RUN[6], TIE_RUN[6], TIE_RUN[7], TIE_STEPS[6])
    ensures Next(TIE_RUN[6], TIE_RUN[6], TIE_RUN[7], TIE_RUN[7], TIE_RUN[8], TIE_STEPS[7])
  {
    hide Next, Tie, Born;
    TieStep(Tie(0, 0, 0, 0), 0, 0, 0, 0, 1);
    TieStep(Tie(0, 0, 0, 0), 1, 0, 0, 0, 2);
    TieStep(Tie(1, 1, 0, 0), 1, 1, 0, 0, 1);
    TieStep(Tie(1, 1, 0, 0), 2, 1, 0, 0, 3);
  }

  lemma LateTies()
    ensures Next(TIE_RUN[8], TIE_RUN[8], TIE_RUN[8], TIE_RUN[8], TIE_RUN[9], TIE_STEPS[8])
    ensures Next(TIE_RUN[8], TIE_RUN[8], TIE_RUN[9], TIE_RUN[9], TIE_RUN[10], TIE_STEPS[9])
    ensures Next(TIE_RUN[10], TIE_RUN[10], TIE_RUN[10], TIE_RUN[10], TIE_RUN[11], TIE_STEPS[10])
  {
    hide Next, Tie, Born;
    TieStep(Tie(2, 1, 1, 0), 2, 1, 1, 0, 2);
    TieStep(Tie(2, 1, 1, 0), 2, 2, 1, 0, 3);
    TieStep(Tie(2, 2, 2, 0), 2, 2, 2, 0, 4);
  }

  lemma TieIsRun()
    ensures IsRun(TIE_RUN, TieActs())
  {
    hide Next, Init, Tie, Born;
    BirthStarts();
    BirthStep(0);
    BirthStep(1);
    BirthStep(2);
    BirthStep(3);
    EarlyTies();
    LateTies();
    forall i | 0 <= i < 11 ensures Linked(TIE_RUN, TieActs(), i) {
      var a := TieActs()[i];
      assert a == Act(TIE_STEPS[i], TIE_SELECTS[i], TIE_SELECTS[i], i);
    }
  }

  lemma PairIsPass(run: seq<World>, acts: seq<Act>, s: nat, i: ChargeId, j: ChargeId)
    requires s + 2 <= |acts| < |run| && IsBatch(run[s].tables, 0, 2, 2, [i, j])
    requires acts[s].v == s == acts[s + 1].v && acts[s].step == AttemptCounted(i) && acts[s + 1].step == AttemptCounted(j)
    ensures IsPass(run, acts, PassSpan(s, s + 2, 0, [i, j], [s, s + 1]), 2, 2)
  {
    hide IsBatch;
  }

  lemma OneIsPass(run: seq<World>, acts: seq<Act>, s: nat, i: ChargeId)
    requires s + 1 <= |acts| < |run| && IsBatch(run[s].tables, 0, 2, 2, [i])
    requires acts[s].v == s && acts[s].step == AttemptCounted(i)
    ensures IsPass(run, acts, PassSpan(s, s + 1, 0, [i], [s]), 2, 2)
  {
    hide IsBatch;
  }

  lemma TieTables()
    ensures TIE_RUN[4].tables == Tied(0, 0, 0, 0) && TIE_RUN[6].tables == Tied(1, 1, 0, 0)
    ensures TIE_RUN[8].tables == Tied(2, 1, 1, 0) && TIE_RUN[10].tables == Tied(2, 2, 2, 0)
    ensures TIE_RUN[11].tables == Tied(2, 2, 2, 1)
  {
    hide Tied;
  }

  // All four: [1, 2], [1, 3], [2, 3] and [4].
  ghost predicate TiePasses(run: seq<World>, acts: seq<Act>) {
    && IsPass(run, acts, PassSpan(4, 6, 0, [1, 2], [4, 5]), 2, 2)
    && IsPass(run, acts, PassSpan(6, 8, 0, [1, 3], [6, 7]), 2, 2)
    && IsPass(run, acts, PassSpan(8, 10, 0, [2, 3], [8, 9]), 2, 2)
    && IsPass(run, acts, PassSpan(10, 11, 0, [4], [10]), 2, 2)
  }

  predicate LooksAt(acts: seq<Act>, n: nat, v: nat, id: ChargeId) {
    n < |acts| && acts[n].v == v && acts[n].step == AttemptCounted(id)
  }

  predicate LooksOfTies(acts: seq<Act>) {
    && LooksAt(acts, 4, 4, 1) && LooksAt(acts, 5, 4, 2) && LooksAt(acts, 6, 6, 1) && LooksAt(acts, 7, 6, 3)
    && LooksAt(acts, 8, 8, 2) && LooksAt(acts, 9, 8, 3) && LooksAt(acts, 10, 10, 4) && |acts| == 11
  }

  lemma TieLooks()
    ensures LooksOfTies(TieActs()) && |TIE_RUN| == 12
  {
  }

  lemma PassesOfTies(run: seq<World>, acts: seq<Act>)
    requires LooksOfTies(acts) && |run| == 12
    requires IsBatch(run[4].tables, 0, 2, 2, [1, 2]) && IsBatch(run[6].tables, 0, 2, 2, [1, 3])
    requires IsBatch(run[8].tables, 0, 2, 2, [2, 3]) && IsBatch(run[10].tables, 0, 2, 2, [4])
    ensures TiePasses(run, acts)
  {
    hide IsBatch, IsPass;
    PairIsPass(run, acts, 4, 1, 2);
    PairIsPass(run, acts, 6, 1, 3);
    PairIsPass(run, acts, 8, 2, 3);
    OneIsPass(run, acts, 10, 4);
  }

  /** Four charges of one instant, a batch of two, two attempts each: after four passes one of them still waits. */
  lemma TiesDelayBacklog()
    ensures IsRun(TIE_RUN, TieActs()) && TiePasses(TIE_RUN, TieActs())
    ensures Waiting(TIE_RUN[11].tables, 4, 2)
  {
    hide IsRun, IsBatch, TiePasses, Tied, Tie, Waiting, TieActs, LooksOfTies;
    TieIsRun();
    TieTables();
    TiesCanDelay();
    TieLooks();
    PassesOfTies(TIE_RUN, TieActs());
  }
}
