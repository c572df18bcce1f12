/**
  * A run in which a held charge is resolved all the same: callbacks put it on hold while its own push is
  * being rejected, and the rejection is recorded without regard to the hold.
  */
module HoldRuns {
  import opened Common
  import opened Charges
  import opened PosTables
  import opened Protocol

  const FACTS := Facts(10, 1, 100, 7, 0)
  const CLAIMS := StkBody(5, SUCCESS, Some(100), 7, None, 0)    // the right amount: it is adopted, but not confirmed
  const DISAGREES := StkBody(5, SUCCESS, Some(200), 7, None, 1)

  const FRESH := NewCharge(FACTS)
  const ADOPTED := FRESH.(reference := Some(5))
  const HELD := ADOPTED.(hold := Some(AmountMismatch(Some(200))))
  const REJECTED := HELD.(status := Failed, resultCode := Some(1), pushNote := Refused)

  const ONE_EVENT := map[KeyOf(CLAIMS) := Event(true, false, 0)]
  const TWO_EVENTS := map[KeyOf(CLAIMS) := Event(true, false, 0), KeyOf(DISAGREES) := Event(true, false, 0)]

  function Holding(c: Charge, events: map<EventKey, Event>): Tables {
    Tables(map[1 := FACTS], map[1 := c], events, map[])
  }

  function At(t: Tables, refusals: set<ChargeId>, bodies: set<StkBody>): World {
    World(t, Log(map[], {}, refusals, {}, bodies), 0, Delivery(Pos(map[], {}), map[], {}, {}))
  }

  const INSERTED := At(Holding(FRESH, map[]), {}, {})
  const REFUSED := At(Holding(FRESH, map[]), {1}, {})
  const FIRST_IN := At(Holding(FRESH, map[]), {1}, {CLAIMS})
  const FIRST_DONE := At(Holding(ADOPTED, ONE_EVENT), {1}, {CLAIMS})
  const SECOND_IN := At(Holding(ADOPTED, ONE_EVENT), {1}, {CLAIMS, DISAGREES})
  const SECOND_DONE := At(Holding(HELD, TWO_EVENTS), {1}, {CLAIMS, DISAGREES})
  const DECIDED := At(Holding(REJECTED, TWO_EVENTS), {1}, {CLAIMS, DISAGREES})

  const RUN := [At(Empty, {}, {}), INSERTED, REFUSED, FIRST_IN, FIRST_DONE, SECOND_IN, SECOND_DONE, DECIDED]
  const STEPS := [Insert(1, FACTS), PushRefused(1), BodyReceived(CLAIMS),
    CallbackApplied(CLAIMS, true, 0, Unconfirmed, 0), BodyReceived(DISAGREES),
    CallbackApplied(DISAGREES, true, 0, Unconfirmed, 0), RefusalRecorded(1, Some(1))]

  // Every actor reads the present.
  function Acts(): seq<Act> {
    seq(|STEPS|, i requires 0 <= i < |STEPS| => Act(STEPS[i], i, i, i))
  }

  /** The first callback adopts the charge and is withheld. */
  lemma FirstCallback()
    ensures var t := FIRST_IN.tables;
      CallbackTx(t, t, t, CLAIMS, Unconfirmed, 0) == Committed(FIRST_DONE.tables, Withheld(1, true))
  {
    var t := FIRST_IN.tables;
    assert Holders(t, 5) == {};
    assert Candidates(Record(t, CLAIMS), 100, 7, 0) == Candidates(t, 100, 7, 0) == {1};
    assert !ReferenceTaken(Record(t, CLAIMS), 5);
    assert Mark(Record(t, CLAIMS), KeyOf(CLAIMS), false).events == ONE_EVENT;
  }

  /** The second, for another amount, puts it on hold. */
  lemma SecondCallback()
    ensures var t := SECOND_IN.tables;
      CallbackTx(t, t, t, DISAGREES, Unconfirmed, 0) == Committed(SECOND_DONE.tables, HeldForReview(1, false))
  {
    var t := SECOND_IN.tables;
    assert Holders(t, 5) == {1};
    assert KeyOf(DISAGREES) !in t.events;
    assert Mark(Record(t, DISAGREES), KeyOf(DISAGREES), false).events == TWO_EVENTS;
  }

  lemma CallbackSteps()
    ensures Next(FIRST_IN, FIRST_IN, FIRST_IN, FIRST_IN, FIRST_DONE, STEPS[3])
    ensures Next(SECOND_IN, SECOND_IN, SECOND_IN, SECOND_IN, SECOND_DONE, STEPS[5])
  {
    assert PreCheck(FIRST_IN.tables, CLAIMS, 0) by { assert Open(FIRST_IN.tables, 1); }
    assert PreCheck(SECOND_IN.tables, DISAGREES, 0) by { assert Open(SECOND_IN.tables, 1); }
    FirstCallback();
    SecondCallback();
    hide CallbackTx, PreCheck;
  }

  lemma OtherSteps()
    ensures Next(RUN[0], RUN[0], RUN[0], RUN[0], INSERTED, STEPS[0])
    ensures Next(INSERTED, INSERTED, INSERTED, INSERTED, REFUSED, STEPS[1])
    ensures Next(REFUSED, REFUSED, REFUSED, REFUSED, FIRST_IN, STEPS[2])
    ensures Next(FIRST_DONE, FIRST_DONE, FIRST_DONE, FIRST_DONE, SECOND_IN, STEPS[4])
    ensures Next(SECOND_DONE, SECOND_DONE, SECOND_DONE, SECOND_DONE, DECIDED, STEPS[6])
  {
    assert !SaleTaken(Empty, 10);
  }

  /** On hold at one moment and FAILED, still on hold, at the next. */
  lemma HeldChargeCanFail()
    ensures IsRun(RUN, Acts())
    ensures 1 in RUN[6].tables.charges && RUN[6].tables.charges[1].status.Pending?
      && RUN[6].tables.charges[1].hold == Some(AmountMismatch(Some(200)))
    ensures 1 in RUN[7].tables.charges && RUN[7].tables.charges[1].status.Failed?
      && RUN[7].tables.charges[1].hold == Some(AmountMismatch(Some(200)))
  {
    CallbackSteps();
    OtherSteps();
    hide Next;
    assert Init(RUN[0]);
  }
}
