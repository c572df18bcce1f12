/**
  * Two runs in which a genuine success callback comes out wrong: it pays although nothing confirmed it, and it
  * finds its charge purged.
  */
module CallbackRuns {
  import opened Common
  import opened Charges
  import opened PosTables
  import opened Protocol
  import opened ChargeTheorems

  const FACTS := Facts(10, 1, 100, 7, 0)
  const FRESH := NewCharge(FACTS)

  function Having(charges: map<ChargeId, Charge>, events: map<EventKey, Event>, outbox: map<ChargeId, OutboxRow>): Tables {
    Tables(map[1 := FACTS], charges, events, outbox)
  }

  function At(t: Tables, pushes: map<Reference, Push>, acks: set<(ChargeId, Reference)>, bodies: set<StkBody>, clock: Instant)
    : World
  {
    World(t, Log(pushes, acks, {}, {}, bodies), clock, Delivery(Pos(map[], {}), map[], {}, {}))
  }

  const START := At(Empty, map[], {}, {}, 0)
  const INSERTED := At(Having(map[1 := FRESH], map[], map[]), map[], {}, {}, 0)
  const PUSHED := map[5 := Push(1, 100, 7)]

  lemma Starts()
    ensures Init(START) && Next(START, START, START, START, INSERTED, Insert(1, FACTS))
  {
    assert !SaleTaken(Empty, 10);
  }

  // ---------------------------------------------------------------- paid and never confirmed

  const PAYS := StkBody(5, SUCCESS, Some(100), 8, None, 0)   // from another phone: only its reference matches
  const CLAIMED := FRESH.(reference := Some(5))
  const PAID := CLAIMED.(status := Paid, resultCode := Some(SUCCESS), resolvedBy := Some(ByCallback), paidAt := Some(0))
  const OWED := OutboxRow(SalePaid(1, 10, 1, 100, 0), false, 0)

  const ACKED := At(INSERTED.tables, PUSHED, {(1, 5)}, {}, 0)
  const HEARD := At(INSERTED.tables, PUSHED, {(1, 5)}, {PAYS}, 0)
  const LINKED := At(Having(map[1 := CLAIMED], map[], map[]), PUSHED, {(1, 5)}, {PAYS}, 0)
  const SETTLED := At(Having(map[1 := PAID], map[KeyOf(PAYS) := Event(true, true, 0)], map[1 := OWED]),
    PUSHED, {(1, 5)}, {PAYS}, 0)

  // The pre-check of the last act looked before the acknowledgement was claimed.
  const UNCHECKED_RUN := [START, INSERTED, ACKED, HEARD, LINKED, SETTLED]
  const UNCHECKED_ACTS := [Act(Insert(1, FACTS), 0, 0, 0), Act(PushReaches(1, 5, true), 1, 1, 1),
    Act(BodyReceived(PAYS), 2, 2, 2), Act(AckClaimed(1, 5), 3, 3, 3),
    Act(CallbackApplied(PAYS, true, 0, NotRequired, 0), 3, 4, 4)]

  lemma PaysTx()
    ensures CallbackTx(LINKED.tables, LINKED.tables, LINKED.tables, PAYS, NotRequired, 0)
      == Committed(SETTLED.tables, Settled(1, false, true))
  {
    var t := LINKED.tables;
    assert Holders(t, 5) == {1};
    var settled := Settle(Record(t, PAYS), 1, CLAIMED, false, PAYS, NotRequired, 0);
    assert settled.tables.events == SETTLED.tables.events;
    assert settled.tables.charges == SETTLED.tables.charges && settled.tables.outbox == SETTLED.tables.outbox;
  }

  lemma UncheckedSteps()
    ensures Next(INSERTED, INSERTED, INSERTED, INSERTED, ACKED, PushReaches(1, 5, true))
    ensures Next(ACKED, ACKED, ACKED, ACKED, HEARD, BodyReceived(PAYS))
    ensures Next(HEARD, HEARD, HEARD, HEARD, LINKED, AckClaimed(1, 5))
  {
    assert !ReferenceTaken(HEARD.tables, 5);
    assert ClaimAck(HEARD.tables, 1, 5).tables.charges == LINKED.tables.charges;
  }

  lemma PaysStep()
    ensures Next(HEARD, LINKED, LINKED, LINKED, SETTLED, CallbackApplied(PAYS, true, 0, NotRequired, 0))
    ensures !PreCheck(HEARD.tables, PAYS, 0)
  {
    PaysTx();
    assert !PreCheck(HEARD.tables, PAYS, 0);
    hide CallbackTx, PreCheck;
  }

  /** With confirmation on: a PAID charge, and the provider never asked about it. */
  lemma CanBePaidUnasked()
    ensures IsRun(UNCHECKED_RUN, UNCHECKED_ACTS) && AlwaysConfirms(UNCHECKED_ACTS)
    ensures 1 in UNCHECKED_RUN[5].tables.charges && UNCHECKED_RUN[5].tables.charges[1].status.Paid?
    ensures UNCHECKED_RUN[5].log.answers == {} && PaysUnchecked(UNCHECKED_RUN, UNCHECKED_ACTS, 4, 1)
  {
    hide Next, Init, CallbackTx, PreCheck;
    Starts();
    UncheckedSteps();
    PaysStep();
    PaysTx();
  }

  // ---------------------------------------------------------------- purged while adoptable

  const OWN := StkBody(5, SUCCESS, Some(100), 7, None, 0)   // what the push of charge 1 comes to
  const LATE: Instant := MIN_PURGE_AGE + 1

  const UNACKED := At(INSERTED.tables, PUSHED, {}, {}, 0)
  const WAITED := At(INSERTED.tables, PUSHED, {}, {}, LATE)
  const PURGED := At(Having(map[], map[], map[]), PUSHED, {}, {}, LATE)
  const REPORTED := At(Having(map[], map[], map[]), PUSHED, {}, {OWN}, LATE)
  const LOST := At(Having(map[], map[KeyOf(OWN) := Event(false, false, 0)], map[]), PUSHED, {}, {OWN}, LATE)

  const PURGE_RUN := [START, INSERTED, UNACKED, WAITED, PURGED, REPORTED, LOST]
  const PURGE_STEPS := [Insert(1, FACTS), PushReaches(1, 5, false), Tick(LATE), Purged(LATE, MIN_PURGE_AGE, None),
    BodyReceived(OWN), CallbackApplied(OWN, true, LATE, NotRequired, LATE)]

  function PurgeActs(): seq<Act> {
    seq(|PURGE_STEPS|, i requires 0 <= i < |PURGE_STEPS| => Act(PURGE_STEPS[i], i, i, i))
  }

  lemma PurgeSteps()
    ensures Next(INSERTED, INSERTED, INSERTED, INSERTED, UNACKED, PushReaches(1, 5, false))
    ensures Next(UNACKED, UNACKED, UNACKED, UNACKED, WAITED, Tick(LATE))
    ensures Next(WAITED, WAITED, WAITED, WAITED, PURGED, Purged(LATE, MIN_PURGE_AGE, None))
    ensures Next(PURGED, PURGED, PURGED, PURGED, REPORTED, BodyReceived(OWN))
  {
    assert Purge(WAITED.tables, 1, None).charges == map[];
  }

  lemma LostStep()
    ensures Next(REPORTED, REPORTED, REPORTED, REPORTED, LOST, CallbackApplied(OWN, true, LATE, NotRequired, LATE))
  {
    var t := REPORTED.tables;
    assert Holders(t, 5) == {} && Candidates(Record(t, OWN), 100, 7, LATE) == {} && Candidates(t, 100, 7, LATE) == {};
    assert !PreCheck(t, OWN, LATE);
  }

  /**
    * At the floor age purge deletes a charge its own callback would still be adopted by; the callback comes
    * and finds nothing.
    */
  lemma PurgeCanLosePayment()
    ensures IsRun(PURGE_RUN, PurgeActs())
    ensures Candidates(PURGE_RUN[3].tables, 100, 7, LATE) == {1}
    ensures var w := PURGE_RUN[6];
      && OWN.reference in w.log.pushes && w.log.pushes[OWN.reference].chargeId == 1 && OWN in w.log.bodies
      && 1 !in w.tables.charges && w.tables.outbox == map[]
      && w.tables.events == map[KeyOf(OWN) := Event(false, false, 0)]
  {
    hide Next, Init;
    Starts();
    PurgeSteps();
    LostStep();
    assert Candidates(WAITED.tables, 100, 7, LATE) == {1};
    hide Candidates;
  }
}
