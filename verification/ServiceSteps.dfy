/**
  * The services as stretches of the protocol: what the un-transacted statements of a push and of the relay
  * leave is what their steps leave, in any run, so the whole-run theorems are about these methods. Each
  * stretch here is one actor's, uninterrupted; in a run, anything may come between its steps.
  */
module ServiceSteps {
  import opened Common
  import opened Charges
  import opened Protocol
  import opened PaymentsDb

  // ---------------------------------------------------------------- stretches

  // The world after one step whose actor reads the present.
  ghost function Do(w: World, s: Step): World {
    World(TablesAfter(w, w, w, s), LogAfter(w, w, s), if s.Tick? then s.to else w.clock, DeliveryAfter(w, w, s))
  }

  ghost function Played(w: World, steps: seq<Step>): World {
    if steps == [] then w else Do(Played(w, steps[..|steps| - 1]), steps[|steps| - 1])
  }

  ghost predicate Playable(w: World, steps: seq<Step>) {
    steps != [] ==>
      var n := |steps| - 1;
      var m := Played(w, steps[..n]);
      Playable(w, steps[..n]) && Enabled(m, m, m, m, steps[n])
  }

  lemma PlayOn(w: World, steps: seq<Step>, s: Step)
    ensures Played(w, steps + [s]) == Do(Played(w, steps), s)
    ensures Playable(w, steps + [s]) <==>
      Playable(w, steps) && var m := Played(w, steps); Enabled(m, m, m, m, s)
  {
    assert (steps + [s])[..|steps|] == steps;
    hide Do, Enabled;
  }

  lemma {:induction false} PlayBoth(w: World, steps: seq<Step>, more: seq<Step>)
    ensures Played(w, steps + more) == Played(Played(w, steps), more)
    ensures Playable(w, steps + more) <==> Playable(w, steps) && Playable(Played(w, steps), more)
  {
    hide Do, Enabled;
    if more == [] {
      assert steps + more == steps;
    } else {
      var n := |more| - 1;
      PlayBoth(w, steps, more[..n]);
      assert steps + more == (steps + more[..n]) + [more[n]] && more == more[..n] + [more[n]];
      PlayOn(w, steps + more[..n], more[n]);
      PlayOn(Played(w, steps), more[..n], more[n]);
    }
  }

  // The run, continued by the steps; every actor reads the moment before its step.
  ghost function Worlds(run: seq<World>, steps: seq<Step>): seq<World>
    requires run != []
  {
    if steps == [] then run else Worlds(run, steps[..|steps| - 1]) + [Played(run[|run| - 1], steps)]
  }

  function Acts(acts: seq<Act>, steps: seq<Step>): seq<Act> {
    if steps == [] then acts
    else
      var before := Acts(acts, steps[..|steps| - 1]);
      before + [Act(steps[|steps| - 1], |before|, |before|, |before|)]
  }

  /** A playable stretch continues any run, and ends where it says. */
  lemma {:induction false} StretchContinues(run: seq<World>, acts: seq<Act>, steps: seq<Step>)
    requires IsRun(run, acts) && Playable(run[|acts|], steps)
    ensures IsRun(Worlds(run, steps), Acts(acts, steps))
    ensures |Acts(acts, steps)| == |acts| + |steps| && run <= Worlds(run, steps) && acts <= Acts(acts, steps)
    ensures Worlds(run, steps)[|acts| + |steps|] == Played(run[|acts|], steps)
  {
    hide Enabled, Do, Init;
    if steps != [] {
      var n := |steps| - 1;
      StretchContinues(run, acts, steps[..n]);
      OneMoreLink(Worlds(run, steps[..n]), Acts(acts, steps[..n]), steps[n]);
    }
  }

  lemma OneMoreLink(run: seq<World>, acts: seq<Act>, s: Step)
    requires IsRun(run, acts) && Enabled(run[|acts|], run[|acts|], run[|acts|], run[|acts|], s)
    ensures IsRun(run + [Do(run[|acts|], s)], acts + [Act(s, |acts|, |acts|, |acts|)])
  {
    var run', acts' := run + [Do(run[|acts|], s)], acts + [Act(s, |acts|, |acts|, |acts|)];
    hide Enabled, TablesAfter, LogAfter, DeliveryAfter, Init;
    forall i | 0 <= i < |acts'| ensures Linked(run', acts', i) {
      if i < |acts| { assert Linked(run, acts, i); }
    }
  }

  // ---------------------------------------------------------------- pushStk

  /** The one row a push writes, column by column. Only a rejection of a PENDING charge decides anything. */
  lemma PushOutcome(t: Tables, id: ChargeId, reply: PushReply)
    requires id in t.charges
    ensures var t' := AfterPush(t, id, reply);
      && id in t'.charges && t'.charges == t.charges[id := t'.charges[id]]
      && t'.born == t.born && t'.events == t.events && t'.outbox == t.outbox
    ensures var c, d := t.charges[id], AfterPush(t, id, reply).charges[id];
      var refused := reply.Rejected? && c.status == Pending;
      var claims := reply.Acknowledged? && c.status == Pending && c.reference == None;
      && d.facts == c.facts && d.hold == c.hold && d.resolvedBy == c.resolvedBy && d.paidAt == c.paidAt
      && d.reconcileAttempts == c.reconcileAttempts && d.stkAttempts == c.stkAttempts + 1
      && d.status == (if refused then Failed else c.status)
      && d.resultCode == (if refused then reply.response else c.resultCode)
      && d.reference == (if claims && !ReferenceTaken(t, reply.reference) then Some(reply.reference) else c.reference)
      && d.pushNote ==
           (if reply == NoReply then Unacknowledged
            else if refused then Refused
            else if claims then (if ReferenceTaken(t, reply.reference) then c.pushNote else Clean)
            else if reply.Acknowledged? then LateAck(reply.reference)
            else c.pushNote)
  {
    if reply.Acknowledged? { SameReferences(t, id, reply.reference); }
    hide ReferenceTaken;
  }

  lemma SameReferences(t: Tables, id: ChargeId, r: Reference)
    ensures ReferenceTaken(CountPush(t, id), r) == ReferenceTaken(t, r)
  {
    if ReferenceTaken(t, r) {
      var other :| other in t.charges && t.charges[other].reference == Some(r);
      assert CountPush(t, id).charges[other].reference == Some(r);
    }
    if ReferenceTaken(CountPush(t, id), r) {
      var other :| other in CountPush(t, id).charges && CountPush(t, id).charges[other].reference == Some(r);
      assert t.charges[other].reference == Some(r);
    }
  }

  /** The steps of a push by how its call ended; a push nobody acknowledged may or may not have reached the provider. */
  function PushSteps(t: Tables, id: ChargeId, reply: PushReply, reached: Option<Reference>): seq<Step> {
    [PushCounted(id)] +
    match reply
    case NoReply => Reach(id, reached) + [NoAckNoted(id)]
    case OtherError => Reach(id, reached)
    case Rejected(code) => [PushRefused(id), RefusalRecorded(id, code)]
    case Acknowledged(r) =>
      [PushReaches(id, r, true), AckClaimed(id, r)]
      + if id in t.charges && !(t.charges[id].status.Pending? && t.charges[id].reference.None?) then [LateAckNoted(id, r)] else []
  }

  function Reach(id: ChargeId, reached: Option<Reference>): seq<Step> {
    match reached case None => [] case Some(r) => [PushReaches(id, r, false)]
  }

  // The reference the provider may give to this push.
  function GivenTo(reply: PushReply, reached: Option<Reference>): Option<Reference> {
    if reply.Acknowledged? then Some(reply.reference) else if reply.Rejected? then None else reached
  }

  /**
    * So a push is a stretch of the protocol: FAILED needs a refusal in the log, a reference an acknowledgement,
    * and a timeout is neither.
    */
  lemma PushIsStretch(w: World, id: ChargeId, reply: PushReply, reached: Option<Reference>)
    requires id in w.tables.charges
    requires forall r :: GivenTo(reply, reached) == Some(r) ==> r !in w.log.pushes
    ensures var steps := PushSteps(w.tables, id, reply, reached);
      && Playable(w, steps) && Played(w, steps).tables == AfterPush(w.tables, id, reply)
      && Played(w, steps).delivery == w.delivery
  {
    var first := [PushCounted(id)];
    Alone(w, first[0]);
    var w1 := Do(w, first[0]);
    match reply
    case NoReply =>
      ReachPlays(w1, id, reached);
      PlayBoth(w, first, Reach(id, reached));
      PlayOn(w, first + Reach(id, reached), NoAckNoted(id));
      assert PushSteps(w.tables, id, reply, reached) == first + Reach(id, reached) + [NoAckNoted(id)];
    case OtherError =>
      ReachPlays(w1, id, reached);
      PlayBoth(w, first, Reach(id, reached));
    case Rejected(code) =>
      RefusalPlays(w, id, code);
    case Acknowledged(r) =>
      AckPlays(w, id, r);
  }

  lemma RefusalPlays(w: World, id: ChargeId, code: Option<int>)
    requires id in w.tables.charges
    ensures var steps := PushSteps(w.tables, id, Rejected(code), None);
      && Playable(w, steps) && Played(w, steps).tables == AfterPush(w.tables, id, Rejected(code))
      && Played(w, steps).delivery == w.delivery
  {
    var a, b, c := PushCounted(id), PushRefused(id), RefusalRecorded(id, code);
    Alone(w, a);
    PlayOn(w, [a], b);
    assert [a] + [b] == [a, b];
    PlayOn(w, [a, b], c);
    assert [a, b] + [c] == PushSteps(w.tables, id, Rejected(code), None);
  }

  lemma Alone(w: World, s: Step)
    ensures Played(w, [s]) == Do(w, s) && (Playable(w, [s]) <==> Enabled(w, w, w, w, s))
  {
    PlayOn(w, [], s);
    assert [] + [s] == [s];
  }

  lemma ReachPlays(w: World, id: ChargeId, reached: Option<Reference>)
    requires id in w.tables.charges && (reached.Some? ==> reached.value !in w.log.pushes)
    ensures Playable(w, Reach(id, reached))
    ensures var w' := Played(w, Reach(id, reached)); w'.tables == w.tables && w'.delivery == w.delivery
  {
    if reached.Some? { Alone(w, PushReaches(id, reached.value, false)); }
  }

  lemma AckPlays(w: World, id: ChargeId, r: Reference)
    requires id in w.tables.charges && r !in w.log.pushes
    ensures var steps := PushSteps(w.tables, id, Acknowledged(r), None);
      && Playable(w, steps) && Played(w, steps).tables == AfterPush(w.tables, id, Acknowledged(r))
      && Played(w, steps).delivery == w.delivery
  {
    hide Do, Played, Playable, AfterPush, PushSteps, Enabled, ClaimAck, TooLate;
    var counted, reaches, claims := PushCounted(id), PushReaches(id, r, true), AckClaimed(id, r);
    Alone(w, counted);
    PlayOn(w, [counted], reaches);
    assert [counted] + [reaches] == [counted, reaches];
    PlayOn(w, [counted, reaches], claims);
    assert [counted, reaches] + [claims] == [counted, reaches, claims];
    PlayOn(w, [counted, reaches, claims], LateAckNoted(id, r));
    AckWorlds(w, id, r);
    AckTables(w.tables, id, r);
    AckSteps(w.tables, id, r);
    assert [counted, reaches, claims] + [] == [counted, reaches, claims];
  }

  // The worlds of an acknowledged push.
  lemma AckWorlds(w: World, id: ChargeId, r: Reference)
    requires id in w.tables.charges && r !in w.log.pushes
    ensures var w1 := Do(w, PushCounted(id));
      var w2 := Do(w1, PushReaches(id, r, true));
      var w3 := Do(w2, AckClaimed(id, r));
      var w4 := Do(w3, LateAckNoted(id, r));
      && Enabled(w, w, w, w, PushCounted(id)) && Enabled(w1, w1, w1, w1, PushReaches(id, r, true))
      && Enabled(w2, w2, w2, w2, AckClaimed(id, r)) && Enabled(w3, w3, w3, w3, LateAckNoted(id, r))
      && w3.tables == Rolled(ClaimAck(CountPush(w.tables, id), id, r), CountPush(w.tables, id))
      && w4.tables == NotePush(w3.tables, id, LateAck(r))
      && w3.delivery == w.delivery && w4.delivery == w.delivery
  {
    hide ClaimAck;
  }

  predicate TooLate(t: Tables, id: ChargeId) {
    id in t.charges && !(t.charges[id].status.Pending? && t.charges[id].reference.None?)
  }

  lemma AckTables(t: Tables, id: ChargeId, r: Reference)
    requires id in t.charges
    ensures var claimed := Rolled(ClaimAck(CountPush(t, id), id, r), CountPush(t, id));
      AfterPush(t, id, Acknowledged(r)) == if TooLate(t, id) then NotePush(claimed, id, LateAck(r)) else claimed
  {
    hide ReferenceTaken;
  }

  lemma AckSteps(t: Tables, id: ChargeId, r: Reference)
    ensures PushSteps(t, id, Acknowledged(r), None)
      == [PushCounted(id), PushReaches(id, r, true), AckClaimed(id, r)] + if TooLate(t, id) then [LateAckNoted(id, r)] else []
  {
  }

  // ---------------------------------------------------------------- createCharge

  /** The row a new charge ends up with, when its insert won. */
  lemma CreatedCharge(t: Tables, id: ChargeId, facts: Facts, reply: PushReply)
    requires id !in t.charges && !SaleTaken(t, facts.saleId)
    ensures InsertCharge(t, id, facts).Committed?
    ensures var t' := AfterPush(InsertCharge(t, id, facts).tables, id, reply);
      && id in t'.charges && t'.charges == t.charges[id := t'.charges[id]]
      && t'.outbox == t.outbox && t'.events == t.events && t'.born == t.born[id := facts]
      && (var c := t'.charges[id];
          && c.facts == facts && c.hold == None && c.resolvedBy == None && c.stkAttempts == 1 && c.reconcileAttempts == 0
          && (c.status == Failed <==> reply.Rejected?) && (c.status == Pending <==> !reply.Rejected?)
          && (c.reference.Some? <==> reply.Acknowledged? && !ReferenceTaken(t, reply.reference))
          && (c.reference.Some? ==> c.reference == Some(reply.reference)))
  {
    var made := InsertCharge(t, id, facts).tables;
    PushOutcome(made, id, reply);
    if reply.Acknowledged? { TakenBefore(t, id, facts, reply.reference); }
    hide AfterPush, ReferenceTaken, SaleTaken;
  }

  lemma TakenBefore(t: Tables, id: ChargeId, facts: Facts, r: Reference)
    requires id !in t.charges && !SaleTaken(t, facts.saleId)
    ensures ReferenceTaken(InsertCharge(t, id, facts).tables, r) == ReferenceTaken(t, r)
  {
    var made := InsertCharge(t, id, facts).tables;
    if ReferenceTaken(t, r) {
      var other :| other in t.charges && t.charges[other].reference == Some(r);
      assert made.charges[other].reference == Some(r);
    }
  }

  /** And its insert and push are one stretch. */
  lemma CreateIsStretch(w: World, id: ChargeId, facts: Facts, reply: PushReply, reached: Option<Reference>)
    requires id !in w.tables.born && id !in w.tables.charges && facts.createdAt <= w.clock
    requires !SaleTaken(w.tables, facts.saleId)
    requires forall r :: GivenTo(reply, reached) == Some(r) ==> r !in w.log.pushes
    ensures var made := InsertCharge(w.tables, id, facts).tables;
      var steps := [Insert(id, facts)] + PushSteps(made, id, reply, reached);
      && Playable(w, steps) && Played(w, steps).tables == AfterPush(made, id, reply) && Played(w, steps).delivery == w.delivery
  {
    var made := InsertCharge(w.tables, id, facts).tables;
    Alone(w, Insert(id, facts));
    PushIsStretch(Do(w, Insert(id, facts)), id, reply, reached);
    PlayBoth(w, [Insert(id, facts)], PushSteps(made, id, reply, reached));
    hide AfterPush, PushSteps, Playable, Played;
  }

  // ---------------------------------------------------------------- relayOnce

  function RelaySteps(batch: seq<ChargeId>, ends: seq<RelayEnd>, messages: seq<MessageId>): seq<Step>
    requires |batch| == |ends| == |messages|
  {
    if batch == [] then []
    else
      var n := |batch| - 1;
      RelaySteps(batch[..n], ends[..n], messages[..n]) + RowSteps(batch[n], ends[n], messages[n])
  }

  function RowSteps(id: ChargeId, end: RelayEnd, m: MessageId): seq<Step> {
    match end
    case Published => [EventSent(id, m), EventMarked(id)]
    case MarkFailed => [EventSent(id, m), SendFailed(id)]
    case NotSent => [SendFailed(id)]
  }

  ghost predicate NewMessages(w: World, messages: seq<MessageId>) {
    && (forall i :: 0 <= i < |messages| ==> messages[i] !in w.delivery.queue && messages[i] !in w.delivery.handled)
    && (forall i, j :: 0 <= i < j < |messages| ==> messages[i] != messages[j])
  }

  // What the relay's turn at one row leaves: the row relayed, and its event in the queue if it was sent.
  ghost predicate RowLeft(w: World, w': World, id: ChargeId, end: RelayEnd, m: MessageId) {
    && id in w.tables.outbox && id in w'.tables.outbox
    && RowRelayed(w.tables.outbox[id], w'.tables.outbox[id], end)
    && (end != NotSent ==>
          id in w'.delivery.sent && m in w'.delivery.queue && w'.delivery.queue[m] == w.tables.outbox[id].event)
  }

  // What a stretch over `batch` leaves: its rows relayed, its sends in the queue, and nothing else changed.
  ghost predicate RelayLeaves(w: World, w': World, batch: seq<ChargeId>, ends: seq<RelayEnd>, messages: seq<MessageId>)
    requires |batch| == |ends| == |messages|
  {
    && w'.tables == w.tables.(outbox := w'.tables.outbox) && w'.tables.outbox.Keys == w.tables.outbox.Keys
    && (forall id :: id in w.tables.outbox && id !in batch ==> w'.tables.outbox[id] == w.tables.outbox[id])
    && (forall i :: 0 <= i < |batch| ==> RowLeft(w, w', batch[i], ends[i], messages[i]))
    && w'.delivery.handled == w.delivery.handled && w.delivery.sent <= w'.delivery.sent
    && (forall m :: m in w.delivery.queue ==> m in w'.delivery.queue)
    && (forall m :: m in w'.delivery.queue && m !in messages ==>
          m in w.delivery.queue && w'.delivery.queue[m] == w.delivery.queue[m])
  }

  /**
    * A relay pass is a stretch of the protocol: a row is marked only after its own event was sent, so
    * Deliveries.NothingLost is about RelayOnce.
    */
  lemma {:induction false} RelayIsStretch(w: World, batch: seq<ChargeId>, ends: seq<RelayEnd>, messages: seq<MessageId>)
    requires |batch| == |ends| == |messages| && NewMessages(w, messages)
    requires forall i :: 0 <= i < |batch| ==> batch[i] in w.tables.outbox && !w.tables.outbox[batch[i]].published
    requires forall i, j :: 0 <= i < j < |batch| ==> batch[i] != batch[j]
    ensures Playable(w, RelaySteps(batch, ends, messages))
    ensures RelayLeaves(w, Played(w, RelaySteps(batch, ends, messages)), batch, ends, messages)
  {
    if batch != [] {
      var n := |batch| - 1;
      RelayIsStretch(w, batch[..n], ends[..n], messages[..n]);
      var before := RelaySteps(batch[..n], ends[..n], messages[..n]);
      var m := Played(w, before);
      hide Playable, Played, RelaySteps;
      NextIsUnsent(w, m, batch, ends, messages);
      hide RelayLeaves, NewMessages;
      RowPlays(m, batch[n], ends[n], messages[n]);
      PlayBoth(w, before, RowSteps(batch[n], ends[n], messages[n]));
      OneMoreRow(w, m, Played(m, RowSteps(batch[n], ends[n], messages[n])), batch, ends, messages);
      RelayStepsOn(batch, ends, messages);
    }
  }

  lemma NextIsUnsent(w: World, m: World, batch: seq<ChargeId>, ends: seq<RelayEnd>, messages: seq<MessageId>)
    requires |batch| == |ends| == |messages| && batch != [] && NewMessages(w, messages)
    requires forall i, j :: 0 <= i < j < |batch| ==> batch[i] != batch[j]
    requires var n := |batch| - 1;
      && RelayLeaves(w, m, batch[..n], ends[..n], messages[..n])
      && batch[n] in w.tables.outbox && !w.tables.outbox[batch[n]].published
    ensures var n := |batch| - 1;
      && batch[n] in m.tables.outbox && !m.tables.outbox[batch[n]].published
      && messages[n] !in m.delivery.queue && messages[n] !in m.delivery.handled
    ensures forall i, j :: 0 <= i < j < |batch| ==> messages[i] != messages[j]
  {
    hide RowLeft;
  }

  lemma RelayStepsOn(batch: seq<ChargeId>, ends: seq<RelayEnd>, messages: seq<MessageId>)
    requires |batch| == |ends| == |messages| && batch != []
    ensures var n := |batch| - 1;
      RelaySteps(batch, ends, messages)
        == RelaySteps(batch[..n], ends[..n], messages[..n]) + RowSteps(batch[n], ends[n], messages[n])
  {
  }

  lemma RowPlays(w: World, id: ChargeId, end: RelayEnd, m: MessageId)
    requires id in w.tables.outbox && !w.tables.outbox[id].published
    requires m !in w.delivery.queue && m !in w.delivery.handled
    ensures Playable(w, RowSteps(id, end, m))
    ensures RelayLeaves(w, Played(w, RowSteps(id, end, m)), [id], [end], [m])
  {
    hide Do, RelayLeaves, Enabled;
    RowTurns(w, id, m);
    match end
    case Published =>
      Alone(w, EventSent(id, m));
      PlayOn(w, [EventSent(id, m)], EventMarked(id));
      assert [EventSent(id, m)] + [EventMarked(id)] == RowSteps(id, end, m);
    case MarkFailed =>
      Alone(w, EventSent(id, m));
      PlayOn(w, [EventSent(id, m)], SendFailed(id));
      assert [EventSent(id, m)] + [SendFailed(id)] == RowSteps(id, end, m);
    case NotSent =>
      Alone(w, SendFailed(id));
  }

  lemma RowTurns(w: World, id: ChargeId, m: MessageId)
    requires id in w.tables.outbox && !w.tables.outbox[id].published
    requires m !in w.delivery.queue && m !in w.delivery.handled
    ensures var sent := Do(w, EventSent(id, m));
      && Enabled(w, w, w, w, EventSent(id, m)) && Enabled(sent, sent, sent, sent, EventMarked(id))
      && Enabled(sent, sent, sent, sent, SendFailed(id)) && Enabled(w, w, w, w, SendFailed(id))
      && RelayLeaves(w, Do(sent, EventMarked(id)), [id], [Published], [m])
      && RelayLeaves(w, Do(sent, SendFailed(id)), [id], [MarkFailed], [m])
      && RelayLeaves(w, Do(w, SendFailed(id)), [id], [NotSent], [m])
  {
    hide RelayLeaves;
    TurnMarked(w, id, m);
    TurnUnmarked(w, id, m);
    TurnUnsent(w, id, m);
  }

  lemma TurnMarked(w: World, id: ChargeId, m: MessageId)
    requires id in w.tables.outbox && m !in w.delivery.queue
    ensures RelayLeaves(w, Do(Do(w, EventSent(id, m)), EventMarked(id)), [id], [Published], [m])
  {
  }

  lemma TurnUnmarked(w: World, id: ChargeId, m: MessageId)
    requires id in w.tables.outbox && !w.tables.outbox[id].published && m !in w.delivery.queue
    ensures RelayLeaves(w, Do(Do(w, EventSent(id, m)), SendFailed(id)), [id], [MarkFailed], [m])
  {
  }

  lemma TurnUnsent(w: World, id: ChargeId, m: MessageId)
    requires id in w.tables.outbox && !w.tables.outbox[id].published
    ensures RelayLeaves(w, Do(w, SendFailed(id)), [id], [NotSent], [m])
  {
  }

  lemma OneMoreRow(w: World, m: World, w': World, batch: seq<ChargeId>, ends: seq<RelayEnd>, messages: seq<MessageId>)
    requires |batch| == |ends| == |messages| && batch != []
    requires forall i, j :: 0 <= i < j < |batch| ==> batch[i] != batch[j] && messages[i] != messages[j]
    requires var n := |batch| - 1;
      && RelayLeaves(w, m, batch[..n], ends[..n], messages[..n])
      && RelayLeaves(m, w', [batch[n]], [ends[n]], [messages[n]])
    ensures RelayLeaves(w, w', batch, ends, messages)
  {
    var n := |batch| - 1;
    assert batch[n] !in batch[..n];
    forall i | 0 <= i < |batch| ensures RowLeft(w, w', batch[i], ends[i], messages[i]) {
      if i < n { EarlierRow(w, m, w', batch, ends, messages, i); } else { LastRow(w, m, w', batch, ends, messages); }
    }
    hide RowLeft;
    assert forall x :: x in batch <==> x in batch[..n] || x == batch[n];
    assert forall x :: x in messages <==> x in messages[..n] || x == messages[n];
  }

  lemma EarlierRow(w: World, m: World, w': World, batch: seq<ChargeId>, ends: seq<RelayEnd>, messages: seq<MessageId>, i: nat)
    requires |batch| == |ends| == |messages| && i < |batch| - 1
    requires batch[i] != batch[|batch| - 1] && messages[i] != messages[|batch| - 1]
    requires var n := |batch| - 1;
      && RelayLeaves(w, m, batch[..n], ends[..n], messages[..n])
      && RelayLeaves(m, w', [batch[n]], [ends[n]], [messages[n]])
    ensures RowLeft(w, w', batch[i], ends[i], messages[i])
  {
    var n := |batch| - 1;
    assert RowLeft(w, m, batch[..n][i], ends[..n][i], messages[..n][i]);
    assert messages[i] !in [messages[n]] && batch[i] !in [batch[n]];
    hide RowRelayed;
  }

  lemma LastRow(w: World, m: World, w': World, batch: seq<ChargeId>, ends: seq<RelayEnd>, messages: seq<MessageId>)
    requires |batch| == |ends| == |messages| && batch != [] && batch[|batch| - 1] !in batch[..|batch| - 1]
    requires var n := |batch| - 1;
      && RelayLeaves(w, m, batch[..n], ends[..n], messages[..n])
      && RelayLeaves(m, w', [batch[n]], [ends[n]], [messages[n]])
    ensures var n := |batch| - 1; RowLeft(w, w', batch[n], ends[n], messages[n])
  {
    var n := |batch| - 1;
    assert RowLeft(m, w', [batch[n]][0], [ends[n]][0], [messages[n]][0]);
  }
}
