/** The close worker: which day a trigger closes, and a queue from which only a finished close is acked. */
module CloseWorker {
  import opened Common
  import opened Calendar
  import opened BusinessDay

  type MessageId = nat

  // A trigger's body, as far as it is looked at: each field a string, or something else (None).
  datatype Trigger = NotAnObject | Trigger(businessDay: Option<string>, scheduledFor: Option<string>)

  datatype DaySource = Explicit | Scheduled | ProcessingTime

  // Date.parse: None for NaN.
  type DateParse = string -> Option<Instant>

  /** A scheduled time worth trusting: it parses, and it is not in the future. */
  function TrustedScheduledTime(value: Option<string>, at: Instant, parse: DateParse): (r: Option<Instant>)
    ensures r.Some? <==> value.Some? && value.value != "" && parse(value.value).Some? && parse(value.value).value <= at
    ensures r.Some? ==> r == parse(value.value)
  {
    if value.None? || value.value == "" then None
    else
      match parse(value.value)
      case None => None
      case Some(ms) => if ms > at then None else Some(ms)
  }

  datatype Resolved = Resolved(day: string, source: DaySource)

  function Derived(day: Option<string>, source: DaySource): Option<Resolved> {
    match day case Some(d) => Some(Resolved(d, source)) case None => None
  }

  /** None: the date could not be written at all, and the RangeError leaves the worker's loop. */
  function ResolveBusinessDay(body: Trigger, at: Instant, parse: DateParse): Option<Resolved> {
    if body.NotAnObject? then Derived(BusinessDayToClose(at), ProcessingTime)
    else if body.businessDay.Some? && IsBusinessDay(body.businessDay.value) then
      Some(Resolved(body.businessDay.value, Explicit))
    else
      match TrustedScheduledTime(body.scheduledFor, at, parse)
      case Some(due) => Derived(BusinessDayToClose(due), Scheduled)
      case None => Derived(BusinessDayToClose(at), ProcessingTime)
  }

  // Somebody named a day to close.
  predicate Named(body: Trigger) {
    body.Trigger? && body.businessDay.Some? && IsBusinessDay(body.businessDay.value)
  }

  // The instant a day is derived from otherwise: when the trigger was due, if it says so, or else now.
  function DueTime(body: Trigger, at: Instant, parse: DateParse): Instant {
    if body.NotAnObject? then at else GetOr(TrustedScheduledTime(body.scheduledFor, at, parse), at)
  }

  predicate ClosesBusinessDay(r: Option<Resolved>) {
    r.Some? && IsBusinessDay(r.value.day)
  }

  /**
    * Unless somebody named the day, the day closed has already ended. A trigger names no business day at all
    * exactly when its time lies outside the years a day can be written for, and runClose refuses it.
    */
  lemma ClosedDayHasEnded(body: Trigger, at: Instant, parse: DateParse)
    ensures var r := ResolveBusinessDay(body, at, parse);
      && (ClosesBusinessDay(r) <==> Named(body) || Plain(DueTime(body, at, parse) + EAT_OFFSET - DAY))
      && (Named(body) ==> r == Some(Resolved(body.businessDay.value, Explicit)))
      && (r.Some? ==> (r.value.source.Explicit? <==> Named(body)))
      && (ClosesBusinessDay(r) && !r.value.source.Explicit? ==>
            EndOf(r.value.day) <= DueTime(body, at, parse) < EndOf(r.value.day) + DAY && DueTime(body, at, parse) <= at)
  {
    hide IsBusinessDay, EndOf, Index, IsoDate;
    ClosesEndedDay(DueTime(body, at, parse));
  }

  // Triggers of a daily schedule: the i-th says it was due i days after the first, and is consumed no earlier.
  ghost predicate DailyTriggers(bodies: seq<Trigger>, first: Instant, consumed: seq<Instant>, parse: DateParse) {
    && |consumed| == |bodies|
    && forall i :: 0 <= i < |bodies| ==>
         && bodies[i].Trigger? && !Named(bodies[i])
         && bodies[i].scheduledFor.Some? && bodies[i].scheduledFor.value != ""
         && parse(bodies[i].scheduledFor.value) == Some(first + i * DAY)
         && first + i * DAY <= consumed[i]
  }

  lemma DaysLater(at: Instant, i: int)
    ensures (at + i * DAY) / DAY == at / DAY + i
  {
    WithinDay(at, at / DAY);
    WithinDay(at + i * DAY, at / DAY + i);
  }

  /**
    * Triggers due on consecutive days close consecutive days, however late and in whatever order they are
    * consumed; only a time due outside the years of business days closes none.
    */
  lemma BacklogClosesEveryDay(bodies: seq<Trigger>, first: Instant, consumed: seq<Instant>, parse: DateParse, i: nat, j: nat)
    requires DailyTriggers(bodies, first, consumed, parse) && i < |bodies| && j < |bodies|
    ensures var a, b := ResolveBusinessDay(bodies[i], consumed[i], parse), ResolveBusinessDay(bodies[j], consumed[j], parse);
      && (ClosesBusinessDay(a) <==> Plain(first + i * DAY + EAT_OFFSET - DAY))
      && (ClosesBusinessDay(a) ==> a.value.source == Scheduled)
      && (ClosesBusinessDay(a) && ClosesBusinessDay(b) ==>
            Index(b.value.day) - Index(a.value.day) == j - i && (a.value.day == b.value.day <==> i == j))
  {
    hide IsBusinessDay, Index, EndOf, ResolveBusinessDay;
    DueDay(bodies, first, consumed, parse, i);
    DueDay(bodies, first, consumed, parse, j);
  }

  lemma DueDay(bodies: seq<Trigger>, first: Instant, consumed: seq<Instant>, parse: DateParse, i: nat)
    requires DailyTriggers(bodies, first, consumed, parse) && i < |bodies|
    ensures var r := ResolveBusinessDay(bodies[i], consumed[i], parse);
      && (ClosesBusinessDay(r) <==> Plain(first + i * DAY + EAT_OFFSET - DAY))
      && (ClosesBusinessDay(r) ==>
            r.value.source == Scheduled && Index(r.value.day) == (first + EAT_OFFSET) / DAY - 1 + i)
  {
    hide IsBusinessDay, Index, EndOf, IsoDate;
    ClosesEndedDay(first + i * DAY);
    DaysLater(first + EAT_OFFSET, i);
    assert first + i * DAY + EAT_OFFSET == first + EAT_OFFSET + i * DAY;
  }

  /** Triggers that carry no time close one day exactly when they are consumed on one Nairobi day. */
  lemma BareBacklogClosesOneDay(body: Trigger, other: Trigger, at: Instant, later: Instant, parse: DateParse)
    requires var r, q := ResolveBusinessDay(body, at, parse), ResolveBusinessDay(other, later, parse);
      && ClosesBusinessDay(r) && r.value.source == ProcessingTime
      && ClosesBusinessDay(q) && q.value.source == ProcessingTime
    ensures ResolveBusinessDay(body, at, parse) == ResolveBusinessDay(other, later, parse)
      <==> (at + EAT_OFFSET) / DAY == (later + EAT_OFFSET) / DAY
  {
    hide IsBusinessDay, EndOf, Index, Plain, IsoDate;
    ClosesEndedDay(at);
    ClosesEndedDay(later);
    if (at + EAT_OFFSET) / DAY == (later + EAT_OFFSET) / DAY {
      IndexIsInjective(BusinessDayToClose(at).value, BusinessDayToClose(later).value);
    }
  }

  // ---------------------------------------------------------------- runOnce

  // How runClose, under the advisory lock when there is one, came out.
  datatype CloseEnd = Finished | LockHeld | Raised

  datatype BatchResult = BatchResult(received: nat, closed: nat, failed: nat, days: seq<string>)

  class TriggerQueue {
    var waiting: map<MessageId, Trigger>

    constructor (waiting: map<MessageId, Trigger>)
      ensures this.waiting == waiting
    {
      this.waiting := waiting;
    }

    /** Deletes the message, unless the call itself fails. */
    method Ack(id: MessageId, works: bool)
      modifies this
      ensures waiting == if works then old(waiting) - {id} else old(waiting)
    {
      if works { waiting := waiting - {id}; }
    }
  }

  /** runClose refuses what is not a business day, whatever would have come of the close. */
  function EndOfClose(day: string, close: string -> CloseEnd): CloseEnd {
    if close(day).LockHeld? then LockHeld else if !IsBusinessDay(day) then Raised else close(day)
  }

  /** What one message adds to the batch's result: its close, and an ack that may itself fail. */
  function Counted(out: BatchResult, day: string, end: CloseEnd, acked: bool): BatchResult {
    match end
    case LockHeld => out
    case Raised => out.(failed := out.failed + 1)
    case Finished =>
      out.(closed := out.closed + 1, days := out.days + [day], failed := out.failed + if acked then 0 else 1)
  }

  // Every one of the first n messages has a date to close.
  ghost predicate Dated(waiting: map<MessageId, Trigger>, batch: seq<MessageId>, n: nat, at: Instant, parse: DateParse)
    requires n <= |batch| && forall i :: 0 <= i < |batch| ==> batch[i] in waiting
  {
    forall i :: 0 <= i < n ==> ResolveBusinessDay(waiting[batch[i]], at, parse).Some?
  }

  /** The result of a batch's first n messages. */
  ghost function Tally(waiting: map<MessageId, Trigger>, batch: seq<MessageId>, n: nat, at: Instant, parse: DateParse,
                       close: string -> CloseEnd, ackWorks: MessageId -> bool): BatchResult
    requires n <= |batch| && (forall i :: 0 <= i < |batch| ==> batch[i] in waiting) && Dated(waiting, batch, n, at, parse)
  {
    if n == 0 then BatchResult(|batch|, 0, 0, [])
    else
      var day := ResolveBusinessDay(waiting[batch[n - 1]], at, parse).value.day;
      Counted(Tally(waiting, batch, n - 1, at, parse, close, ackWorks), day, EndOfClose(day, close), ackWorks(batch[n - 1]))
  }

  predicate Closes(day: string, close: string -> CloseEnd) {
    close(day).Finished? && IsBusinessDay(day)
  }

  // Another task's lock is no failure; a refused day, a close that raised and an ack that failed are.
  predicate Fails(day: string, close: string -> CloseEnd, acked: bool) {
    !close(day).LockHeld? && (!IsBusinessDay(day) || close(day).Raised? || !acked)
  }

  ghost predicate Batched(waiting: map<MessageId, Trigger>, batch: seq<MessageId>, n: nat, at: Instant, parse: DateParse) {
    n <= |batch| && (forall i :: 0 <= i < |batch| ==> batch[i] in waiting) && Dated(waiting, batch, n, at, parse)
  }

  // How many of the first n messages close their day, and how many fail.
  ghost function Closing(waiting: map<MessageId, Trigger>, batch: seq<MessageId>, n: nat, at: Instant, parse: DateParse,
                         close: string -> CloseEnd): nat
    requires Batched(waiting, batch, n, at, parse)
  {
    if n == 0 then 0
    else
      Closing(waiting, batch, n - 1, at, parse, close)
      + if Closes(ResolveBusinessDay(waiting[batch[n - 1]], at, parse).value.day, close) then 1 else 0
  }

  ghost function Failing(waiting: map<MessageId, Trigger>, batch: seq<MessageId>, n: nat, at: Instant, parse: DateParse,
                         close: string -> CloseEnd, ackWorks: MessageId -> bool): nat
    requires Batched(waiting, batch, n, at, parse)
  {
    if n == 0 then 0
    else
      Failing(waiting, batch, n - 1, at, parse, close, ackWorks)
      + if Fails(ResolveBusinessDay(waiting[batch[n - 1]], at, parse).value.day, close, ackWorks(batch[n - 1])) then 1 else 0
  }

  /**
    * The result counts the closes that finished and the messages that failed, each once; a message is in neither
    * only when another task holds the lock, and in both only when its ack failed.
    */
  lemma {:induction false} TallyAddsUp(waiting: map<MessageId, Trigger>, batch: seq<MessageId>, n: nat, at: Instant,
                                       parse: DateParse, close: string -> CloseEnd, ackWorks: MessageId -> bool)
    requires Batched(waiting, batch, n, at, parse)
    ensures var out := Tally(waiting, batch, n, at, parse, close, ackWorks);
      && out.received == |batch| && out.closed == |out.days| == Closing(waiting, batch, n, at, parse, close)
      && out.failed == Failing(waiting, batch, n, at, parse, close, ackWorks)
      && ((forall day :: !close(day).LockHeld?) && (forall id :: ackWorks(id)) ==> out.closed + out.failed == n)
      && (forall day :: day in out.days ==> Closes(day, close))
  {
    hide ResolveBusinessDay, IsBusinessDay;
    if n > 0 { TallyAddsUp(waiting, batch, n - 1, at, parse, close, ackWorks); }
  }

  // This message's close finished and its ack went through.
  ghost predicate Done(body: Trigger, at: Instant, parse: DateParse, close: string -> CloseEnd, acked: bool) {
    var r := ResolveBusinessDay(body, at, parse);
    r.Some? && acked && EndOfClose(r.value.day, close).Finished?
  }

  /** So whatever leaves the queue closed a real day, which had ended unless somebody named it. */
  lemma DoneClosedADay(body: Trigger, at: Instant, parse: DateParse, close: string -> CloseEnd, acked: bool)
    requires Done(body, at, parse, close, acked)
    ensures var day := ResolveBusinessDay(body, at, parse).value.day;
      && IsBusinessDay(day) && close(day).Finished?
      && (Named(body) || (Plain(DueTime(body, at, parse) + EAT_OFFSET - DAY) && EndOf(day) <= at))
  {
    hide IsBusinessDay, EndOf, IsoDate;
    ClosedDayHasEnded(body, at, parse);
  }

  /**
    * One batch. `close` and `ackWorks` say how each close and each ack came out; a message leaves the queue
    * exactly when its close finished and its ack worked, so a crash or a failure before that redelivers it.
    * The loop ends early, at `handled`, only on a trigger whose date cannot be written; that one stays too.
    */
  method RunOnce(queue: TriggerQueue, batch: seq<MessageId>, at: Instant, parse: DateParse,
                 close: string -> CloseEnd, ackWorks: MessageId -> bool)
    returns (out: BatchResult, handled: nat)
    requires forall i :: 0 <= i < |batch| ==> batch[i] in queue.waiting
    requires forall i, j :: 0 <= i < j < |batch| ==> batch[i] != batch[j]
    modifies queue
    ensures handled <= |batch| && Dated(old(queue.waiting), batch, handled, at, parse)
    ensures handled < |batch| ==> ResolveBusinessDay(old(queue.waiting)[batch[handled]], at, parse).None?
    ensures out == Tally(old(queue.waiting), batch, handled, at, parse, close, ackWorks)
    ensures forall id :: id in queue.waiting <==>
      id in old(queue.waiting)
      && !(id in batch[..handled] && Done(old(queue.waiting)[id], at, parse, close, ackWorks(id)))
    ensures forall id :: id in queue.waiting ==> queue.waiting[id] == old(queue.waiting)[id]
  {
    hide ResolveBusinessDay, IsBusinessDay;
    out := BatchResult(|batch|, 0, 0, []);
    ghost var before := queue.waiting;
    for i := 0 to |batch|
      invariant Dated(before, batch, i, at, parse)
      invariant out == Tally(before, batch, i, at, parse, close, ackWorks)
      invariant forall id :: id in queue.waiting <==>
        id in before && !(id in batch[..i] && Done(before[id], at, parse, close, ackWorks(id)))
      invariant forall id :: id in queue.waiting ==> queue.waiting[id] == before[id]
    {
      var id := batch[i];
      assert id !in batch[..i] && batch[..i + 1] == batch[..i] + [id];
      var resolved := ResolveBusinessDay(queue.waiting[id], at, parse);
      if resolved.None? { return out, i; }
      var day := resolved.value.day;
      assert Done(before[id], at, parse, close, ackWorks(id)) <==> ackWorks(id) && EndOfClose(day, close).Finished?;
      hide Done, EndOfClose;
      match EndOfClose(day, close) {
        case LockHeld =>
        case Raised => out := out.(failed := out.failed + 1);
        case Finished =>
          out := out.(closed := out.closed + 1, days := out.days + [day]);
          queue.Ack(id, ackWorks(id));
          if !ackWorks(id) { out := out.(failed := out.failed + 1); }
      }
    }
    return out, |batch|;
  }
}
