/**
  * FakeAdapter: a deterministic provider that keeps one record per push, answers queries from it and
  * queues callbacks whose delivery its driver decides. Ids are its sequence numbers.
  */
module Fake {
  import opened Common
  import opened Charges
  import BusinessDay

  const CANCELLED_BY_USER := 1032
  const INSUFFICIENT_FUNDS := 1
  const NO_PHONE: Phone := 0

  datatype Scenario = Success | Cancelled | InsufficientFunds | Timeout | DuplicateCallback | DelayedCallback
  datatype Outcome = Succeeded | WasCancelled | LackedFunds
  datatype Fault = FractionalShillings | UnknownScenario | UnknownReference | NotATimeout

  // result: what stkQuery reports once the customer has acted, at actsAt.
  datatype StkRecord = StkRecord(
    scenario: Scenario, amount: nat, msisdn: Phone, result: Option<int>, actsAt: Option<Instant>)

  datatype Callback = Callback(body: StkBody, notBefore: Instant)

  datatype State = State(
    next: Reference, stk: map<Reference, StkRecord>, pending: seq<Callback>, delivered: seq<Callback>)

  // How a push ends for its caller; TimedOut keeps the reference to itself.
  datatype Reply = Accepted(reference: Reference) | TimedOut(reference: Reference) | Threw(fault: Fault)

  // The checksum of the canonical body, which these five values determine.
  type Checksum = (Reference, int, Option<int>, Phone, Option<Instant>) -> nat

  // ---------------------------------------------------------------- scenario.ts

  function Named(name: string): Option<Scenario> {
    match name
    case "success" => Some(Success)
    case "cancelled" => Some(Cancelled)
    case "insufficient_funds" => Some(InsufficientFunds)
    case "timeout" => Some(Timeout)
    case "duplicate_callback" => Some(DuplicateCallback)
    case "delayed_callback" => Some(DelayedCallback)
    case _ => None
  }

  function ScenarioFor(amount: nat, hint: string): Option<Scenario> {
    if hint != "" then Named(hint)
    else
      match (amount / 100) % 100
      case 1 => Some(Cancelled)
      case 2 => Some(InsufficientFunds)
      case 3 => Some(Timeout)
      case 4 => Some(DuplicateCallback)
      case 5 => Some(DelayedCallback)
      case _ => Some(Success)
  }

  function ResultOf(s: Scenario): Option<int> {
    match s
    case Timeout => None
    case Cancelled => Some(CANCELLED_BY_USER)
    case InsufficientFunds => Some(INSUFFICIENT_FUNDS)
    case _ => Some(SUCCESS)
  }

  function CodeOf(o: Outcome): int {
    match o
    case Succeeded => SUCCESS
    case WasCancelled => CANCELLED_BY_USER
    case LackedFunds => INSUFFICIENT_FUNDS
  }

  // ---------------------------------------------------------------- fake.ts

  /** TransactionDate is written in UTC to the second, and read back as East Africa Time. */
  function ReportedPaidAt(at: Instant): Instant {
    at - at % 1000 - BusinessDay.EAT_OFFSET
  }

  function BodyOf(r: Reference, record: StkRecord, code: int, notBefore: Instant, h: Checksum): StkBody {
    var amount := if code == SUCCESS then Some(record.amount) else None;
    var msisdn := if code == SUCCESS then record.msisdn else NO_PHONE;
    var paidAt := if code == SUCCESS then Some(ReportedPaidAt(notBefore)) else None;
    StkBody(r, code, amount, msisdn, paidAt, h(r, code, amount, msisdn, paidAt))
  }

  function QueueStk(f: State, r: Reference, record: StkRecord, notBefore: Instant, h: Checksum): State {
    if record.result.None? then f
    else f.(pending := f.pending + [Callback(BodyOf(r, record, record.result.value, notBefore, h), notBefore)])
  }

  function StkPush(f: State, amount: nat, msisdn: Phone, hint: string, now: Instant, delay: int, h: Checksum)
    : (State, Reply)
  {
    var scenario := ScenarioFor(amount, hint);
    if amount % 100 != 0 then (f, Threw(FractionalShillings))
    else if scenario.None? then (f, Threw(UnknownScenario))
    else
      var s, r := scenario.value, f.next;
      var dueAt := if s.DelayedCallback? then now + delay else now;
      var record := StkRecord(s, amount, msisdn, ResultOf(s), if s.Timeout? then None else Some(dueAt));
      var kept := f.(next := f.next + 1, stk := f.stk[r := record]);
      if s.Timeout? then (kept, TimedOut(r))
      else
        var once := QueueStk(kept, r, record, dueAt, h);
        (if s.DuplicateCallback? then QueueStk(once, r, record, dueAt, h) else once, Accepted(r))
  }

  function StkQuery(f: State, r: Reference, now: Instant): QueryReply {
    if r !in f.stk || f.stk[r].result.None? || f.stk[r].actsAt.None? || now < f.stk[r].actsAt.value then StillProcessing
    else Complete(f.stk[r].result.value)
  }

  function ResolveTimeout(f: State, r: Reference, outcome: Outcome, queue: bool, now: Instant, h: Checksum)
    : Result<State, Fault>
  {
    if r !in f.stk then Err(UnknownReference)
    else if !f.stk[r].scenario.Timeout? then Err(NotATimeout)
    else
      var record := f.stk[r].(actsAt := Some(now), result := Some(CodeOf(outcome)));
      var kept := f.(stk := f.stk[r := record]);
      Ok(if queue then QueueStk(kept, r, record, now, h) else kept)
  }

  function UnresolvedTimeouts(f: State): set<Reference> {
    set r | r in f.stk && f.stk[r].scenario.Timeout? && f.stk[r].result.None?
  }

  /** The i-th queued callback is handed over. */
  function HandOver(f: State, i: nat): State
    requires i < |f.pending|
  {
    f.(pending := f.pending[..i] + f.pending[i + 1..], delivered := f.delivered + [f.pending[i]])
  }

  function Due(queue: seq<Callback>, now: Instant): seq<Callback> {
    if queue == [] then []
    else (if queue[0].notBefore <= now then [queue[0]] else []) + Due(queue[1..], now)
  }

  function Waiting(queue: seq<Callback>, now: Instant): seq<Callback> {
    if queue == [] then []
    else (if queue[0].notBefore > now then [queue[0]] else []) + Waiting(queue[1..], now)
  }

  function Reversed(s: seq<Callback>): seq<Callback> {
    if s == [] then [] else Reversed(s[1..]) + [s[0]]
  }

  // ---------------------------------------------------------------- the record is the truth

  // A body says what the record of its reference says.
  predicate Truthful(f: State, body: StkBody) {
    && body.reference in f.stk
    && f.stk[body.reference].result == Some(body.code)
    && (body.code == SUCCESS ==>
          body.amount == Some(f.stk[body.reference].amount) && body.msisdn == f.stk[body.reference].msisdn)
  }

  predicate Consistent(f: State) {
    && (forall r :: r in f.stk ==> r < f.next)
    && (forall r :: r in f.stk ==> f.stk[r].result in {None, Some(SUCCESS), Some(CANCELLED_BY_USER), Some(INSUFFICIENT_FUNDS)})
    && (forall cb :: cb in f.pending ==> Truthful(f, cb.body))
    && (forall cb :: cb in f.delivered ==> Truthful(f, cb.body))
  }

  // Records are never dropped, and a result is written once.
  predicate RecordsKept(f: State, g: State) {
    forall r :: r in f.stk ==>
      && r in g.stk && g.stk[r].amount == f.stk[r].amount && g.stk[r].msisdn == f.stk[r].msisdn
      && (f.stk[r].result.Some? ==> g.stk[r].result == f.stk[r].result)
  }

  lemma TruthStays(f: State, g: State, body: StkBody)
    requires RecordsKept(f, g) && Truthful(f, body)
    ensures Truthful(g, body)
  {
  }

  lemma PushKeeps(f: State, amount: nat, msisdn: Phone, hint: string, now: Instant, delay: int, h: Checksum)
    requires Consistent(f)
    ensures var (g, reply) := StkPush(f, amount, msisdn, hint, now, delay, h);
      && Consistent(g) && RecordsKept(f, g)
      && (reply.Threw? ==> g == f)
      && (!reply.Threw? ==>
            reply.reference !in f.stk && reply.reference in g.stk
            && g.stk[reply.reference].amount == amount && g.stk[reply.reference].msisdn == msisdn)
      && (reply.TimedOut? ==> reply.reference in UnresolvedTimeouts(g) && g.pending == f.pending)
  {
    var (g, reply) := StkPush(f, amount, msisdn, hint, now, delay, h);
    forall cb | cb in f.pending + f.delivered ensures Truthful(g, cb.body) { TruthStays(f, g, cb.body); }
  }

  // When a push's customer acts, by its scenario.
  function ActsAt(s: Scenario, now: Instant, delay: int): Instant {
    if s == DelayedCallback then now + delay else now
  }

  /**
    * What each scenario comes to: a timeout tells its caller nothing and queues nothing; every other push is
    * accepted, its query is pending until the customer acts and then says the scenario's code, and exactly
    * its callbacks (two for a duplicate, one otherwise) are queued for that moment with that code.
    */
  lemma PushOutcome(f: State, amount: nat, msisdn: Phone, hint: string, now: Instant, delay: int, h: Checksum, at: Instant)
    requires amount % 100 == 0 && ScenarioFor(amount, hint).Some?
    ensures var (g, reply) := StkPush(f, amount, msisdn, hint, now, delay, h);
      var s := ScenarioFor(amount, hint).value;
      && reply == (if s == Timeout then TimedOut(f.next) else Accepted(f.next))
      && g.next == f.next + 1 && g.delivered == f.delivered
      && (s == Timeout ==> g.pending == f.pending && StkQuery(g, f.next, at) == StillProcessing)
      && (s != Timeout ==>
            var code := if s == Cancelled then 1032 else if s == InsufficientFunds then 1 else 0;
            && StkQuery(g, f.next, at) == (if at < ActsAt(s, now, delay) then StillProcessing else Complete(code))
            && |g.pending| == |f.pending| + (if s == DuplicateCallback then 2 else 1) && g.pending[..|f.pending|] == f.pending
            && forall i :: |f.pending| <= i < |g.pending| ==>
                 g.pending[i].notBefore == ActsAt(s, now, delay) && g.pending[i].body.reference == f.next
                 && g.pending[i].body.code == code
                 && g.pending[i].body.paidAt == (if code == 0 then Some(ReportedPaidAt(ActsAt(s, now, delay))) else None))
  {
  }

  /** A resolved timeout answers with its outcome from then on, and queues its late callback when asked to. */
  lemma ResolvedTimeoutAnswers(f: State, r: Reference, outcome: Outcome, queue: bool, now: Instant, h: Checksum, at: Instant)
    requires r in f.stk && f.stk[r].scenario.Timeout?
    ensures var g := ResolveTimeout(f, r, outcome, queue, now, h);
      var code := if outcome == Succeeded then 0 else if outcome == WasCancelled then 1032 else 1;
      && g.Ok?
      && StkQuery(g.value, r, at) == (if at < now then StillProcessing else Complete(code))
      && |g.value.pending| == |f.pending| + (if queue then 1 else 0)
      && (queue ==>
            var late := g.value.pending[|f.pending|];
            late.notBefore == now && late.body.reference == r && late.body.code == code)
  {
  }

  /** The first resolution of a timeout keeps everything said so far true. */
  lemma ResolveTimeoutKeeps(f: State, r: Reference, outcome: Outcome, queue: bool, now: Instant, h: Checksum)
    requires Consistent(f) && r in UnresolvedTimeouts(f)
    ensures var resolved := ResolveTimeout(f, r, outcome, queue, now, h);
      resolved.Ok? && Consistent(resolved.value) && RecordsKept(f, resolved.value)
  {
    var g := ResolveTimeout(f, r, outcome, queue, now, h).value;
    forall cb | cb in f.pending + f.delivered ensures Truthful(g, cb.body) { TruthStays(f, g, cb.body); }
  }

  /** A second resolution keeps them true exactly when it repeats the first. */
  lemma SecondResolutionMustAgree(f: State, r: Reference, outcome: Outcome, queue: bool, now: Instant, h: Checksum)
    requires Consistent(f) && r in f.stk && f.stk[r].scenario.Timeout? && f.stk[r].result.Some?
    ensures var resolved := ResolveTimeout(f, r, outcome, queue, now, h);
      resolved.Ok? && (RecordsKept(f, resolved.value) <==> f.stk[r].result == Some(CodeOf(outcome)))
  {
  }

  lemma HandOverKeeps(f: State, i: nat)
    requires Consistent(f) && i < |f.pending|
    ensures Consistent(HandOver(f, i)) && RecordsKept(f, HandOver(f, i))
    ensures Truthful(f, f.pending[i].body)
  {
    assert f.pending[i] in f.pending;
  }

  /** A callback handed over again is the record's word again, and takes nothing off the queue. */
  lemma RedeliveryKeeps(f: State, cb: Callback)
    requires Consistent(f) && cb in f.delivered
    ensures var g := f.(delivered := f.delivered + [cb]);
      Consistent(g) && RecordsKept(f, g) && g.pending == f.pending && Truthful(g, cb.body)
  {
  }

  // ---------------------------------------------------------------- delivery loses nothing

  /** deliverPending hands over each due callback once and keeps the others, whichever order it uses. */
  lemma {:induction false} DueOrWaiting(queue: seq<Callback>, now: Instant)
    ensures multiset(Due(queue, now)) + multiset(Waiting(queue, now)) == multiset(queue)
    ensures forall cb :: cb in Due(queue, now) ==> cb.notBefore <= now
    ensures forall cb :: cb in Waiting(queue, now) ==> now < cb.notBefore
  {
    if queue != [] {
      DueOrWaiting(queue[1..], now);
      assert queue == [queue[0]] + queue[1..];
    }
  }

  lemma {:induction false} ReversedSame(s: seq<Callback>)
    ensures multiset(Reversed(s)) == multiset(s) && |Reversed(s)| == |s|
  {
    if s != [] {
      ReversedSame(s[1..]);
      assert s == [s[0]] + s[1..];
    }
  }

  lemma {:induction false} ReversedGrows(s: seq<Callback>, t: seq<Callback>)
    ensures Reversed(s + t) == Reversed(t) + Reversed(s)
  {
    if s == [] {
      assert s + t == t;
    } else {
      ReversedGrows(s[1..], t);
      assert (s + t)[1..] == s[1..] + t;
    }
  }

  lemma {:induction false} DueGrows(s: seq<Callback>, cb: Callback, now: Instant)
    ensures Due(s + [cb], now) == Due(s, now) + if cb.notBefore <= now then [cb] else []
  {
    if s != [] {
      DueGrows(s[1..], cb, now);
      assert (s + [cb])[1..] == s[1..] + [cb];
    }
  }

  lemma {:induction false} WaitingGrows(s: seq<Callback>, cb: Callback, now: Instant)
    ensures Waiting(s + [cb], now) == Waiting(s, now) + if cb.notBefore > now then [cb] else []
  {
    if s != [] {
      WaitingGrows(s[1..], cb, now);
      assert (s + [cb])[1..] == s[1..] + [cb];
    }
  }
}
