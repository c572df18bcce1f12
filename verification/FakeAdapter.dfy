/** The adapter itself: a class whose methods update its records and queues in place. */
module FakeAdapters {
  import opened Common
  import opened Charges
  import opened Fake

  class FakeAdapter {
    const delay: int
    const checksum: Checksum
    var next: Reference
    var stk: map<Reference, StkRecord>
    var pending: seq<Callback>
    var delivered: seq<Callback>

    constructor (seed: nat, delay: int, checksum: Checksum)
      ensures Now() == State(seed, map[], [], []) && this.delay == delay && this.checksum == checksum
    {
      this.delay, this.checksum := delay, checksum;
      next, stk, pending, delivered := seed, map[], [], [];
    }

    function Now(): State
      reads this
    {
      State(next, stk, pending, delivered)
    }

    method StkPush(amount: nat, msisdn: Phone, hint: string, now: Instant) returns (reply: Reply)
      modifies this
      ensures (Now(), reply) == Fake.StkPush(old(Now()), amount, msisdn, hint, now, delay, checksum)
    {
      if amount % 100 != 0 { return Threw(FractionalShillings); }
      var scenario := ScenarioFor(amount, hint);
      if scenario.None? { return Threw(UnknownScenario); }
      var r := next;
      next := next + 1;
      var record := StkRecord(scenario.value, amount, msisdn, None, None);
      stk := stk[r := record];
      if scenario.value.Timeout? { return TimedOut(r); }
      var dueAt := if scenario.value.DelayedCallback? then now + delay else now;
      record := record.(actsAt := Some(dueAt));
      match scenario.value {
        case Success =>
          record := record.(result := Some(SUCCESS));
          QueueStk(r, record, dueAt);
        case DelayedCallback =>
          record := record.(result := Some(SUCCESS));
          QueueStk(r, record, dueAt);
        case DuplicateCallback =>
          record := record.(result := Some(SUCCESS));
          QueueStk(r, record, dueAt);
          QueueStk(r, record, dueAt);
        case Cancelled =>
          record := record.(result := Some(CANCELLED_BY_USER));
          QueueStk(r, record, dueAt);
        case InsufficientFunds =>
          record := record.(result := Some(INSUFFICIENT_FUNDS));
          QueueStk(r, record, dueAt);
      }
      stk := stk[r := record];
      assert stk == old(stk)[r := record];
      return Accepted(r);
    }

    method QueueStk(r: Reference, record: StkRecord, notBefore: Instant)
      modifies this`pending
      ensures Now() == Fake.QueueStk(old(Now()), r, record, notBefore, checksum)
    {
      if record.result.Some? {
        var code := record.result.value;
        var body;
        if code == SUCCESS {
          var paidAt := ReportedPaidAt(notBefore);
          body := StkBody(r, code, Some(record.amount), record.msisdn, Some(paidAt),
            checksum(r, code, Some(record.amount), record.msisdn, Some(paidAt)));
        } else {
          body := StkBody(r, code, None, NO_PHONE, None, checksum(r, code, None, NO_PHONE, None));
        }
        pending := pending + [Callback(body, notBefore)];
      }
    }

    method StkQuery(r: Reference, now: Instant) returns (reply: QueryReply)
      ensures reply == Fake.StkQuery(Now(), r, now)
    {
      if r !in stk { return StillProcessing; }
      match (stk[r].result, stk[r].actsAt)
      case (Some(code), Some(at)) => return if now < at then StillProcessing else Complete(code);
      case _ => return StillProcessing;
    }

    method ResolveTimeout(r: Reference, outcome: Outcome, queue: bool, now: Instant) returns (fault: Option<Fault>)
      modifies this
      ensures var resolved := Fake.ResolveTimeout(old(Now()), r, outcome, queue, now, checksum);
        match resolved
        case Ok(f) => fault.None? && Now() == f
        case Err(e) => fault == Some(e) && Now() == old(Now())
    {
      if r !in stk { return Some(UnknownReference); }
      if !stk[r].scenario.Timeout? { return Some(NotATimeout); }
      stk := stk[r := stk[r].(actsAt := Some(now))];
      match outcome {
        case Succeeded => stk := stk[r := stk[r].(result := Some(SUCCESS))];
        case WasCancelled => stk := stk[r := stk[r].(result := Some(CANCELLED_BY_USER))];
        case LackedFunds => stk := stk[r := stk[r].(result := Some(INSUFFICIENT_FUNDS))];
      }
      if queue { QueueStk(r, stk[r], now); }
      return None;
    }

    method Split(queue: seq<Callback>, now: Instant) returns (due: seq<Callback>, rest: seq<Callback>)
      ensures due == Due(queue, now) && rest == Waiting(queue, now)
    {
      due, rest := [], [];
      for i := 0 to |queue|
        invariant due == Due(queue[..i], now) && rest == Waiting(queue[..i], now)
      {
        assert queue[..i + 1] == queue[..i] + [queue[i]];
        DueGrows(queue[..i], queue[i], now);
        WaitingGrows(queue[..i], queue[i], now);
        if queue[i].notBefore <= now { due := due + [queue[i]]; } else { rest := rest + [queue[i]]; }
      }
      assert queue[..|queue|] == queue;
    }

    method Backwards(due: seq<Callback>) returns (ordered: seq<Callback>)
      ensures ordered == Reversed(due)
    {
      ordered := [];
      for i := 0 to |due|
        invariant ordered == Reversed(due[..i])
      {
        assert due[..i + 1] == due[..i] + [due[i]];
        ReversedGrows(due[..i], [due[i]]);
        ordered := [due[i]] + ordered;
      }
      assert due[..|due|] == due;
    }

    /** Every due callback goes out, first-in-first-out or the other way round; the others stay queued. */
    method DeliverPending(reverse: bool, now: Instant) returns (count: nat)
      modifies this`pending, this`delivered
      ensures pending == Waiting(old(pending), now) && count == |Due(old(pending), now)|
      ensures delivered == old(delivered) +
        if reverse then Reversed(Due(old(pending), now)) else Due(old(pending), now)
    {
      var due, rest := Split(pending, now);
      pending := rest;
      var ordered := due;
      if reverse {
        ordered := Backwards(due);
        ReversedSame(due);
      }
      var sent := delivered;
      for i := 0 to |ordered|
        invariant pending == rest && delivered == sent + ordered[..i]
      {
        delivered := delivered + [ordered[i]];
        assert ordered[..i + 1] == ordered[..i] + [ordered[i]];
      }
      assert ordered[..|ordered|] == ordered;
      return |ordered|;
    }

    /** Replaying what was delivered keeps every callback, queued or delivered, saying what its record says. */
    method Redeliver(cb: Callback)
      modifies this`delivered
      ensures delivered == old(delivered) + [cb]
      ensures old(Consistent(Now())) && cb in old(delivered) ==> Consistent(Now()) && Truthful(Now(), cb.body)
    {
      if Consistent(Now()) && cb in delivered { RedeliveryKeeps(Now(), cb); }
      delivered := delivered + [cb];
    }
  }
}
