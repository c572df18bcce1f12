/**
  * The Payments database and the services that write it, statement by statement. Each method is
  * proved to have exactly the effect of its transaction in Charges, for any tables it may have read.
  */
module PaymentsDb {
  import opened Common
  import opened Charges
  import opened ChargeInvariants
  import opened PurgeSafety
  import opened Protocol
  import opened Reconciler

  datatype Found = Nobody | Several | Only(id: ChargeId)

  class Database {
    ghost var born: map<ChargeId, Facts>
    var charges: map<ChargeId, Charge>
    var events: map<EventKey, Event>
    var outbox: map<ChargeId, OutboxRow>

    constructor ()
      ensures Rows() == Empty
    {
      born, charges, events, outbox := map[], map[], map[], map[];
    }

    ghost function Rows(): Tables
      reads this
    {
      Tables(born, charges, events, outbox)
    }

    // ------------------------------------------------------------ resolution.ts

    /** None: a unique key rolled the enclosing transaction back. */
    method ApplyChargeResolution(id: ChargeId, row: Charge, r: Resolution, now: Instant) returns (applied: Option<bool>)
      modifies this
      ensures var tx := Resolve(old(Rows()), id, row, r, now);
        Rows() == Rolled(tx, old(Rows())) && applied == Value(tx)
    {
      if row.hold.Some? { return Some(false); }
      if !(id in charges && charges[id].status.Pending? && charges[id].hold.None?) { return Some(false); }
      var current := charges[id];
      if !r.paid {
        charges := charges[id := current.(status := Failed, resultCode := Some(r.code), resolvedBy := Some(r.source))];
        return Some(true);
      }
      if id in outbox { return None; }
      var at := if r.paidAt.Some? then r.paidAt.value else now;
      charges := charges[id := current.(
        status := Paid, resultCode := Some(r.code), resolvedBy := Some(r.source), paidAt := Some(at))];
      outbox := outbox[id := OutboxRow(
        SalePaid(id, row.facts.saleId, row.facts.tenantId, row.facts.amount, at), false, 0)];
      return Some(true);
    }

    // ------------------------------------------------------------ callbackService.ts

    method FindAdoptableCharge(pool: Tables, amount: int, msisdn: Phone, now: Instant) returns (found: Found)
      ensures found.Nobody? <==> Candidates(pool, amount, msisdn, now) == {}
      ensures found.Only? ==> Candidates(pool, amount, msisdn, now) == {found.id}
      ensures found.Several? ==> forall id :: Candidates(pool, amount, msisdn, now) != {id}
    {
      var rows := set id | id in pool.charges && Adoptable(pool.charges[id], amount, msisdn, now);
      if rows == {} { return Nobody; }
      var first :| first in rows;
      if rows == {first} { return Only(first); }
      assert forall id :: rows == {id} ==> first == id;
      return Several;
    }

    /** The pre-check and the query it may spend; `ask` is what Daraja answers. */
    method ConfirmSuccess(pre: Tables, body: StkBody, confirm: bool, at: Instant, ask: Reference -> QueryReply)
      returns (verdict: Verdict)
      ensures body.code != SUCCESS ==> verdict == NotRequired
      ensures body.code == SUCCESS && !confirm ==> verdict == Skipped
      ensures body.code == SUCCESS && confirm && !PreCheck(pre, body, at) ==> verdict == NotRequired
      ensures body.code == SUCCESS && confirm && PreCheck(pre, body, at) ==>
        && (verdict == Confirmed <==> ask(body.reference) == Complete(SUCCESS))
        && (verdict == Contradicted <==> ask(body.reference).Complete? && ask(body.reference).result != SUCCESS)
        && (verdict == Unconfirmed <==> !ask(body.reference).Complete?)
    {
      if body.code != SUCCESS { return NotRequired; }
      if !confirm { return Skipped; }
      var movable := set id | id in pre.charges && pre.charges[id].status.Pending? && pre.charges[id].hold.None?
        && (pre.charges[id].reference == Some(body.reference)
            || (body.amount.Some? && Adoptable(pre.charges[id], body.amount.value, body.msisdn, at)));
      assert forall id :: id in movable ==> Open(pre, id);
      assert PreCheck(pre, body, at) <==> movable != {} by {
        if PreCheck(pre, body, at) {
          var id :| id in pre.charges && Open(pre, id)
            && (pre.charges[id].reference == Some(body.reference)
                || (body.amount.Some? && Adoptable(pre.charges[id], body.amount.value, body.msisdn, at)));
          assert id in movable;
        }
      }
      if movable == {} { return NotRequired; }
      match ask(body.reference)
      case StillProcessing => return Unconfirmed;
      case Unreachable => return Unconfirmed;
      case Complete(code) => return if code == SUCCESS then Confirmed else Contradicted;
    }

    method Settle(id: ChargeId, row: Charge, adopted: bool, body: StkBody, verdict: Verdict, now: Instant)
      returns (outcome: Option<Disposition>)
      requires KeyOf(body) in events
      modifies this
      ensures var tx := Charges.Settle(old(Rows()), id, row, adopted, body, verdict, now);
        tx.Committed? ==> Rows() == tx.tables
      ensures outcome == Value(Charges.Settle(old(Rows()), id, row, adopted, body, verdict, now))
    {
      var key := KeyOf(body);
      if body.code == SUCCESS {
        if body.amount != Some(row.facts.amount) {
          if id in charges && charges[id].status.Pending? && charges[id].hold.None? {
            charges := charges[id := charges[id].(hold := Some(AmountMismatch(body.amount)))];
          }
          events := events[key := events[key].(matched := true, applied := false)];
          return Some(HeldForReview(id, adopted));
        }
        if verdict.Contradicted? || verdict.Unconfirmed? {
          events := events[key := events[key].(matched := true, applied := false)];
          return Some(Withheld(id, adopted));
        }
      }
      var applied := ApplyChargeResolution(id, row, ResolutionOf(body), now);
      if applied.None? { return None; }
      events := events[key := events[key].(matched := true, applied := applied.value)];
      return Some(Settled(id, adopted, applied.value));
    }

    /** `seen` and `pool` are what the two SELECTs of the transaction read. */
    method ApplyStkCallback(seen: Tables, pool: Tables, body: StkBody, verdict: Verdict, now: Instant)
      returns (outcome: Option<Disposition>)
      requires Sound(seen)
      modifies this
      ensures var tx := CallbackTx(seen, pool, old(Rows()), body, verdict, now);
        Rows() == Rolled(tx, old(Rows())) && outcome == Value(tx)
    {
      var charges0, events0, outbox0 := charges, events, outbox;  // BEGIN
      ghost var born0 := born;
      var key := KeyOf(body);
      if key in events {
        events := events[key := events[key].(duplicates := events[key].duplicates + 1)];
        return Some(Duplicate);
      }
      events := events[key := Event(false, false, 0)];
      var holders := set id | id in seen.charges && seen.charges[id].reference == Some(body.reference);
      assert holders == Holders(seen, body.reference);
      if holders != {} {
        var id :| id in holders;
        OneHolder(seen, id, body.reference);
        outcome := Settle(id, seen.charges[id], false, body, verdict, now);
      } else if body.code == SUCCESS && body.amount.Some? {
        outcome := Adopt(pool, body, verdict, now);
      } else {
        return Some(Unmatched);
      }
      if outcome.None? {  // ROLLBACK
        charges, events, outbox, born := charges0, events0, outbox0, born0;
      }
    }

    method Adopt(pool: Tables, body: StkBody, verdict: Verdict, now: Instant) returns (outcome: Option<Disposition>)
      requires KeyOf(body) in events && body.amount.Some?
      modifies this
      ensures var tx := Charges.Adopt(pool, old(Rows()), body, verdict, now);
        (tx.Committed? ==> Rows() == tx.tables) && outcome == Value(tx)
    {
      var found := FindAdoptableCharge(pool, body.amount.value, body.msisdn, now);
      match found
      case Nobody => return Some(Unmatched);
      case Several => return Some(Ambiguous);
      case Only(id) =>
        assert id in Candidates(pool, body.amount.value, body.msisdn, now);
        var claimed := ClaimReference(id, body.reference);
        if claimed.None? { return None; }
        if !claimed.value { return Some(Unmatched); }
        outcome := Settle(id, pool.charges[id].(reference := Some(body.reference)), true, body, verdict, now);
    }

    method ClaimReference(id: ChargeId, r: Reference) returns (claimed: Option<bool>)
      modifies this`charges
      ensures var tx := Charges.ClaimReference(old(Rows()), id, r);
        Rows() == Rolled(tx, old(Rows())) && claimed == Value(tx)
    {
      if !(id in charges && charges[id].status.Pending? && charges[id].reference.None?) { return Some(false); }
      if exists other :: other in charges && charges[other].reference == Some(r) { return None; }
      charges := charges[id := charges[id].(reference := Some(r))];
      return Some(true);
    }

    // ------------------------------------------------------------ chargeService.ts

    /**
      * createCharge; `seen` is what its first SELECT read and `id` the id it makes up. The value is the charge
      * the caller gets and whether this call created it; only the call whose insert wins ever pushes.
      */
    method CreateCharge(seen: Tables, id: ChargeId, facts: Facts, reply: PushReply) returns (result: (ChargeId, bool))
      requires id !in born && id !in charges
      modifies this
      ensures SaleTaken(seen, facts.saleId) ==>
        && Rows() == old(Rows()) && !result.1
        && result.0 in seen.charges && seen.charges[result.0].facts.saleId == facts.saleId
      ensures !SaleTaken(seen, facts.saleId) && SaleTaken(old(Rows()), facts.saleId) ==>
        && Rows() == old(Rows()) && !result.1
        && result.0 in charges && charges[result.0].facts.saleId == facts.saleId
      ensures !SaleTaken(seen, facts.saleId) && !SaleTaken(old(Rows()), facts.saleId) ==>
        && result == (id, true)
        && Rows() == AfterPush(InsertCharge(old(Rows()), id, facts).tables, id, reply)
    {
      if existing :| existing in seen.charges && seen.charges[existing].facts.saleId == facts.saleId {
        return (existing, false);
      }
      if winner :| winner in charges && charges[winner].facts.saleId == facts.saleId {
        return (winner, false);
      }
      born := born[id := facts];
      charges := charges[id := NewCharge(facts)];
      PushStk(id, reply);
      return (id, true);
    }

    method PushStk(id: ChargeId, reply: PushReply)
      requires id in charges
      modifies this`charges
      ensures Rows() == AfterPush(old(Rows()), id, reply)
    {
      charges := charges[id := charges[id].(stkAttempts := charges[id].stkAttempts + 1)];
      match reply
      case NoReply =>
        charges := charges[id := charges[id].(pushNote := Unacknowledged)];
      case Rejected(code) =>
        if charges[id].status.Pending? {
          charges := charges[id := charges[id].(status := Failed, resultCode := code, pushNote := Refused)];
        }
      case OtherError =>
      case Acknowledged(r) =>
        var claimed := ClaimReference(id, r);
        if claimed == Some(true) {
          charges := charges[id := charges[id].(pushNote := Clean)];
        } else if claimed == Some(false) {
          charges := charges[id := charges[id].(pushNote := LateAck(r))];
        }
    }

    // ------------------------------------------------------------ reconcileService.ts

    method SelectBatch(cutoff: Instant, maxAttempts: nat, size: nat) returns (ids: seq<ChargeId>)
      ensures IsBatch(Rows(), cutoff, maxAttempts, size, ids)
    {
      ids := [];
      var rest := set id | id in charges && charges[id].status.Pending? && charges[id].hold.None?
        && charges[id].facts.createdAt <= cutoff && charges[id].reconcileAttempts < maxAttempts;
      while |ids| < size && rest != {}
        invariant |ids| <= size
        invariant forall id :: Eligible(Rows(), id, cutoff, maxAttempts) <==> id in ids || id in rest
        invariant forall i :: 0 <= i < |ids| ==> ids[i] !in rest
        invariant forall i, id :: 0 <= i < |ids| && id in rest ==>
          charges[ids[i]].facts.createdAt <= charges[id].facts.createdAt
        invariant forall i, j :: 0 <= i < j < |ids| ==>
          ids[i] != ids[j] && charges[ids[i]].facts.createdAt <= charges[ids[j]].facts.createdAt
        decreases rest
      {
        var oldest := Oldest(rest);
        ids, rest := ids + [oldest], rest - {oldest};
      }
    }

    method Oldest(rows: set<ChargeId>) returns (oldest: ChargeId)
      requires rows != {} && rows <= charges.Keys
      ensures oldest in rows
      ensures forall id :: id in rows ==> charges[oldest].facts.createdAt <= charges[id].facts.createdAt
    {
      oldest :| oldest in rows;
      var rest := rows - {oldest};
      while rest != {}
        invariant oldest in rows && rest <= rows
        invariant forall id :: id in rows && id !in rest ==>
          charges[oldest].facts.createdAt <= charges[id].facts.createdAt
        decreases rest
      {
        var id :| id in rest;
        if charges[id].facts.createdAt < charges[oldest].facts.createdAt { oldest := id; }
        rest := rest - {id};
      }
    }

    method BumpAttempt(id: ChargeId)
      modifies this`charges
      ensures Rows() == CountAttempt(old(Rows()), id)
    {
      if id in charges {
        charges := charges[id := charges[id].(reconcileAttempts := charges[id].reconcileAttempts + 1)];
      }
    }

    /** One reconcile pass in which nobody else writes; `ask` is Daraja's stkQuery. */
    method RunReconcileOnce(cutoff: Instant, maxAttempts: nat, size: nat, ask: Reference -> QueryReply, now: Instant)
      returns (ids: seq<ChargeId>, summary: Summary)
      modifies this
      ensures IsBatch(old(Rows()), cutoff, maxAttempts, size, ids)
      ensures (Rows(), summary) == Pass(old(Rows()), ids, |ids|, ask, maxAttempts, now)
    {
      ids := SelectBatch(cutoff, maxAttempts, size);
      var candidates := charges;
      ghost var t := Rows();
      summary := NoneYet;
      for i := 0 to |ids|
        invariant (Rows(), summary) == Pass(t, ids, i, ask, maxAttempts, now)
      {
        var row := candidates[ids[i]];
        var reply := Ask(row, ask);
        var look := LookAt(ids[i], row, reply, now);
        summary := Tally(summary, look, Exhausted(row, reply, maxAttempts));
      }
    }

    method LookAt(id: ChargeId, row: Charge, reply: QueryReply, now: Instant) returns (look: Look)
      modifies this
      ensures (Rows(), look) == Examine(old(Rows()), id, row, reply, now)
    {
      if row.reference.None? {
        BumpAttempt(id);
        return Unqueryable;
      }
      match reply
      case Unreachable =>
        BumpAttempt(id);
        return QueryError;
      case StillProcessing =>
        BumpAttempt(id);
        return StillPending;
      case Complete(code) =>
        look := ResolveByQuery(id, code, now);
    }

    /** The transaction for a complete answer: re-read, count, resolve. */
    method ResolveByQuery(id: ChargeId, code: int, now: Instant) returns (look: Look)
      modifies this
      ensures var tx := QueryTx(old(Rows()), old(Rows()), id, code, now);
        Rows() == Rolled(tx, old(Rows()))
        && look == if tx == Committed(Rolled(tx, old(Rows())), true) then
                     (if code == SUCCESS then ResolvedPaid else ResolvedFailed)
                   else StillPending
    {
      if id !in charges { return StillPending; }
      var charges0 := charges;
      var current := charges[id];
      BumpAttempt(id);
      var applied := ApplyChargeResolution(id, current, Resolution(code == SUCCESS, code, None, ByQuery), now);
      if applied.None? {
        charges := charges0;
        return StillPending;
      }
      return if !applied.value then StillPending else if code == SUCCESS then ResolvedPaid else ResolvedFailed;
    }

    // ------------------------------------------------------------ outbox.ts

    /**
      * One relay pass over a batch of unpublished rows: a row is marked published exactly when its own send
      * and its own mark went through; any other row of the batch counts an attempt and will be tried again.
      */
    method RelayOnce(batch: seq<ChargeId>, ends: seq<RelayEnd>) returns (published: nat, failed: nat)
      requires |ends| == |batch| && forall i :: 0 <= i < |batch| ==> batch[i] in outbox && !outbox[batch[i]].published
      requires forall i, j :: 0 <= i < j < |batch| ==> batch[i] != batch[j]
      modifies this`outbox
      ensures outbox.Keys == old(outbox).Keys
      ensures forall id :: id in outbox && id !in batch ==> outbox[id] == old(outbox)[id]
      ensures forall i :: 0 <= i < |batch| ==> RowRelayed(old(outbox)[batch[i]], outbox[batch[i]], ends[i])
      ensures published == |PublishedOf(batch, ends)| && failed == |batch| - published
    {
      published, failed := 0, 0;
      assert PublishedOf(batch[..0], ends[..0]) == {};
      for i := 0 to |batch|
        invariant outbox.Keys == old(outbox).Keys
        invariant forall id :: id in outbox && id !in batch[..i] ==> outbox[id] == old(outbox)[id]
        invariant forall k :: 0 <= k < i ==> RowRelayed(old(outbox)[batch[k]], outbox[batch[k]], ends[k])
        invariant published == |PublishedOf(batch[..i], ends[..i])| && failed == i - published
      {
        var id := batch[i];
        assert id !in batch[..i] && batch[..i + 1] == batch[..i] + [id];
        OneMorePublished(batch, ends, i);
        var row := outbox[id];
        if ends[i].Published? {
          outbox := outbox[id := row.(published := true)];
          published := published + 1;
        } else {
          outbox := outbox[id := row.(attempts := row.attempts + 1)];
          failed := failed + 1;
        }
      }
      assert batch[..|batch|] == batch && ends[..|batch|] == ends;
    }

    // ------------------------------------------------------------ routes/admin.ts

    method Release(id: ChargeId) returns (released: bool)
      modifies this`charges
      ensures Rows() == Charges.Release(old(Rows()), id)
      ensures released <==> id in old(charges) && old(charges)[id].status.Pending? && old(charges)[id].hold.Some?
    {
      released := id in charges && charges[id].status.Pending? && charges[id].hold.Some?;
      if released {
        charges := charges[id := charges[id].(hold := None, reconcileAttempts := 0)];
      }
    }

    /** None: the age is below the floor. A dry run counts and deletes nothing. */
    method PurgeAbandoned(now: Instant, age: int, tenants: Option<set<TenantId>>, dryRun: bool) returns (deleted: Option<nat>)
      modifies this`charges
      ensures deleted.None? <==> age < MIN_PURGE_AGE
      ensures Rows() == if deleted.None? || dryRun then old(Rows()) else Purge(old(Rows()), now - age, tenants)
      ensures deleted.Some? ==> deleted.value == |old(charges)| - |Purge(old(Rows()), now - age, tenants).charges|
    {
      hide Abandoned;
      if age < MIN_PURGE_AGE { return None; }
      var cutoff := now - age;
      var kept := map id | id in charges && !Abandoned(charges[id], cutoff, tenants) :: charges[id];
      var gone := set id | id in charges && Abandoned(charges[id], cutoff, tenants);
      assert charges.Keys == kept.Keys + gone && kept.Keys !! gone;
      deleted := Some(|gone|);
      if !dryRun { charges := kept; }
    }
  }

  // How the relay's turn at a row ended: publish may throw, and so may the UPDATE after it.
  datatype RelayEnd = Published | MarkFailed | NotSent

  // One turn of the relay at an unpublished row; the event is never rewritten.
  ghost predicate RowRelayed(before: OutboxRow, after: OutboxRow, end: RelayEnd) {
    && after.event == before.event && (after.published <==> end == Published)
    && after.attempts == before.attempts + if end == Published then 0 else 1
  }

  ghost function PublishedOf(batch: seq<ChargeId>, ends: seq<RelayEnd>): set<nat>
    requires |batch| == |ends|
  {
    set i: nat | i < |batch| && ends[i] == Published
  }

  lemma OneMorePublished(batch: seq<ChargeId>, ends: seq<RelayEnd>, i: nat)
    requires i < |batch| == |ends|
    ensures |PublishedOf(batch[..i + 1], ends[..i + 1])|
      == |PublishedOf(batch[..i], ends[..i])| + if ends[i] == Published then 1 else 0
  {
    var before := PublishedOf(batch[..i], ends[..i]);
    assert PublishedOf(batch[..i + 1], ends[..i + 1]) == if ends[i] == Published then before + {i} else before;
  }

  function Value<T>(tx: Tx<T>): Option<T> {
    match tx case Committed(_, x) => Some(x) case Aborted => None
  }

  /** pushStk's statements after the network call, for each way the call can end. */
  function AfterPush(t: Tables, id: ChargeId, reply: PushReply): Tables {
    var counted := CountPush(t, id);
    match reply
    case NoReply => NotePush(counted, id, Unacknowledged)
    case Rejected(code) => RecordRefusal(counted, id, code)
    case OtherError => counted
    case Acknowledged(r) =>
      match ClaimAck(counted, id, r)
      case Aborted => counted
      case Committed(t', claimed) => if claimed then t' else NotePush(t', id, LateAck(r))
  }
}
