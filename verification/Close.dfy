/**
  * The daily close: a nested loop over the snapshot that ledgers every attendant once and asks for a
  * payout for every row it finds COMPUTED.
  */
module Close {
  import opened Common
  import opened Payouts
  import opened PayoutProtocol
  import PayoutInvariants
  import PayoutSteps
  import opened PayoutsDb
  import BusinessDay
  import Money

  // What POS's daily-close read says.
  datatype AttendantDay = AttendantDay(attendantId: AttendantId, msisdn: Option<Phone>, rateBps: int, totals: seq<nat>)
  datatype TenantDay = TenantDay(tenantId: TenantId, attendants: seq<AttendantDay>)

  // One requestPayout as the close experiences it.
  datatype Wire = Wire(arrives: bool, reply: B2CReply, answered: bool)
  datatype RequestEnd = Accepted | Unknown | Refused

  datatype RunStatus = Completed | Failed

  datatype CloseResult = CloseResult(
    tenantsProcessed: nat,
    attendantsProcessed: nat,
    created: nat,
    existing: nat,
    requested: nat,
    skipped: nat,
    uncertain: nat,
    status: RunStatus)

  const NothingYet := CloseResult(0, 0, 0, 0, 0, 0, 0, Completed)

  ghost predicate StoredSnapshot(tenants: seq<TenantDay>) {
    forall i, j :: 0 <= i < |tenants| && 0 <= j < |tenants[i].attendants| ==> Money.Stored(tenants[i].attendants[j].totals)
  }

  /** What one attendant's day comes to; None when it cannot be computed or does not fit its columns. */
  function FiguresFor(a: AttendantDay): (f: Option<Figures>)
    requires Money.Stored(a.totals)
    ensures f.Some? ==>
      && f.value.amount == f.value.payout + f.value.remainder && f.value.payout % 100 == 0 && f.value.remainder < 100
      && f.value.saleCount == |a.totals| && f.value.saleTotal == Money.Sum(a.totals)
      && f.value.rateBps == a.rateBps <= Money.FULL_RATE && f.value.msisdn == GetOr(a.msisdn, NO_MSISDN)
      && f.value.amount == Money.Sum(Money.PerSale(a.totals, a.rateBps))
  {
    match Money.ComputeCommission(a.totals, a.rateBps)
    case Err(_) => None
    case Ok(c) =>
      if a.rateBps < 0 || a.rateBps > Money.FULL_RATE || c.saleTotal > Money.INT_MAX || c.saleCount > Money.INT_MAX then None
      else Some(Figures(c.amount, c.payout, c.remainder, a.rateBps, GetOr(a.msisdn, NO_MSISDN), c.saleCount, c.saleTotal))
  }

  /** An attendant can be ledgered exactly when the rate is a rate and the day's figures fit their INT columns. */
  lemma FiguresExist(a: AttendantDay)
    requires Money.Stored(a.totals)
    ensures FiguresFor(a).Some? <==>
      0 <= a.rateBps <= Money.FULL_RATE && Money.Sum(a.totals) <= Money.INT_MAX && |a.totals| <= Money.INT_MAX
  {
    Money.WhenComputeFails(a.totals, a.rateBps);
  }

  // The attendants of a snapshot in the order the loops meet them.
  datatype Item = Item(tenantId: TenantId, attendant: AttendantDay)

  function ItemsOf(t: TenantDay): (items: seq<Item>)
    ensures |items| == |t.attendants|
  {
    seq(|t.attendants|, j requires 0 <= j < |t.attendants| => Item(t.tenantId, t.attendants[j]))
  }

  function Items(tenants: seq<TenantDay>): seq<Item> {
    if tenants == [] then [] else Items(tenants[..|tenants| - 1]) + ItemsOf(tenants[|tenants| - 1])
  }

  predicate Writable(item: Item) {
    Money.Stored(item.attendant.totals) && FiguresFor(item.attendant).Some?
  }

  predicate AllWritable(items: seq<Item>) {
    forall i :: 0 <= i < |items| ==> Writable(items[i])
  }

  /** The ledger writes the close attempts for these attendants. */
  function Writes(items: seq<Item>, day: string): (w: seq<LedgerWrite>)
    requires AllWritable(items)
    ensures |w| == |items|
  {
    seq(|items|, i requires 0 <= i < |items| =>
      LedgerWrite(Key(items[i].tenantId, items[i].attendant.attendantId, day), FiguresFor(items[i].attendant).value))
  }

  // ---------------------------------------------------------------- what a stretch of writes leaves

  // `after` is `before` with the writes merged in, earlier figures winning.
  ghost predicate Merged(before: PayoutTables, writes: seq<LedgerWrite>, after: PayoutTables) {
    && (forall id :: id in before.ledger ==>
          id in after.ledger && after.ledger[id].key == before.ledger[id].key
          && after.ledger[id].figures == before.ledger[id].figures && after.ledger[id].runId == before.ledger[id].runId)
    && (forall id :: id in after.ledger && id !in before.ledger ==>
          !KeyTaken(before, after.ledger[id].key)
          && FirstWrite(writes, after.ledger[id].key) == Some(after.ledger[id].figures))
    && (forall i :: 0 <= i < |writes| ==> KeyTaken(after, writes[i].key))
  }

  lemma MergedNothing(t: PayoutTables)
    ensures Merged(t, [], t)
  {
  }

  lemma KeyStaysTaken(t: PayoutTables, t': PayoutTables, key: Key)
    requires KeyTaken(t, key)
    requires forall id :: id in t.ledger ==> id in t'.ledger && t'.ledger[id].key == t.ledger[id].key
    ensures KeyTaken(t', key)
  {
    var id :| id in t.ledger && t.ledger[id].key == key;
    assert id in t'.ledger && t'.ledger[id].key == key;
  }

  lemma SameColumns(t: PayoutTables, t': PayoutTables, id: LedgerId)
    requires SameFigures(t, t') && id in t.ledger
    ensures id in t'.ledger && t'.ledger[id].key == t.ledger[id].key && t'.ledger[id].figures == t.ledger[id].figures
      && t'.ledger[id].runId == t.ledger[id].runId
  {
    assert t'.ledger[id].(status := t.ledger[id].status) == t.ledger[id];
  }

  /** Status changes leave the merge alone. */
  lemma MergedStatuses(before: PayoutTables, writes: seq<LedgerWrite>, t: PayoutTables, t': PayoutTables)
    requires Merged(before, writes, t) && SameFigures(t, t')
    ensures Merged(before, writes, t')
  {
    hide KeyTaken;
    forall id | id in t.ledger
      ensures id in t'.ledger && t'.ledger[id].key == t.ledger[id].key && t'.ledger[id].figures == t.ledger[id].figures
        && t'.ledger[id].runId == t.ledger[id].runId
    {
      SameColumns(t, t', id);
    }
    forall i | 0 <= i < |writes| ensures KeyTaken(t', writes[i].key) {
      KeyStaysTaken(t, t', writes[i].key);
    }
  }

  lemma MergedKeys(before: PayoutTables, writes: seq<LedgerWrite>, t: PayoutTables, key: Key)
    requires Merged(before, writes, t) && !KeyTaken(t, key)
    ensures !KeyTaken(before, key) && forall i :: 0 <= i < |writes| ==> writes[i].key != key
  {
    hide FirstWrite;
    if KeyTaken(before, key) { KeyStaysTaken(before, t, key); }
  }

  /** One more write, first or not. */
  lemma MergedWrite(before: PayoutTables, writes: seq<LedgerWrite>, t: PayoutTables, lid: LedgerId, key: Key, f: Figures,
                    runId: RunId)
    requires Merged(before, writes, t) && lid !in t.ledger
    ensures Merged(before, writes + [LedgerWrite(key, f)], WriteLedger(t, lid, key, f, runId))
  {
    var t', next := WriteLedger(t, lid, key, f, runId), LedgerWrite(key, f);
    assert KeyTaken(t', key) by {
      assert !KeyTaken(t, key) ==> t'.ledger[lid].key == key;
    }
    hide KeyTaken;
    forall id | id in t'.ledger && id !in before.ledger
      ensures !KeyTaken(before, t'.ledger[id].key)
      ensures FirstWrite(writes + [next], t'.ledger[id].key) == Some(t'.ledger[id].figures)
    {
      PayoutInvariants.FirstWriteGrows(writes, next, t'.ledger[id].key);
      if id !in t.ledger { MergedKeys(before, writes, t, t'.ledger[id].key); }
    }
    forall i | 0 <= i < |writes + [next]| ensures KeyTaken(t', (writes + [next])[i].key) {
      if i < |writes| { KeyStaysTaken(t, t', writes[i].key); }
    }
  }

  /** Writing only keys that are taken adds no row. */
  lemma MergingTakenKeysAddsNothing(before: PayoutTables, writes: seq<LedgerWrite>, after: PayoutTables)
    requires Merged(before, writes, after) && forall i :: 0 <= i < |writes| ==> KeyTaken(before, writes[i].key)
    ensures after.ledger.Keys == before.ledger.Keys
  {
    hide KeyTaken;
    forall id | id in after.ledger ensures id in before.ledger {
      if id !in before.ledger {
        var row := after.ledger[id];
        PayoutInvariants.FirstWriteGrows(writes, LedgerWrite(row.key, row.figures), row.key);
        assert false;
      }
    }
  }

  /** A redelivered trigger: closing a day whose keys are all ledgered creates nothing and keeps every figure. */
  lemma ReplayCreatesNothing(before: PayoutTables, after: PayoutTables, tenants: seq<TenantDay>, day: string, r: CloseResult)
    requires CloseDone(before, after, tenants, day, r)
    requires var items := Items(tenants);
      forall i :: 0 <= i < r.created + r.existing ==>
        KeyTaken(before, Key(items[i].tenantId, items[i].attendant.attendantId, day))
    ensures r.created == 0 && after.ledger.Keys == before.ledger.Keys
    ensures forall id :: id in before.ledger ==> after.ledger[id].figures == before.ledger[id].figures
  {
    hide KeyTaken, FiguresFor, Items;
    var done := Items(tenants)[..r.created + r.existing];
    forall i | 0 <= i < |done| ensures KeyTaken(before, Writes(done, day)[i].key) {
      assert done[i] == Items(tenants)[i];
      assert KeyTaken(before, Key(Items(tenants)[i].tenantId, Items(tenants)[i].attendant.attendantId, day));
    }
    MergingTakenKeysAddsNothing(before, Writes(done, day), after);
    assert |after.ledger.Keys| == |after.ledger| && |before.ledger.Keys| == |before.ledger|;
  }

  // ---------------------------------------------------------------- runClose

  /** payments.requestPayout: anything but an answer from Payments is unknown. */
  method RequestPayout(db: PayoutDatabase, lid: LedgerId, wire: Wire) returns (end: RequestEnd)
    requires db.Valid() && lid in db.ledger && db.ledger[lid].status.LedgerComputed?
    modifies db
    ensures db.Valid() && SameFigures(old(db.Rows()), db.Rows())
    ensures db.Rows() ==
      if wire.arrives then CreateTx(old(db.Rows()), old(db.Rows()), lid, old(db.nextId), wire.reply).0 else old(db.Rows())
    ensures !wire.arrives || !wire.answered ==> end.Unknown?
    ensures wire.arrives && wire.answered ==>
      end == EndOf(CreateTx(old(db.Rows()), old(db.Rows()), lid, old(db.nextId), wire.reply).1)
  {
    if !wire.arrives { return Unknown; }
    var seen := PayoutTables(db.ledger, db.payouts, db.events);
    CreateKeepsFigures(seen, seen, lid, db.nextId, wire.reply);
    var created := db.CreatePayout(seen, lid, wire.reply);
    if !wire.answered { return Unknown; }
    return EndOf(created);
  }

  /** 200 and 201 are accepted, a 5xx is unknown, a 4xx refused. */
  function EndOf(reply: CreateReply): RequestEnd {
    match reply
    case NewlyCreated(_) => Accepted
    case AlreadyThere(_, _) => Accepted
    case Threw => Unknown
    case _ => Refused
  }

  // How the close's turn at one attendant went.
  datatype Turn =
    | SkippedTurn    // nothing to send, or nowhere to send it
    | PastTurn       // the key's row is past COMPUTED, or was SKIPPED when it was first written
    | AcceptedTurn   // asked, and Payments said yes
    | UnsureTurn     // asked, and anything else

  // The row of a key.
  ghost predicate IsRow(t: PayoutTables, lid: LedgerId, key: Key) {
    lid in t.ledger && t.ledger[lid].key == key
  }

  /**
    * What the turn did to tables `t`, in which the attendant's write has just been made: a payout is asked for
    * exactly when the figures can be sent and the key's row is COMPUTED, and then for that row.
    */
  ghost predicate TurnTaken(t: PayoutTables, t': PayoutTables, key: Key, f: Figures, pid: PayoutId, wire: Wire, turn: Turn) {
    && (turn == SkippedTurn <==> f.payout == 0 || f.msisdn == NO_MSISDN)
    && (turn == SkippedTurn || turn == PastTurn ==> t' == t)
    && (turn == PastTurn ==> exists lid :: IsRow(t, lid, key) && t.ledger[lid].status != LedgerComputed)
    && (turn == AcceptedTurn || turn == UnsureTurn ==>
          exists lid ::
            && IsRow(t, lid, key) && t.ledger[lid].status == LedgerComputed
            && t' == (if wire.arrives then CreateTx(t, t, lid, pid, wire.reply).0 else t)
            && (turn == AcceptedTurn <==>
                  wire.arrives && wire.answered && Agreed(CreateTx(t, t, lid, pid, wire.reply).1)))
  }

  // Payments has a payout for the row, made now or before.
  predicate Agreed(reply: CreateReply) {
    reply.NewlyCreated? || reply.AlreadyThere?
  }

  // A turn counts once, under its own name.
  predicate TurnCounted(soFar: CloseResult, r: CloseResult, turn: Turn) {
    && r.skipped == soFar.skipped + (if turn == SkippedTurn then 1 else 0)
    && r.requested == soFar.requested + (if turn == AcceptedTurn then 1 else 0)
    && r.uncertain == soFar.uncertain + (if turn == UnsureTurn then 1 else 0)
  }

  /** The SELECT and the request; None: the row it finds is not COMPUTED, and nobody is asked. */
  method AskForRow(db: PayoutDatabase, key: Key, f: Figures, wire: Wire, ghost before: PayoutTables,
                   ghost writes: seq<LedgerWrite>)
    returns (end: Option<RequestEnd>, ghost turn: Turn)
    requires db.Valid() && Merged(before, writes, db.Rows())
    requires !StatusFor(f).LedgerSkipped? && exists lid :: IsRow(db.Rows(), lid, key)
    modifies db
    ensures db.Valid() && Merged(before, writes, db.Rows()) && |db.ledger| == |old(db.ledger)|
    ensures TurnTaken(old(db.Rows()), db.Rows(), key, f, old(db.nextId), wire, turn)
    ensures turn == match end case None => PastTurn case Some(e) => if e == Accepted then AcceptedTurn else UnsureTurn
  {
    hide Merged, CreateTx, SameFigures, TurnTaken;
    turn, end := PastTurn, None;
    ghost var t := db.Rows();
    assert forall lid :: IsRow(t, lid, key) ==> lid in db.ledger && db.ledger[lid].key == key;
    var lid :| lid in db.ledger && db.ledger[lid].key == key;
    assert IsRow(t, lid, key);
    if !db.ledger[lid].status.LedgerComputed? {
      NotAsked(t, key, f, db.nextId, wire, turn);
      return;
    }
    var answer := RequestPayout(db, lid, wire);
    MergedStatuses(before, writes, t, db.Rows());
    SameSize(t, db.Rows());
    end, turn := Some(answer), if answer == Accepted then AcceptedTurn else UnsureTurn;
    Asked(t, db.Rows(), lid, key, f, old(db.nextId), wire, turn);
  }

  /** One attendant: ledger, then ask for whatever row the key has, if it is still COMPUTED. */
  method CloseAttendant(db: PayoutDatabase, key: Key, f: Figures, runId: RunId, wire: Wire, soFar: CloseResult,
                        ghost before: PayoutTables, ghost writes: seq<LedgerWrite>)
    returns (result: CloseResult, ghost turn: Turn)
    requires db.Valid() && Merged(before, writes, db.Rows())
    modifies db
    ensures db.Valid() && Merged(before, writes + [LedgerWrite(key, f)], db.Rows())
    ensures result.created == soFar.created + if KeyTaken(old(db.Rows()), key) then 0 else 1
    ensures result.existing == soFar.existing + if KeyTaken(old(db.Rows()), key) then 1 else 0
    ensures |db.ledger| - |old(db.ledger)| == result.created - soFar.created
    ensures TurnCounted(soFar, result, turn)
    ensures TurnTaken(WriteLedger(old(db.Rows()), old(db.nextId), key, f, runId), db.Rows(), key, f, old(db.nextId) + 1, wire, turn)
    ensures result.status == soFar.status && result.tenantsProcessed == soFar.tenantsProcessed
      && result.attendantsProcessed == soFar.attendantsProcessed
  {
    hide Merged, CreateTx, KeyTaken, WriteLedger, TurnTaken, IsRow;
    MergedWrite(before, writes, db.Rows(), db.nextId, key, f, runId);
    WrittenHasRow(db.Rows(), db.nextId, key, f, runId);
    var created := db.WriteLedger(key, f, runId);
    result := soFar;
    if created {
      result := result.(created := result.created + 1);
    } else {
      result := result.(existing := result.existing + 1);
    }
    if StatusFor(f).LedgerSkipped? {
      result, turn := result.(skipped := result.skipped + 1), SkippedTurn;
      NotAsked(db.Rows(), key, f, old(db.nextId) + 1, wire, turn);
      return;
    }
    var end;
    end, turn := AskForRow(db, key, f, wire, before, writes + [LedgerWrite(key, f)]);
    match end
    case None =>
    case Some(Accepted) => result := result.(requested := result.requested + 1);
    case Some(_) => result := result.(uncertain := result.uncertain + 1);
  }

  lemma NotAsked(t: PayoutTables, key: Key, f: Figures, pid: PayoutId, wire: Wire, turn: Turn)
    requires turn == SkippedTurn <==> StatusFor(f).LedgerSkipped?
    requires turn == SkippedTurn
      || (turn == PastTurn && exists lid :: IsRow(t, lid, key) && t.ledger[lid].status != LedgerComputed)
    ensures TurnTaken(t, t, key, f, pid, wire, turn)
  {
  }

  lemma Asked(t: PayoutTables, t': PayoutTables, lid: LedgerId, key: Key, f: Figures, pid: PayoutId, wire: Wire, turn: Turn)
    requires IsRow(t, lid, key) && t.ledger[lid].status == LedgerComputed && !StatusFor(f).LedgerSkipped?
    requires t' == if wire.arrives then CreateTx(t, t, lid, pid, wire.reply).0 else t
    requires turn == if wire.arrives && wire.answered && Agreed(CreateTx(t, t, lid, pid, wire.reply).1)
                     then AcceptedTurn else UnsureTurn
    ensures TurnTaken(t, t', key, f, pid, wire, turn)
  {
    hide CreateTx, Agreed;
  }

  lemma SameSize(t: PayoutTables, t': PayoutTables)
    requires SameFigures(t, t')
    ensures |t'.ledger| == |t.ledger|
  {
    assert |t.ledger.Keys| == |t.ledger| && |t'.ledger.Keys| == |t'.ledger|;
  }

  lemma WrittenHasRow(t: PayoutTables, lid: LedgerId, key: Key, f: Figures, runId: RunId)
    requires lid !in t.ledger
    ensures exists id :: IsRow(WriteLedger(t, lid, key, f, runId), id, key)
    ensures |WriteLedger(t, lid, key, f, runId).ledger| == |t.ledger| + if KeyTaken(t, key) then 0 else 1
  {
    var t' := WriteLedger(t, lid, key, f, runId);
    if KeyTaken(t, key) {
      var id :| id in t.ledger && t.ledger[id].key == key;
      assert IsRow(t', id, key);
    } else {
      assert IsRow(t', lid, key);
    }
  }

  // What remains true of a turn for good: an asked row has its payout, a passed one is not COMPUTED again.
  ghost predicate TurnHolds(t: PayoutTables, key: Key, f: Figures, wire: Wire, turn: Turn) {
    && (turn == SkippedTurn <==> f.payout == 0 || f.msisdn == NO_MSISDN)
    && (turn == AcceptedTurn ==> wire.arrives && wire.answered)
    && (turn != SkippedTurn ==> exists lid :: IsRow(t, lid, key))
    && forall lid :: IsRow(t, lid, key) ==>
         && (turn == PastTurn ==> t.ledger[lid].status != LedgerComputed)
         && ((turn == AcceptedTurn || turn == UnsureTurn) && wire.arrives && t.ledger[lid].figures.payout % 100 == 0 ==>
               PayoutSteps.PaidOut(t, lid))
  }

  lemma TurnHoldsOn(t: PayoutTables, t': PayoutTables, key: Key, f: Figures, wire: Wire, turn: Turn)
    requires TurnHolds(t, key, f, wire, turn) && PayoutsEvolve(t, t') && OneRowPerKey(t')
    ensures TurnHolds(t', key, f, wire, turn)
  {
    hide PayoutSteps.PaidOut;
    if turn != SkippedTurn {
      var lid :| IsRow(t, lid, key);
      assert LedgerRowEvolves(t.ledger[lid], t'.ledger[lid]);
      assert IsRow(t', lid, key);
      if PayoutSteps.PaidOut(t, lid) { PayoutSteps.PaidOutStays(t, t', lid); }
    }
  }

  lemma TurnSound(t: PayoutTables, t': PayoutTables, lid: LedgerId, key: Key, f: Figures, runId: RunId, pid: PayoutId,
                  wire: Wire, turn: Turn)
    requires PayoutInvariants.RowsSound(t) && lid !in t.ledger && pid !in t.payouts
    requires TurnTaken(WriteLedger(t, lid, key, f, runId), t', key, f, pid, wire, turn)
    ensures PayoutInvariants.RowsKeep(t, t') && TurnHolds(t', key, f, wire, turn)
  {
    hide PayoutInvariants.RowsSound, PayoutsEvolve, CreateTx, WriteLedger, PayoutSteps.PaidOut;
    var t1 := WriteLedger(t, lid, key, f, runId);
    PayoutInvariants.WriteLedgerKeeps(t, lid, key, f, runId);
    SamePayoutsWritten(t, lid, key, f, runId);
    WrittenHasRow(t, lid, key, f, runId);
    PayoutInvariants.SameRows(t1);
    if turn == AcceptedTurn || turn == UnsureTurn {
      var asked :| IsRow(t1, asked, key) && t1.ledger[asked].status == LedgerComputed
        && t' == (if wire.arrives then CreateTx(t1, t1, asked, pid, wire.reply).0 else t1)
        && (turn == AcceptedTurn <==>
              wire.arrives && wire.answered && Agreed(CreateTx(t1, t1, asked, pid, wire.reply).1));
      PayoutSteps.RequestLeavesPayout(t1, asked, pid, wire.reply);
      AskedRow(t1, t', asked, key);
    } else if turn == PastTurn {
      var past :| IsRow(t1, past, key) && t1.ledger[past].status != LedgerComputed;
      AskedRow(t1, t1, past, key);
    }
    PayoutSteps.EvolvesOn(t, t1, t');
  }

  lemma SamePayoutsWritten(t: PayoutTables, lid: LedgerId, key: Key, f: Figures, runId: RunId)
    ensures WriteLedger(t, lid, key, f, runId).payouts == t.payouts
  {
  }

  // The row found by the SELECT is the key's only row, and stays it.
  lemma AskedRow(t: PayoutTables, t': PayoutTables, lid: LedgerId, key: Key)
    requires PayoutInvariants.RowsSound(t') && PayoutsEvolve(t, t') && IsRow(t, lid, key)
    ensures IsRow(t', lid, key) && t'.ledger[lid].figures == t.ledger[lid].figures
    ensures forall other :: IsRow(t', other, key) ==> other == lid
  {
    assert LedgerRowEvolves(t.ledger[lid], t'.ledger[lid]);
  }

  // ---------------------------------------------------------------- the turns of a run

  function KeyOf(item: Item, day: string): Key {
    Key(item.tenantId, item.attendant.attendantId, day)
  }

  function Times(turns: seq<Turn>, turn: Turn): nat {
    if turns == [] then 0
    else Times(turns[..|turns| - 1], turn) + if turns[|turns| - 1] == turn then 1 else 0
  }

  predicate TurnsCounted(turns: seq<Turn>, r: CloseResult) {
    && r.skipped == Times(turns, SkippedTurn) && r.requested == Times(turns, AcceptedTurn)
    && r.uncertain == Times(turns, UnsureTurn)
  }

  /** The counters and the rows already past COMPUTED make up the attendants met. */
  lemma {:induction false} TurnsAddUp(turns: seq<Turn>)
    ensures Times(turns, SkippedTurn) + Times(turns, AcceptedTurn) + Times(turns, UnsureTurn) + Times(turns, PastTurn)
      == |turns|
  {
    if turns != [] { TurnsAddUp(turns[..|turns| - 1]); }
  }

  lemma OneMoreCounted(turns: seq<Turn>, turn: Turn, soFar: CloseResult, r: CloseResult)
    requires TurnsCounted(turns, soFar) && TurnCounted(soFar, r, turn)
    ensures TurnsCounted(turns + [turn], r)
  {
    assert (turns + [turn])[..|turns|] == turns;
  }

  // The turns taken at these attendants, as they hold in the tables they left.
  ghost predicate TurnsTaken(before: PayoutTables, t: PayoutTables, items: seq<Item>, day: string, turns: seq<Turn>,
                             wires: nat -> Wire)
  {
    && AllWritable(items) && |turns| == |items|
    && (PayoutInvariants.RowsSound(before) ==>
          && PayoutInvariants.RowsSound(t)
          && forall n :: 0 <= n < |items| ==>
               TurnHolds(t, KeyOf(items[n], day), FiguresFor(items[n].attendant).value, wires(n), turns[n]))
  }

  lemma OneMoreTurn(before: PayoutTables, t: PayoutTables, t': PayoutTables, items: seq<Item>, item: Item, day: string,
                    turns: seq<Turn>, turn: Turn, wires: nat -> Wire, lid: LedgerId, runId: RunId, pid: PayoutId)
    requires TurnsTaken(before, t, items, day, turns, wires) && Writable(item)
    requires lid !in t.ledger && pid !in t.payouts
    requires var f := FiguresFor(item.attendant).value;
      TurnTaken(WriteLedger(t, lid, KeyOf(item, day), f, runId), t', KeyOf(item, day), f, pid, wires(|items|), turn)
    ensures TurnsTaken(before, t', items + [item], day, turns + [turn], wires)
  {
    hide PayoutInvariants.RowsSound, PayoutsEvolve, TurnTaken, TurnHolds, WriteLedger, FiguresFor, Money.Stored;
    var f := FiguresFor(item.attendant).value;
    if PayoutInvariants.RowsSound(before) {
      TurnSound(t, t', lid, KeyOf(item, day), f, runId, pid, wires(|items|), turn);
      KeysOfSound(t');
      forall n | 0 <= n < |items + [item]|
        ensures TurnHolds(t', KeyOf((items + [item])[n], day), FiguresFor((items + [item])[n].attendant).value, wires(n),
                          (turns + [turn])[n])
      {
        if n < |items| {
          TurnHoldsOn(t, t', KeyOf(items[n], day), FiguresFor(items[n].attendant).value, wires(n), turns[n]);
        }
      }
    }
  }

  lemma KeysOfSound(t: PayoutTables)
    requires PayoutInvariants.RowsSound(t)
    ensures OneRowPerKey(t)
  {
  }

  /**
    * Once a run completed and all its requests arrived, no attendant with something to send is forgotten: the
    * key's row has a payout of its own figures, unless that row was SKIPPED when it was first written.
    */
  lemma NobodyForgotten(before: PayoutTables, after: PayoutTables, tenants: seq<TenantDay>, day: string, r: CloseResult,
                        turns: seq<Turn>, wires: nat -> Wire, n: nat)
    requires CloseDone(before, after, tenants, day, r) && r.status.Completed? && PayoutInvariants.RowsSound(before)
    requires TurnsTaken(before, after, Items(tenants)[..r.created + r.existing], day, turns, wires)
    requires forall k :: wires(k).arrives
    requires n < |Items(tenants)| && Writable(Items(tenants)[n])
    ensures var f := FiguresFor(Items(tenants)[n].attendant).value;
      f.payout > 0 && f.msisdn != NO_MSISDN ==>
        exists lid ::
          && IsRow(after, lid, KeyOf(Items(tenants)[n], day))
          && (after.ledger[lid].status == LedgerSkipped || after.ledger[lid].figures.payout % 100 != 0
              || PayoutSteps.PaidOut(after, lid))
  {
    hide FiguresFor, Money.Stored, Items, PayoutInvariants.RowsSound, PayoutSteps.PaidOut;
    var item := Items(tenants)[n];
    var f := FiguresFor(item.attendant).value;
    assert Items(tenants)[..r.created + r.existing][n] == item;
    assert TurnHolds(after, KeyOf(item, day), f, wires(n), turns[n]);
    if f.payout > 0 && f.msisdn != NO_MSISDN {
      var lid :| IsRow(after, lid, KeyOf(item, day));
      if turns[n] == PastTurn { MovedIsPaidOut(after, lid); }
    }
  }

  lemma MovedIsPaidOut(t: PayoutTables, lid: LedgerId)
    requires PayoutInvariants.RowsSound(t) && lid in t.ledger && t.ledger[lid].status != LedgerComputed
    ensures t.ledger[lid].status == LedgerSkipped || PayoutSteps.PaidOut(t, lid)
  {
    if Moved(t.ledger[lid]) {
      assert HasPayout(t, lid);
      var pid :| pid in t.payouts && t.payouts[pid].ledgerId == lid;
      PayoutSteps.PayoutFitsRow(t, pid);
    }
  }

  /** What a run leaves: the old ledger with the run's figures merged in behind it, and counters that add up. */
  ghost predicate CloseDone(before: PayoutTables, after: PayoutTables, tenants: seq<TenantDay>, day: string, r: CloseResult) {
    var items, done := Items(tenants), r.created + r.existing;
    && done <= |items| && AllWritable(items[..done])
    && Merged(before, Writes(items[..done], day), after)
    && |after.ledger| == |before.ledger| + r.created
    && r.requested + r.uncertain + r.skipped <= done
    && (r.status.Completed? ==> done == |items| == r.attendantsProcessed && r.tenantsProcessed == |tenants|)
    && (r.status.Failed? ==> done < |items| && !Writable(items[done]) && r.attendantsProcessed == done + 1)
  }

  // The attendants met before the j-th of tenant i.
  function Met(tenants: seq<TenantDay>, i: nat, j: nat): seq<Item>
    requires (i < |tenants| && j <= |tenants[i].attendants|) || (i == |tenants| && j == 0)
  {
    Items(tenants[..i]) + if i < |tenants| then ItemsOf(tenants[i])[..j] else []
  }

  ghost predicate Progress(db: PayoutDatabase, tenants: seq<TenantDay>, i: nat, j: nat, day: string,
                           before: PayoutTables, r: CloseResult, turns: seq<Turn>, wires: nat -> Wire)
    requires (i < |tenants| && j <= |tenants[i].attendants|) || (i == |tenants| && j == 0)
    reads db
  {
    var met := Met(tenants, i, j);
    && db.Valid() && r.status.Completed? && AllWritable(met)
    && Merged(before, Writes(met, day), db.Rows())
    && r.created + r.existing == |met| == r.attendantsProcessed
    && |db.ledger| == |before.ledger| + r.created
    && TurnsTaken(before, db.Rows(), met, day, turns, wires) && TurnsCounted(turns, r)
  }

  /** One turn of the inner loop; false when the attendant cannot be computed, which ends the run. */
  method MeetAttendant(db: PayoutDatabase, tenants: seq<TenantDay>, i: nat, j: nat, day: string, runId: RunId,
                       wires: nat -> Wire, soFar: CloseResult, ghost before: PayoutTables, ghost taken: seq<Turn>)
    returns (result: CloseResult, met: bool, ghost turns: seq<Turn>)
    requires i < |tenants| && j < |tenants[i].attendants| && Money.Stored(tenants[i].attendants[j].totals)
    requires Progress(db, tenants, i, j, day, before, soFar, taken, wires)
    modifies db
    ensures met ==> Progress(db, tenants, i, j + 1, day, before, result, turns, wires)
    ensures result.tenantsProcessed == soFar.tenantsProcessed
    ensures !met ==>
      && result.status.Failed? && db.Valid() && CloseDone(before, db.Rows(), tenants, day, result)
      && TurnsTaken(before, db.Rows(), Items(tenants)[..result.created + result.existing], day, turns, wires)
      && TurnsCounted(turns, result)
  {
    hide Merged, FiguresFor, KeyTaken, Items, StatusFor, TurnsTaken, TurnTaken, Times;
    TurnsAddUp(taken);
    SameLength(before, db.Rows(), Met(tenants, i, j), day, taken, wires);
    var attendant := tenants[i].attendants[j];
    ItemAt(tenants, i, j);
    result := soFar.(attendantsProcessed := soFar.attendantsProcessed + 1);
    var figures := FiguresFor(attendant);
    if figures.None? {
      return result.(status := Failed), false, taken;
    }
    OneMoreMet(tenants, i, j, day);
    var wire := wires(soFar.attendantsProcessed);
    label Turn:
    ghost var turn;
    result, turn := CloseAttendant(db, Key(tenants[i].tenantId, attendant.attendantId, day), figures.value, runId, wire,
      result, before, Writes(Met(tenants, i, j), day));
    OneMoreTurn(before, old@Turn(db.Rows()), db.Rows(), Met(tenants, i, j), Item(tenants[i].tenantId, attendant), day,
      taken, turn, wires, old@Turn(db.nextId), runId, old@Turn(db.nextId) + 1);
    OneMoreCounted(taken, turn, soFar, result);
    return result, true, taken + [turn];
  }

  lemma SameLength(before: PayoutTables, t: PayoutTables, items: seq<Item>, day: string, turns: seq<Turn>, wires: nat -> Wire)
    requires TurnsTaken(before, t, items, day, turns, wires)
    ensures |turns| == |items|
  {
  }

  /**
    * runClose; None is an invalid day, and a snapshot of None is a read of POS that failed. A run stops at
    * the first attendant it cannot compute and keeps what it wrote.
    */
  method RunClose(db: PayoutDatabase, day: string, snapshot: Option<seq<TenantDay>>, runId: RunId, wires: nat -> Wire)
    returns (outcome: Option<CloseResult>, ghost turns: seq<Turn>)
    requires db.Valid() && (snapshot.Some? ==> StoredSnapshot(snapshot.value))
    modifies db
    ensures db.Valid()
    ensures outcome.None? <==> !BusinessDay.IsBusinessDay(day)
    ensures outcome.None? || snapshot.None? ==> db.Rows() == old(db.Rows())
    ensures outcome.Some? && snapshot.None? ==> outcome.value.status.Failed?
    ensures outcome.Some? && snapshot.Some? ==>
      && CloseDone(old(db.Rows()), db.Rows(), snapshot.value, day, outcome.value)
      && TurnsTaken(old(db.Rows()), db.Rows(), Items(snapshot.value)[..outcome.value.created + outcome.value.existing], day,
           turns, wires)
      && TurnsCounted(turns, outcome.value)
  {
    hide Merged, FiguresFor, KeyTaken, Items, StatusFor, Writes, AllWritable, Writable, BusinessDay.IsBusinessDay, TurnsTaken, Times,
      Progress, TurnsCounted;
    turns := [];
    if !BusinessDay.IsBusinessDay(day) { return None, turns; }
    if snapshot.None? { return Some(NothingYet.(status := Failed)), turns; }
    var tenants := snapshot.value;
    var result := NothingYet;
    ghost var before := db.Rows();
    RunBegins(db, tenants, day, wires);
    for i := 0 to |tenants|
      invariant Progress(db, tenants, i, 0, day, before, result, turns, wires)
      invariant result.tenantsProcessed == i
    {
      ghost var soFar := result;
      result := result.(tenantsProcessed := i + 1);
      TenantBegins(db, tenants, i, day, before, soFar, result, turns, wires);
      for j := 0 to |tenants[i].attendants|
        invariant Progress(db, tenants, i, j, day, before, result, turns, wires)
        invariant result.tenantsProcessed == i + 1
      {
        var met;
        result, met, turns := MeetAttendant(db, tenants, i, j, day, runId, wires, result, before, turns);
        if !met { return Some(result), turns; }
      }
      TenantEnds(db, tenants, i, day, before, result, turns, wires);
    }
    RunEnds(db, tenants, day, before, result, turns, wires);
    return Some(result), turns;
  }

  lemma RunBegins(db: PayoutDatabase, tenants: seq<TenantDay>, day: string, wires: nat -> Wire)
    requires db.Valid()
    ensures Progress(db, tenants, 0, 0, day, db.Rows(), NothingYet, [], wires)
  {
    hide Merged, Items, Writes, AllWritable, TurnsTaken;
    Beginning(tenants, day, db.Rows());
    NoTurns(db.Rows(), day, wires);
  }

  lemma TenantBegins(db: PayoutDatabase, tenants: seq<TenantDay>, i: nat, day: string, before: PayoutTables,
                     r: CloseResult, r': CloseResult, turns: seq<Turn>, wires: nat -> Wire)
    requires i < |tenants| && Progress(db, tenants, i, 0, day, before, r, turns, wires)
    requires r' == r.(tenantsProcessed := r'.tenantsProcessed)
    ensures Progress(db, tenants, i, 0, day, before, r', turns, wires)
  {
    hide Merged, Items, Writes, AllWritable, TurnsTaken, Times;
  }

  lemma TenantEnds(db: PayoutDatabase, tenants: seq<TenantDay>, i: nat, day: string, before: PayoutTables,
                   r: CloseResult, turns: seq<Turn>, wires: nat -> Wire)
    requires i < |tenants| && Progress(db, tenants, i, |tenants[i].attendants|, day, before, r, turns, wires)
    ensures Progress(db, tenants, i + 1, 0, day, before, r, turns, wires)
  {
    hide Merged, Items, Writes, AllWritable, TurnsTaken, Times;
    NextTenant(tenants, i);
  }

  lemma RunEnds(db: PayoutDatabase, tenants: seq<TenantDay>, day: string, before: PayoutTables,
                r: CloseResult, turns: seq<Turn>, wires: nat -> Wire)
    requires Progress(db, tenants, |tenants|, 0, day, before, r, turns, wires) && r.tenantsProcessed == |tenants|
    ensures db.Valid() && CloseDone(before, db.Rows(), tenants, day, r) && TurnsCounted(turns, r)
    ensures TurnsTaken(before, db.Rows(), Items(tenants)[..r.created + r.existing], day, turns, wires)
  {
    hide Merged, Items, Writes, AllWritable, TurnsTaken, Times;
    AllMet(tenants);
    TurnsAddUp(turns);
    SameLength(before, db.Rows(), Items(tenants), day, turns, wires);
  }

  lemma Beginning(tenants: seq<TenantDay>, day: string, t: PayoutTables)
    ensures Met(tenants, 0, 0) == [] && AllWritable([]) && Merged(t, Writes([], day), t)
  {
    if tenants != [] { NextTenant(tenants, 0); }
    MergedNothing(t);
  }

  lemma NoTurns(t: PayoutTables, day: string, wires: nat -> Wire)
    ensures TurnsTaken(t, t, [], day, [], wires) && TurnsCounted([], NothingYet)
  {
  }

  lemma {:induction false} ItemAt(tenants: seq<TenantDay>, i: nat, j: nat)
    requires i < |tenants| && j < |tenants[i].attendants|
    ensures var n := |Met(tenants, i, j)|;
      n < |Items(tenants)| && Items(tenants)[..n] == Met(tenants, i, j)
      && Items(tenants)[n] == Item(tenants[i].tenantId, tenants[i].attendants[j])
    decreases |tenants|
  {
    var last := |tenants| - 1;
    if i < last {
      ItemAt(tenants[..last], i, j);
      assert tenants[..last][..i] == tenants[..i];
    }
  }

  lemma OneMoreMet(tenants: seq<TenantDay>, i: nat, j: nat, day: string)
    requires i < |tenants| && j < |tenants[i].attendants| && AllWritable(Met(tenants, i, j))
    requires Writable(Item(tenants[i].tenantId, tenants[i].attendants[j]))
    ensures Met(tenants, i, j + 1) == Met(tenants, i, j) + [Item(tenants[i].tenantId, tenants[i].attendants[j])]
    ensures AllWritable(Met(tenants, i, j + 1))
    ensures Writes(Met(tenants, i, j + 1), day) == Writes(Met(tenants, i, j), day)
      + [LedgerWrite(Key(tenants[i].tenantId, tenants[i].attendants[j].attendantId, day),
           FiguresFor(tenants[i].attendants[j]).value)]
  {
    assert Met(tenants, i, j + 1) == Met(tenants, i, j) + [Item(tenants[i].tenantId, tenants[i].attendants[j])];
  }

  lemma NextTenant(tenants: seq<TenantDay>, i: nat)
    requires i < |tenants|
    ensures Met(tenants, i + 1, 0) == Met(tenants, i, |tenants[i].attendants|)
    ensures Met(tenants, 0, 0) == []
  {
    assert tenants[..i + 1][..i] == tenants[..i];
    assert ItemsOf(tenants[i])[..|tenants[i].attendants|] == ItemsOf(tenants[i]);
  }

  lemma AllMet(tenants: seq<TenantDay>)
    ensures Met(tenants, |tenants|, 0) == Items(tenants)
    ensures Items(tenants)[..|Items(tenants)|] == Items(tenants)
  {
    assert tenants[..|tenants|] == tenants;
  }
}
