/**
  * What every write to the charge tables keeps (Sound), and how a row may change between any two
  * moments (Evolves): the facts never, a reference once, a terminal state never again.
  */
module ChargeInvariants {
  import opened Common
  import opened Charges

  ghost predicate Faithful(t: Tables) {
    forall id :: id in t.charges ==> id in t.born && t.charges[id].facts == t.born[id]
  }

  ghost predicate UniqueKeys(rows: map<ChargeId, Charge>) {
    && (forall i, j :: i in rows && j in rows && i != j ==>
          rows[i].facts.saleId != rows[j].facts.saleId)
    && (forall i, j :: i in rows && j in rows && i != j && rows[i].reference.Some? ==>
          rows[i].reference != rows[j].reference)
  }

  ghost predicate WellShaped(c: Charge) {
    && (c.hold.Some? ==> c.reference.Some?)
    && (c.status.Pending? ==> c.resolvedBy.None?)
    && (c.resolvedBy.Some? ==> c.reference.Some? && c.resultCode.Some?)
    && (c.status.Paid? ==> c.resolvedBy.Some? && c.resultCode == Some(SUCCESS) && c.paidAt.Some?)
    && (c.status.Failed? && c.resolvedBy.Some? ==> c.resultCode != Some(SUCCESS))
  }

  ghost predicate Shapes(rows: map<ChargeId, Charge>) {
    forall id :: id in rows ==> WellShaped(rows[id])
  }

  // The sale.paid event a PAID charge owes, in its own words.
  ghost function EventOwed(id: ChargeId, c: Charge): SalePaid {
    SalePaid(id, c.facts.saleId, c.facts.tenantId, c.facts.amount, GetOr(c.paidAt, 0))
  }

  ghost predicate OneEffect(t: Tables) {
    && (forall id :: id in t.outbox ==> id in t.charges && t.charges[id].status.Paid?)
    && (forall id :: id in t.charges && t.charges[id].status.Paid? ==>
          id in t.outbox && t.outbox[id].event == EventOwed(id, t.charges[id]))
  }

  ghost predicate Sound(t: Tables) {
    Faithful(t) && UniqueKeys(t.charges) && Shapes(t.charges) && OneEffect(t)
  }

  // ---------------------------------------------------------------- evolution

  ghost predicate RowEvolves(c: Charge, d: Charge) {
    && c.facts == d.facts
    && (c.reference.Some? ==> d.reference == c.reference)
    && (!c.status.Pending? ==>
          d.status == c.status && d.resolvedBy == c.resolvedBy && d.resultCode == c.resultCode && d.paidAt == c.paidAt)
  }

  ghost predicate Evolves(a: Tables, b: Tables) {
    && (forall id :: id in a.born ==> id in b.born && b.born[id] == a.born[id])
    && (forall id :: id in b.charges && id in a.born ==> id in a.charges && RowEvolves(a.charges[id], b.charges[id]))
    && (forall id :: id in a.charges && id !in b.charges ==>
          a.charges[id].status.Pending? && a.charges[id].reference.None?)
    && (forall k :: k in a.events ==> k in b.events && (a.events[k].applied ==> b.events[k].applied))
    && (forall id :: id in a.outbox ==>
          id in b.outbox && b.outbox[id].event == a.outbox[id].event
          && (a.outbox[id].published ==> b.outbox[id].published))
  }

  lemma EvolvesTransitive(a: Tables, b: Tables, c: Tables)
    requires Faithful(a) && Faithful(b) && Evolves(a, b) && Evolves(b, c)
    ensures Evolves(a, c)
  {
    forall id | id in a.charges && id !in c.charges
      ensures a.charges[id].status.Pending? && a.charges[id].reference.None?
    {
      if id in b.charges { assert RowEvolves(a.charges[id], b.charges[id]); }
    }
    forall id | id in c.charges && id in a.born
      ensures id in a.charges && RowEvolves(a.charges[id], c.charges[id])
    {
      assert id in b.born;
      assert RowEvolves(b.charges[id], c.charges[id]);
      assert RowEvolves(a.charges[id], b.charges[id]);
    }
  }

  /** A row read earlier agrees with the row at commit on every column no UPDATE writes. */
  lemma StaleRowAgrees(seen: Tables, t: Tables, id: ChargeId)
    requires Faithful(seen) && Faithful(t) && Evolves(seen, t) && id in seen.charges && id in t.charges
    ensures RowEvolves(seen.charges[id], t.charges[id])
  {
    assert id in seen.born;
  }

  // ---------------------------------------------------------------- one write at a time

  lemma UpdateKeepsKeys(t: Tables, id: ChargeId, c: Charge)
    requires UniqueKeys(t.charges) && id in t.charges && t.charges[id].facts == c.facts
    requires c.reference == t.charges[id].reference
      || forall j :: j in t.charges && j != id && c.reference.Some? ==> t.charges[j].reference != c.reference
    ensures UniqueKeys(Update(t, id, c).charges)
  {
    var t' := Update(t, id, c);
    forall i, j | i in t'.charges && j in t'.charges && i != j
      ensures t'.charges[i].facts.saleId != t'.charges[j].facts.saleId
      ensures t'.charges[i].reference.Some? ==> t'.charges[i].reference != t'.charges[j].reference
    {
      assert t.charges[i].facts.saleId != t.charges[j].facts.saleId;
    }
  }

  /** Replacing one row keeps everything when the row evolves, keeps its shape and its reference stays unique. */
  lemma UpdateKeeps(t: Tables, id: ChargeId, c: Charge)
    requires Sound(t) && id in t.charges && RowEvolves(t.charges[id], c) && WellShaped(c)
    requires c.status.Paid? ==> t.charges[id].status.Paid?
    requires c.reference == t.charges[id].reference
      || forall j :: j in t.charges && j != id && c.reference.Some? ==> t.charges[j].reference != c.reference
    ensures Sound(Update(t, id, c)) && Evolves(t, Update(t, id, c))
  {
    UpdateKeepsKeys(t, id, c);
    UpdateEvolves(t, id, c);
    UpdateKeepsEffect(t, id, c);
    hide UniqueKeys, Evolves, OneEffect;
  }

  lemma UpdateKeepsEffect(t: Tables, id: ChargeId, c: Charge)
    requires OneEffect(t) && id in t.charges && RowEvolves(t.charges[id], c) && (c.status.Paid? ==> t.charges[id].status.Paid?)
    ensures OneEffect(Update(t, id, c))
  {
  }

  lemma UpdateEvolves(t: Tables, id: ChargeId, c: Charge)
    requires Faithful(t) && id in t.charges && RowEvolves(t.charges[id], c)
    ensures Evolves(t, Update(t, id, c))
  {
  }

  lemma InsertKeeps(t: Tables, id: ChargeId, facts: Facts)
    requires Sound(t) && id !in t.born && InsertCharge(t, id, facts).Committed?
    ensures Sound(InsertCharge(t, id, facts).tables) && Evolves(t, InsertCharge(t, id, facts).tables)
  {
    assert id !in t.charges && !SaleTaken(t, facts.saleId);
    InsertKeepsKeys(t, id, facts);
    InsertEvolves(t, id, facts);
    InsertKeepsRows(t, id, facts);
    hide UniqueKeys, Evolves, Faithful, Shapes, OneEffect;
  }

  lemma InsertKeepsRows(t: Tables, id: ChargeId, facts: Facts)
    requires Faithful(t) && Shapes(t.charges) && OneEffect(t) && id !in t.born
    requires InsertCharge(t, id, facts).Committed?
    ensures var t' := InsertCharge(t, id, facts).tables; Faithful(t') && Shapes(t'.charges) && OneEffect(t')
  {
  }

  lemma InsertKeepsKeys(t: Tables, id: ChargeId, facts: Facts)
    requires UniqueKeys(t.charges) && id !in t.charges && !SaleTaken(t, facts.saleId)
    ensures UniqueKeys(t.charges[id := NewCharge(facts)])
  {
  }

  lemma InsertEvolves(t: Tables, id: ChargeId, facts: Facts)
    requires Faithful(t) && id !in t.born && InsertCharge(t, id, facts).Committed?
    ensures Evolves(t, InsertCharge(t, id, facts).tables)
  {
  }

  lemma ClaimKeeps(t: Tables, id: ChargeId, r: Reference)
    requires Sound(t) && ClaimReference(t, id, r).Committed?
    ensures var t' := ClaimReference(t, id, r).tables;
      Sound(t') && Evolves(t, t') && (ClaimReference(t, id, r).value ==>
        id in t'.charges && t'.charges[id] == t.charges[id].(reference := Some(r)))
  {
    if ClaimReference(t, id, r).value {
      assert !ReferenceTaken(t, r);
      UpdateKeeps(t, id, t.charges[id].(reference := Some(r)));
    }
  }

  lemma PurgeKeeps(t: Tables, cutoff: Instant, tenants: Option<set<TenantId>>)
    requires Sound(t)
    ensures Sound(Purge(t, cutoff, tenants)) && Evolves(t, Purge(t, cutoff, tenants))
  {
    PurgeEvolves(t, cutoff, tenants);
    hide Evolves, Abandoned;
    PurgeKeepsEffect(t, cutoff, tenants);
    hide OneEffect;
  }

  lemma PurgeKeepsEffect(t: Tables, cutoff: Instant, tenants: Option<set<TenantId>>)
    requires OneEffect(t)
    ensures OneEffect(Purge(t, cutoff, tenants))
  {
  }

  lemma PurgeEvolves(t: Tables, cutoff: Instant, tenants: Option<set<TenantId>>)
    requires Faithful(t)
    ensures Evolves(t, Purge(t, cutoff, tenants))
  {
  }

  lemma OutboxMarkKeeps(t: Tables, id: ChargeId, t': Tables)
    requires Sound(t) && (t' == MarkPublished(t, id) || t' == MarkAttempt(t, id))
    ensures Sound(t') && Evolves(t, t')
  {
    OutboxMarkEvolves(t, id, t');
  }

  lemma OutboxMarkEvolves(t: Tables, id: ChargeId, t': Tables)
    requires Faithful(t) && (t' == MarkPublished(t, id) || t' == MarkAttempt(t, id))
    ensures Evolves(t, t')
  {
  }

  // What Resolve may be asked: the row read agrees with the row at commit, which has its reference.
  ghost predicate Resolvable(t: Tables, id: ChargeId, row: Charge, r: Resolution) {
    && (id in t.charges ==> row.facts == t.charges[id].facts && t.charges[id].reference.Some?)
    && (r.paid <==> r.code == SUCCESS)
  }

  /**
    * The guarded transition never trips UNIQUE(event_type, aggregate_id), applies exactly when the
    * row is PENDING and unheld at commit and was unheld when read, and touches no other row.
    */
  lemma ResolveOutcome(t: Tables, id: ChargeId, row: Charge, r: Resolution, now: Instant)
    requires Sound(t) && Resolvable(t, id, row, r)
    ensures var tx := Resolve(t, id, row, r, now);
      && tx.Committed?
      && (tx.value <==> row.hold.None? && Open(t, id))
      && (!tx.value ==> tx.tables == t)
      && (tx.value ==> RowEvolves(t.charges[id], tx.tables.charges[id]) && WellShaped(tx.tables.charges[id]))
      && (tx.value ==> tx.tables.charges == t.charges[id := t.charges[id].(
            status := if r.paid then Paid else Failed, resolvedBy := Some(r.source), resultCode := Some(r.code),
            paidAt := if r.paid then Some(GetOr(r.paidAt, now)) else t.charges[id].paidAt)])
      && tx.tables.events == t.events && tx.tables.born == t.born
  {
    if Open(t, id) { assert id !in t.outbox && WellShaped(t.charges[id]); }
  }

  lemma ResolveKeeps(t: Tables, id: ChargeId, row: Charge, r: Resolution, now: Instant)
    requires Sound(t) && Resolvable(t, id, row, r)
    ensures var tx := Resolve(t, id, row, r, now); tx.Committed? && Sound(tx.tables) && Evolves(t, tx.tables)
  {
    ResolveOutcome(t, id, row, r, now);
    ResolveKeepsEffect(t, id, row, r, now);
    var tx := Resolve(t, id, row, r, now);
    if tx.value {
      UpdateKeepsKeys(t, id, tx.tables.charges[id]);
      UpdateEvolves(t, id, tx.tables.charges[id]);
      OutboxGrows(t, tx.tables, id);
    }
  }

  lemma ResolveKeepsEffect(t: Tables, id: ChargeId, row: Charge, r: Resolution, now: Instant)
    requires OneEffect(t) && Resolvable(t, id, row, r)
    ensures Resolve(t, id, row, r, now).Committed? && OneEffect(Resolve(t, id, row, r, now).tables)
  {
  }

  lemma OutboxGrows(t: Tables, t': Tables, id: ChargeId)
    requires id in t.charges && id in t'.charges && Evolves(t, Update(t, id, t'.charges[id])) && id !in t.outbox
    requires t'.born == t.born && t'.events == t.events && t'.charges == t.charges[id := t'.charges[id]]
    requires t'.outbox == t.outbox || (id in t'.outbox && t'.outbox == t.outbox[id := t'.outbox[id]])
    ensures Evolves(t, t')
  {
  }
}
