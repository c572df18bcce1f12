/** The request hash of createSale: two calls hash alike exactly when they ask for the same sale. */
module RequestHash {
  import opened Json
  import opened Sales

  // Ids are UUID strings, one per id.
  type IdText = nat -> string

  ghost predicate Distinct(text: IdText) {
    forall a, b :: text(a) == text(b) ==> a == b
  }

  function ItemJson(i: ItemInput, text: IdText): Json {
    Obj([Field("productId", Str(text(i.productId))), Field("quantity", Num(i.quantity as real))])
  }

  function RequestJson(r: Request, text: IdText): Json {
    Obj([
      Field("tenantId", Str(text(r.tenantId))),
      Field("attendantId", Str(text(r.attendantId))),
      Field("items", Arr(seq(|r.items|, i requires 0 <= i < |r.items| => ItemJson(r.items[i], text))))])
  }

  lemma ItemsAreWellFormed(i: ItemInput, text: IdText)
    ensures WellFormed(ItemJson(i, text))
  {
  }

  lemma RequestIsWellFormed(r: Request, text: IdText)
    ensures WellFormed(RequestJson(r, text))
  {
    forall i | 0 <= i < |r.items| ensures WellFormed(ItemJson(r.items[i], text)) { ItemsAreWellFormed(r.items[i], text); }
    var fields := RequestJson(r, text).fields;
    assert WellFormed(fields[2].value);
  }

  lemma SameItem(a: ItemInput, b: ItemInput, text: IdText)
    requires Distinct(text) && SameUpToKeyOrder(ItemJson(a, text), ItemJson(b, text))
    ensures a == b
  {
    var fs, gs := ItemJson(a, text).fields, ItemJson(b, text).fields;
    assert HasTwin(fs[0], gs) && HasTwin(fs[1], gs);
    TwinUnderKey(fs[0], gs, 0);
    TwinUnderKey(fs[1], gs, 1);
  }

  lemma SameRequest(a: Request, b: Request, text: IdText)
    requires Distinct(text) && SameUpToKeyOrder(RequestJson(a, text), RequestJson(b, text))
    ensures a == b
  {
    var fs, gs := RequestJson(a, text).fields, RequestJson(b, text).fields;
    assert HasTwin(fs[0], gs) && HasTwin(fs[1], gs) && HasTwin(fs[2], gs);
    TwinUnderKey(fs[0], gs, 0);
    TwinUnderKey(fs[1], gs, 1);
    TwinUnderKey(fs[2], gs, 2);
    forall i | 0 <= i < |a.items| ensures i < |b.items| && a.items[i] == b.items[i] {
      assert SameUpToKeyOrder(fs[2].value.items[i], gs[2].value.items[i]);
      SameItem(a.items[i], b.items[i], text);
    }
    assert a.items == b.items;
  }

  /** So comparing hashes is comparing requests, short of a collision of the hash. */
  lemma HashDecidesRequest(a: Request, b: Request, text: IdText, le: Order, hash: Json -> nat)
    requires Distinct(text) && TotalOrder(le)
    ensures hash(Normalize(RequestJson(a, text), le)) == hash(Normalize(RequestJson(b, text), le))
      <==> a == b || Collide(hash, Normalize(RequestJson(a, text), le), Normalize(RequestJson(b, text), le))
  {
    RequestIsWellFormed(a, text);
    RequestIsWellFormed(b, text);
    ChecksumIgnoresKeyOrderOnly(RequestJson(a, text), RequestJson(b, text), le, hash);
    if a != b && SameUpToKeyOrder(RequestJson(a, text), RequestJson(b, text)) { SameRequest(a, b, text); }
  }
}
