/**
  * The canonical form behind the callback checksum and the request hash: keys sorted at every depth,
  * arrays left alone. Two values share a form exactly when they differ by object key order only.
  */
module Json {
  import opened Common

  datatype Json =
    | Null
    | Bool(b: bool)
    | Num(n: real)
    | Str(s: string)
    | Arr(items: seq<Json>)
    | Obj(fields: seq<Field>)

  datatype Field = Field(key: string, value: Json)

  // localeCompare, as "not after".
  type Order = (string, string) -> bool

  ghost predicate TotalOrder(le: Order) {
    && (forall a :: le(a, a))
    && (forall a, b :: le(a, b) || le(b, a))
    && (forall a, b :: le(a, b) && le(b, a) ==> a == b)
    && (forall a, b, c :: le(a, b) && le(b, c) ==> le(a, c))
  }

  predicate DistinctKeys(fields: seq<Field>) {
    forall i, j :: 0 <= i < j < |fields| ==> fields[i].key != fields[j].key
  }

  // Objects, once parsed, have each key once.
  predicate WellFormed(v: Json) {
    match v
    case Arr(items) => forall i :: 0 <= i < |items| ==> WellFormed(items[i])
    case Obj(fields) => DistinctKeys(fields) && forall i :: 0 <= i < |fields| ==> WellFormed(fields[i].value)
    case _ => true
  }

  // ---------------------------------------------------------------- sorting the entries of an object

  function Insert(f: Field, sorted: seq<Field>, le: Order): seq<Field> {
    if sorted == [] || le(f.key, sorted[0].key) then [f] + sorted
    else [sorted[0]] + Insert(f, sorted[1..], le)
  }

  function Sort(fields: seq<Field>, le: Order): seq<Field> {
    if fields == [] then [] else Insert(fields[0], Sort(fields[1..], le), le)
  }

  predicate Ascending(fields: seq<Field>, le: Order) {
    forall i, j :: 0 <= i < j < |fields| ==> le(fields[i].key, fields[j].key)
  }

  lemma {:induction false} InsertSame(f: Field, sorted: seq<Field>, le: Order)
    ensures multiset(Insert(f, sorted, le)) == multiset([f] + sorted) && |Insert(f, sorted, le)| == |sorted| + 1
  {
    if sorted != [] && !le(f.key, sorted[0].key) {
      InsertSame(f, sorted[1..], le);
      assert sorted == [sorted[0]] + sorted[1..];
    }
  }

  lemma {:induction false} InsertAscends(f: Field, sorted: seq<Field>, le: Order)
    requires TotalOrder(le) && Ascending(sorted, le)
    ensures Ascending(Insert(f, sorted, le), le)
  {
    if sorted != [] && !le(f.key, sorted[0].key) {
      InsertAscends(f, sorted[1..], le);
      InsertSame(f, sorted[1..], le);
      var rest := Insert(f, sorted[1..], le);
      forall j | 0 <= j < |rest| ensures le(sorted[0].key, rest[j].key) {
        assert rest[j] in multiset(rest);
        assert rest[j] == f || rest[j] in sorted[1..];
      }
    }
  }

  lemma {:induction false} SortSame(fields: seq<Field>, le: Order)
    ensures multiset(Sort(fields, le)) == multiset(fields) && |Sort(fields, le)| == |fields|
    ensures forall f :: f in Sort(fields, le) <==> f in fields
  {
    if fields != [] {
      SortSame(fields[1..], le);
      InsertSame(fields[0], Sort(fields[1..], le), le);
      assert fields == [fields[0]] + fields[1..];
    }
    assert forall f :: f in Sort(fields, le) <==> f in multiset(Sort(fields, le));
  }

  lemma {:induction false} SortAscends(fields: seq<Field>, le: Order)
    requires TotalOrder(le)
    ensures Ascending(Sort(fields, le), le)
  {
    if fields != [] {
      SortAscends(fields[1..], le);
      InsertAscends(fields[0], Sort(fields[1..], le), le);
    }
  }

  // ---------------------------------------------------------------- an ascending form is unique

  lemma {:induction false} DistinctMultiset(fields: seq<Field>, f: Field)
    requires DistinctKeys(fields)
    ensures multiset(fields)[f] <= 1
  {
    if fields != [] {
      DistinctMultiset(fields[1..], f);
      assert fields == [fields[0]] + fields[1..];
      assert fields[0] == f ==> f !in fields[1..];
    }
  }

  lemma DistinctAnyOrder(fields: seq<Field>, other: seq<Field>)
    requires DistinctKeys(fields) && multiset(other) == multiset(fields)
    ensures DistinctKeys(other)
  {
    forall i, j | 0 <= i < j < |other| ensures other[i].key != other[j].key {
      if other[i].key == other[j].key {
        SameKeySameField(fields, other, i, j);
        DistinctMultiset(fields, other[i]);
        TwiceCounted(other, i, j);
      }
    }
  }

  lemma SameKeySameField(fields: seq<Field>, other: seq<Field>, i: nat, j: nat)
    requires DistinctKeys(fields) && multiset(other) == multiset(fields) && i < j < |other| && other[i].key == other[j].key
    ensures other[i] == other[j]
  {
    assert other[i] in multiset(fields) && other[j] in multiset(fields);
    var x :| 0 <= x < |fields| && fields[x] == other[i];
    var y :| 0 <= y < |fields| && fields[y] == other[j];
    assert x == y;
  }

  lemma TwiceCounted(s: seq<Field>, i: nat, j: nat)
    requires i < j < |s| && s[i] == s[j]
    ensures multiset(s)[s[i]] >= 2
  {
    assert s == s[..i] + [s[i]] + s[i + 1..j] + [s[j]] + s[j + 1..];
  }

  /** Two ascending sequences of distinct keys with the same fields are the same sequence. */
  lemma {:induction false} AscendingUnique(s: seq<Field>, t: seq<Field>, le: Order)
    requires TotalOrder(le) && Ascending(s, le) && Ascending(t, le) && DistinctKeys(s) && DistinctKeys(t)
    requires forall f :: f in s <==> f in t
    ensures s == t
  {
    if s == [] {
      assert forall i :: 0 <= i < |t| ==> t[i] in s;
    } else {
      assert s[0] in t;
      FirstIsSame(s, t, le);
      RestIsSame(s, t);
      AscendingUnique(s[1..], t[1..], le);
      assert s == [s[0]] + s[1..] && t == [t[0]] + t[1..];
    }
  }

  lemma FirstIsSame(s: seq<Field>, t: seq<Field>, le: Order)
    requires TotalOrder(le) && Ascending(s, le) && Ascending(t, le) && DistinctKeys(s)
    requires s != [] && t != [] && forall f :: f in s <==> f in t
    ensures s[0] == t[0]
  {
    assert t[0] in s && s[0] in t;
    var i :| 0 <= i < |s| && s[i] == t[0];
    var j :| 0 <= j < |t| && t[j] == s[0];
    assert le(s[0].key, t[0].key) && le(t[0].key, s[0].key);
    assert s[i].key == s[0].key;
  }

  lemma RestIsSame(s: seq<Field>, t: seq<Field>)
    requires DistinctKeys(s) && DistinctKeys(t) && s != [] && t != [] && s[0] == t[0]
    requires forall f :: f in s <==> f in t
    ensures forall f :: f in s[1..] <==> f in t[1..]
  {
    forall f ensures f in s[1..] <==> f in t[1..] {
      assert f in s[1..] <==> f in s && f != s[0];
      assert f in t[1..] <==> f in t && f != t[0];
    }
  }

  // ---------------------------------------------------------------- normalize

  function Normalize(v: Json, le: Order): Json {
    match v
    case Arr(items) => Arr(seq(|items|, i requires 0 <= i < |items| => Normalize(items[i], le)))
    case Obj(fields) =>
      Obj(Sort(seq(|fields|, i requires 0 <= i < |fields| => Field(fields[i].key, Normalize(fields[i].value, le))), le))
    case _ => v
  }

  // The normalized entries of an object, not yet sorted.
  function Entries(fields: seq<Field>, le: Order): (r: seq<Field>)
    ensures |r| == |fields|
    ensures forall i :: 0 <= i < |r| ==> r[i] == Field(fields[i].key, Normalize(fields[i].value, le))
  {
    seq(|fields|, i requires 0 <= i < |fields| => Field(fields[i].key, Normalize(fields[i].value, le)))
  }

  lemma NormalizeObj(fields: seq<Field>, le: Order)
    ensures Normalize(Obj(fields), le) == Obj(Sort(Entries(fields, le), le))
  {
    assert Entries(fields, le)
      == seq(|fields|, i requires 0 <= i < |fields| => Field(fields[i].key, Normalize(fields[i].value, le)));
  }

  /** Values that differ by object key order, at any depth, and by nothing else. */
  ghost predicate SameUpToKeyOrder(a: Json, b: Json) {
    match (a, b)
    case (Arr(xs), Arr(ys)) => |xs| == |ys| && forall i :: 0 <= i < |xs| ==> SameUpToKeyOrder(xs[i], ys[i])
    case (Obj(fs), Obj(gs)) =>
      |fs| == |gs| && forall i :: 0 <= i < |fs| ==> HasTwin(fs[i], gs)
    case _ => a == b
  }

  // A field of the same key and, up to key order, the same value.
  ghost predicate HasTwin(f: Field, gs: seq<Field>) {
    exists j :: 0 <= j < |gs| && gs[j].key == f.key && SameUpToKeyOrder(f.value, gs[j].value)
  }

  lemma TwinUnderKey(f: Field, gs: seq<Field>, j: nat)
    requires DistinctKeys(gs) && HasTwin(f, gs) && j < |gs| && gs[j].key == f.key
    ensures SameUpToKeyOrder(f.value, gs[j].value)
  {
  }

  /** Equal forms come only from values that differ by key order. */
  lemma {:induction false} EqualFormsMeanSame(a: Json, b: Json, le: Order)
    requires Normalize(a, le) == Normalize(b, le)
    ensures SameUpToKeyOrder(a, b)
    decreases a
  {
    hide Sort;
    match (a, b)
    case (Arr(xs), Arr(ys)) =>
      assert |Normalize(a, le).items| == |xs| && |Normalize(b, le).items| == |ys|;
      forall i | 0 <= i < |xs| ensures SameUpToKeyOrder(xs[i], ys[i]) {
        assert Normalize(a, le).items[i] == Normalize(b, le).items[i];
        EqualFormsMeanSame(xs[i], ys[i], le);
      }
    case (Obj(fs), Obj(gs)) =>
      EqualObjects(fs, gs, le);
      forall i | 0 <= i < |fs| ensures HasTwin(fs[i], gs) {
        var j :| 0 <= j < |gs| && gs[j].key == fs[i].key && Normalize(gs[j].value, le) == Normalize(fs[i].value, le);
        EqualFormsMeanSame(fs[i].value, gs[j].value, le);
        assert gs[j].key == fs[i].key && SameUpToKeyOrder(fs[i].value, gs[j].value);
      }
    case _ =>
  }

  lemma EqualObjects(fs: seq<Field>, gs: seq<Field>, le: Order)
    requires Normalize(Obj(fs), le) == Normalize(Obj(gs), le)
    ensures |fs| == |gs|
    ensures forall i :: 0 <= i < |fs| ==>
      exists j :: 0 <= j < |gs| && gs[j].key == fs[i].key && Normalize(gs[j].value, le) == Normalize(fs[i].value, le)
  {
    NormalizeObj(fs, le);
    NormalizeObj(gs, le);
    SortSame(Entries(fs, le), le);
    SortSame(Entries(gs, le), le);
    forall i | 0 <= i < |fs|
      ensures exists j :: 0 <= j < |gs| && gs[j].key == fs[i].key && Normalize(gs[j].value, le) == Normalize(fs[i].value, le)
    {
      assert Entries(fs, le)[i] in Entries(gs, le);
      var j :| 0 <= j < |gs| && Entries(gs, le)[j] == Entries(fs, le)[i];
    }
  }

  lemma EntriesDistinct(fields: seq<Field>, le: Order)
    requires DistinctKeys(fields)
    ensures DistinctKeys(Sort(Entries(fields, le), le)) && DistinctKeys(Entries(fields, le))
  {
    SortSame(Entries(fields, le), le);
    DistinctAnyOrder(Entries(fields, le), Sort(Entries(fields, le), le));
  }

  /** As many distinct entries, each among the others: the same entries. */
  lemma SameEntries(s: seq<Field>, t: seq<Field>)
    requires DistinctKeys(s) && DistinctKeys(t) && |s| == |t| && forall f :: f in s ==> f in t
    ensures forall f :: f in t ==> f in s
  {
    DistinctSize(s);
    DistinctSize(t);
    var fs, ft := (set f | f in s), (set f | f in t);
    assert fs <= ft;
    SubsetOfSameSize(fs, ft);
    forall f | f in t ensures f in s { assert f in ft; }
  }

  lemma SubsetOfSameSize(s: set<Field>, t: set<Field>)
    requires s <= t && |s| == |t|
    ensures s == t
  {
    if f :| f in t && f !in s {
      assert s <= t - {f};
      SubsetSize(s, t - {f});
      assert false;
    }
  }

  lemma {:induction false} DistinctSize(s: seq<Field>)
    requires DistinctKeys(s)
    ensures |set f | f in s| == |s|
  {
    if s != [] {
      DistinctSize(s[1..]);
      assert s == [s[0]] + s[1..];
      assert (set f | f in s) == (set f | f in s[1..]) + {s[0]};
      assert s[0] !in s[1..];
    }
  }

  /** Values that differ by key order have equal forms. */
  lemma {:induction false} SameMeansEqualForms(a: Json, b: Json, le: Order)
    requires TotalOrder(le) && WellFormed(a) && WellFormed(b) && SameUpToKeyOrder(a, b)
    ensures Normalize(a, le) == Normalize(b, le)
    decreases a
  {
    match (a, b)
    case (Arr(xs), Arr(ys)) =>
      forall i | 0 <= i < |xs| ensures Normalize(xs[i], le) == Normalize(ys[i], le) {
        SameMeansEqualForms(xs[i], ys[i], le);
      }
      assert Normalize(a, le).items == Normalize(b, le).items;
    case (Obj(fs), Obj(gs)) =>
      var es, hs := Entries(fs, le), Entries(gs, le);
      forall f | f in es ensures f in hs {
        var i :| 0 <= i < |es| && es[i] == f;
        assert HasTwin(fs[i], gs);
        var j :| 0 <= j < |gs| && gs[j].key == fs[i].key && SameUpToKeyOrder(fs[i].value, gs[j].value);
        SameMeansEqualForms(fs[i].value, gs[j].value, le);
        assert hs[j] == f;
      }
      SameEntriesSortSame(fs, gs, le);
    case _ =>
  }

  lemma SameEntriesSortSame(fs: seq<Field>, gs: seq<Field>, le: Order)
    requires TotalOrder(le) && DistinctKeys(fs) && DistinctKeys(gs) && |fs| == |gs|
    requires forall f :: f in Entries(fs, le) ==> f in Entries(gs, le)
    ensures Normalize(Obj(fs), le) == Normalize(Obj(gs), le)
  {
    var es, hs := Entries(fs, le), Entries(gs, le);
    NormalizeObj(fs, le);
    NormalizeObj(gs, le);
    EntriesDistinct(fs, le);
    EntriesDistinct(gs, le);
    SameEntries(es, hs);
    SortSame(es, le);
    SortSame(hs, le);
    SortAscends(es, le);
    SortAscends(hs, le);
    AscendingUnique(Sort(es, le), Sort(hs, le), le);
  }

  /** Equal forms, exactly when the values differ by key order only. */
  lemma CanonicalForm(a: Json, b: Json, le: Order)
    requires TotalOrder(le) && WellFormed(a) && WellFormed(b)
    ensures Normalize(a, le) == Normalize(b, le) <==> SameUpToKeyOrder(a, b)
  {
    if Normalize(a, le) == Normalize(b, le) { EqualFormsMeanSame(a, b, le); }
    if SameUpToKeyOrder(a, b) { SameMeansEqualForms(a, b, le); }
  }

  // ---------------------------------------------------------------- idempotence

  lemma {:induction false} Idempotent(v: Json, le: Order)
    requires TotalOrder(le) && WellFormed(v)
    ensures WellFormed(Normalize(v, le)) && Normalize(Normalize(v, le), le) == Normalize(v, le)
    decreases v
  {
    match v
    case Arr(items) =>
      forall i | 0 <= i < |items|
        ensures WellFormed(Normalize(items[i], le)) && Normalize(Normalize(items[i], le), le) == Normalize(items[i], le)
      {
        Idempotent(items[i], le);
      }
      assert Normalize(Normalize(v, le), le).items == Normalize(v, le).items;
    case Obj(fields) =>
      forall i | 0 <= i < |fields|
        ensures WellFormed(Entries(fields, le)[i].value)
        ensures Normalize(Entries(fields, le)[i].value, le) == Entries(fields, le)[i].value
      {
        Idempotent(fields[i].value, le);
      }
      SortedIsFixed(fields, le);
    case _ =>
  }

  lemma SortedIsFixed(fields: seq<Field>, le: Order)
    requires TotalOrder(le) && DistinctKeys(fields)
    requires forall i :: 0 <= i < |fields| ==>
      WellFormed(Entries(fields, le)[i].value) && Normalize(Entries(fields, le)[i].value, le) == Entries(fields, le)[i].value
    ensures WellFormed(Normalize(Obj(fields), le)) && Normalize(Normalize(Obj(fields), le), le) == Normalize(Obj(fields), le)
  {
    var es := Entries(fields, le);
    var sorted := Sort(es, le);
    NormalizeObj(fields, le);
    NormalizeObj(sorted, le);
    SortSame(es, le);
    EntriesDistinct(fields, le);
    forall i | 0 <= i < |sorted| ensures WellFormed(sorted[i].value) && Entries(sorted, le)[i] == sorted[i] {
      assert sorted[i] in es;
    }
    assert Entries(sorted, le) == sorted;
    SortSame(sorted, le);
    SortAscends(es, le);
    SortAscends(sorted, le);
    DistinctAnyOrder(sorted, Sort(sorted, le));
    AscendingUnique(Sort(sorted, le), sorted, le);
  }

  // ---------------------------------------------------------------- checksums

  // Two different forms under one hash.
  predicate Collide(hash: Json -> nat, x: Json, y: Json) {
    x != y && hash(x) == hash(y)
  }

  /**
    * Whatever the hash: two values share a checksum exactly when they differ by key order only, or the hash
    * collides on their two forms.
    */
  lemma ChecksumIgnoresKeyOrderOnly(a: Json, b: Json, le: Order, hash: Json -> nat)
    requires TotalOrder(le) && WellFormed(a) && WellFormed(b)
    ensures hash(Normalize(a, le)) == hash(Normalize(b, le))
      <==> SameUpToKeyOrder(a, b) || Collide(hash, Normalize(a, le), Normalize(b, le))
  {
    CanonicalForm(a, b, le);
  }
}
