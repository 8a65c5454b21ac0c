/** What a byte string means to the decoder, written down independently of it:
    more strings have a meaning than the encoder writes, since counts may carry
    superfluous groups, a bool may be any byte, and the entries of a map may come
    in any order and repeat a key. The decoder accepts exactly these. */
module WireReading {
  import opened Foundation
  import opened WireFormat
  import opened WireTypes
  import opened WireRoundTrip
  import opened WirePlan
  import opened WireCorrect
  import opened WireSafety
  import opened WireCanonical
  import opened WireLayout
  import opened WireSupport

  // ----- the meaning of bytes -----

  /** c is a count of n: groups of seven bits, at most 64 of them. */
  predicate CountIs(c: Bytes, n: nat) {
    UvarintEnds(c, |c|) && Groups(c, |c|) == n
  }

  /** A bool is true unless its byte is 0; a number is its word. */
  predicate ScalarMeans(k: Kind, b: Bytes, v: Value) {
    if k == Bool then |b| == 1 && v == VBool(b[0] != 0) else ScalarValue(k, v) && ScalarLayout(k, v, b)
  }

  /** An entry of a map as read: key and value, and the bytes of each. */
  datatype Entry = Entry(key: Value, val: Value, kb: Bytes, vb: Bytes)

  function EntryBytes(es: seq<Entry>): seq<Bytes> {
    seq(|es|, i requires 0 <= i < |es| => es[i].kb + es[i].vb)
  }

  /** The map these entries make: of each key, the last value. */
  ghost predicate Makes(es: seq<Entry>, m: map<Value, Value>) {
    && (forall i | 0 <= i < |es| :: es[i].key in m)
    && forall x | x in m :: exists i :: LastAt(es, i, x) && m[x] == es[i].val
  }

  predicate LastAt(es: seq<Entry>, i: int, x: Value) {
    0 <= i < |es| && es[i].key == x && forall j | i < j < |es| :: es[j].key != x
  }

  /** Elements that may take no bytes are limited in number. */
  predicate Allowed(min: nat, n: nat) {
    min == 0 ==> n <= 0x10_0000
  }

  /** b, read at type t, is v. */
  ghost predicate Means(P: Program, t: Type, b: Bytes, v: Value)
    requires ProgramOk(P)
    decreases |b|, Rank(P, t) + 1, 0
  {
    match t
    case Scalar(k) => ScalarMeans(k, b, v)
    case Str => v.VBytes? && exists c :: CountIs(c, |v.bytes|) && b == c + v.bytes
    case Slice(e) =>
      if e == Scalar(Uint8) then v.VBytes? && exists c :: CountIs(c, |v.bytes|) && b == c + v.bytes
      else v.VSeq? && Allowed(MinSize(P, e), |v.items|) &&
           exists c, parts :: CountIs(c, |v.items|) && b == c + Concat(parts) && EachMeans(P, e, parts, v.items, |b|)
    case Array(n, e) =>
      e.Scalar? && v.VSeq? && |v.items| == n && exists parts :: ScalarsMean(e.kind, parts, v.items) && b == Concat(parts)
    case Map(k, e) =>
      v.VMap? && exists c, es ::
        && CountIs(c, |es|) && b == c + Concat(EntryBytes(es)) && EntriesMean(P, k, e, es, |b|)
        && Makes(es, v.entries) && Allowed(MinSize(P, k) + MinSize(P, e), |es|)
    case Struct(s) =>
      v.VStruct? && s in P.structs && exists parts :: b == Concat(parts) && FieldsMean(P, P.structs[s], P.rank[s], parts, v.fields, |b|)
    case Pointer(e) => if v.VRef? then b != [] && b[0] == 1 && Means(P, e, b[1..], v.target) else v == VNil && b == [0]
    case Unsupported => false
  }

  ghost predicate EachMeans(P: Program, t: Type, parts: seq<Bytes>, vs: seq<Value>, n: nat)
    requires ProgramOk(P)
    decreases n, 0, 0
  {
    |parts| == |vs| && forall i | 0 <= i < |vs| :: |parts[i]| < n && Means(P, t, parts[i], vs[i])
  }

  predicate ScalarsMean(k: Kind, parts: seq<Bytes>, vs: seq<Value>) {
    |parts| == |vs| && forall i | 0 <= i < |vs| :: ScalarMeans(k, parts[i], vs[i])
  }

  ghost predicate EntriesMean(P: Program, k: Type, e: Type, es: seq<Entry>, n: nat)
    requires ProgramOk(P)
    decreases n, 0, 0
  {
    forall i | 0 <= i < |es| ::
      && |es[i].kb| < n && |es[i].vb| < n
      && Means(P, k, es[i].kb, es[i].key) && Means(P, e, es[i].vb, es[i].val)
  }

  ghost predicate FieldsMean(P: Program, ts: seq<Type>, r: nat, parts: seq<Bytes>, vs: seq<Value>, n: nat)
    requires ProgramOk(P) && forall i | 0 <= i < |ts| :: Rank(P, ts[i]) <= r
    decreases n, r + 1, 1
  {
    |parts| == |vs| == |ts| && forall i | 0 <= i < |vs| :: |parts[i]| <= n && Means(P, ts[i], parts[i], vs[i])
  }

  // ----- small readings -----

  lemma {:induction false} GroupsOfPrefix(c: Bytes, rest: Bytes, w: nat)
    requires w <= |c|
    ensures Groups(c + rest, w) == Groups(c, w)
  {
    if w > 0 { GroupsOfPrefix(c, rest, w - 1); }
  }

  /** A count is read as what it is, whatever follows. */
  lemma CountReads(c: Bytes, n: nat, rest: Bytes)
    requires CountIs(c, n)
    ensures Uvarint(c + rest) == Some(Read(n, rest)) && c != []
  {
    var data := c + rest;
    assert UvarintEnds(data, |c|) by {
      assert data[|c| - 1] == c[|c| - 1];
      assert forall i | 0 <= i < |c| - 1 :: data[i] == c[i];
      if |c| == 10 { assert data[9] == c[9]; }
    }
    UvarintReadsGroups(data, |c|);
    GroupsOfPrefix(c, rest, |c|);
    assert data[|c|..] == rest;
  }

  lemma PrefixIsCount(data: Bytes, w: nat)
    requires UvarintEnds(data, w)
    ensures CountIs(data[..w], Groups(data, w)) && data == data[..w] + data[w..]
  {
    hide Groups;
    var c := data[..w];
    assert data == c + data[w..];
    GroupsOfPrefix(c, data[w..], w);
  }

  /** What is read as a count is one. */
  lemma ReadsCount(data: Bytes) returns (c: Bytes)
    requires Uvarint(data).Some?
    ensures CountIs(c, Uvarint(data).value.value) && data == c + Uvarint(data).value.rest && c != []
  {
    hide UvarintFrom, Groups, CountIs;
    var w := UvarintEndsSomewhere(data, 0);
    assert UvarintEnds(data, w);
    UvarintReadsGroups(data, w);
    PrefixIsCount(data, w);
    c := data[..w];
  }

  lemma ScalarReads(k: Kind, b: Bytes, v: Value, rest: Bytes)
    requires ScalarMeans(k, b, v)
    ensures GetScalar(k, b + rest) == Some(Read(v, rest))
  {
    hide ScalarLayout, PutScalar, ScalarValue;
    if k == Bool {
      assert (b + rest)[0] == b[0] && (b + rest)[1..] == rest;
    } else {
      ScalarIs(k, v, b);
      ScalarRoundTrip(k, v, rest);
    }
  }

  lemma ReadsScalar(k: Kind, data: Bytes) returns (b: Bytes)
    requires GetScalar(k, data).Some?
    ensures var r := GetScalar(k, data).value; data == b + r.rest && ScalarMeans(k, b, r.value)
  {
    hide ScalarLayout, PutScalar;
    b := data[..Size(k)];
    var r := GetScalar(k, data).value;
    assert data == b + r.rest;
    if k != Bool {
      ScalarIsTyped(k, data);
      ScalarIsWritten(k, data);
      ScalarRoundTrip(k, r.value, []);
      assert PutScalar(k, r.value) == (PutScalar(k, r.value) + r.rest)[..Size(k)] == b;
      ScalarIs(k, r.value, b);
    }
  }

  lemma {:induction false} PartFits(parts: seq<Bytes>, i: nat)
    requires i < |parts|
    ensures |parts[i]| <= |Concat(parts)|
  {
    if i > 0 { PartFits(parts[1..], i - 1); }
  }

  lemma ConcatFirst(part: Bytes, parts: seq<Bytes>, rest: Bytes)
    ensures Concat([part] + parts) + rest == part + (Concat(parts) + rest)
  {
    assert ([part] + parts)[1..] == parts;
  }

  lemma ConcatSplit(parts: seq<Bytes>, rest: Bytes)
    requires parts != []
    ensures Concat(parts) + rest == parts[0] + (Concat(parts[1..]) + rest)
  {
  }

  // ----- the last value of each key -----

  function LastValues(es: seq<Entry>): map<Value, Value> {
    if es == [] then map[] else map[es[0].key := es[0].val] + LastValues(es[1..])
  }

  lemma {:induction false} LastValuesMake(es: seq<Entry>)
    ensures Makes(es, LastValues(es))
  {
    if es != [] {
      var rest := es[1..];
      LastValuesMake(rest);
      var m := LastValues(es);
      forall i | 0 <= i < |es| ensures es[i].key in m {
        if i > 0 { assert es[i] == rest[i - 1]; }
      }
      forall x | x in m ensures exists i :: LastAt(es, i, x) && m[x] == es[i].val {
        if x in LastValues(rest) {
          var i :| LastAt(rest, i, x) && LastValues(rest)[x] == rest[i].val;
          LastLater(es, i, x);
        } else {
          forall j | 0 < j < |es| ensures es[j].key != x { assert es[j] == rest[j - 1]; }
          assert LastAt(es, 0, x);
        }
      }
    }
  }

  lemma LastLater(es: seq<Entry>, i: nat, x: Value)
    requires es != [] && LastAt(es[1..], i, x)
    ensures LastAt(es, i + 1, x) && es[i + 1].val == es[1..][i].val
  {
    forall j | i + 1 < j < |es| ensures es[j].key != x { assert es[j] == es[1..][j - 1]; }
  }

  lemma MakesOne(es: seq<Entry>, a: map<Value, Value>, b: map<Value, Value>)
    requires Makes(es, a) && Makes(es, b)
    ensures a == b
  {
    forall x ensures x in a <==> x in b {
      if x in a { var i :| LastAt(es, i, x) && a[x] == es[i].val; }
      if x in b { var i :| LastAt(es, i, x) && b[x] == es[i].val; }
    }
    forall x | x in a ensures a[x] == b[x] {
      var i :| LastAt(es, i, x) && a[x] == es[i].val;
      var j :| LastAt(es, j, x) && b[x] == es[j].val;
    }
  }

  // ----- whatever has a meaning is read as it -----

  lemma {:induction false} MeantIsRead(P: Program, t: Type, b: Bytes, v: Value, rest: Bytes)
    requires ProgramOk(P) && Means(P, t, b, v)
    ensures Get(P, t, b + rest) == Some(Read(v, rest))
    decreases |b|, Rank(P, t) + 1, 0
  {
    hide ProgramOk, ScalarMeans, GetScalar, CountIs, Uvarint, EachMeans, EntriesMean, FieldsMean, Concat, GetItems, GetEntries, GetFields,
         GetScalars, Makes, MinSize, Rank, ScalarsMean;
    match t
    case Scalar(k) => ScalarReads(k, b, v, rest);
    case Str => RawReads(b, v, rest);
    case Slice(e) => if e == Scalar(Uint8) { RawReads(b, v, rest); } else { SliceReads(P, e, b, v, rest); }
    case Array(n, e) =>
      var parts :| ScalarsMean(e.kind, parts, v.items) && b == Concat(parts);
      ScalarsRead(e.kind, parts, v.items, rest);
    case Map(k, e) => MapReads(P, k, e, b, v, rest);
    case Struct(s) => StructReads(P, s, b, v, rest);
    case Pointer(e) =>
      if v.VRef? {
        MeantIsRead(P, e, b[1..], v.target, rest);
        assert (b + rest)[0] == 1 && (b + rest)[1..] == b[1..] + rest;
      } else {
        assert (b + rest)[0] == 0 && (b + rest)[1..] == rest;
      }
  }

  lemma RawReads(b: Bytes, v: Value, rest: Bytes)
    requires v.VBytes? && exists c :: CountIs(c, |v.bytes|) && b == c + v.bytes
    ensures GetBytes(b + rest) == Some(Read(v, rest))
  {
    hide CountIs, Uvarint;
    var c :| CountIs(c, |v.bytes|) && b == c + v.bytes;
    CountReads(c, |v.bytes|, v.bytes + rest);
    assert b + rest == c + (v.bytes + rest);
    assert (v.bytes + rest)[..|v.bytes|] == v.bytes && (v.bytes + rest)[|v.bytes|..] == rest;
  }

  lemma {:induction false} ScalarsRead(k: Kind, parts: seq<Bytes>, vs: seq<Value>, rest: Bytes)
    requires ScalarsMean(k, parts, vs)
    ensures GetScalars(k, |vs|, Concat(parts) + rest) == Some(Read(vs, rest))
  {
    hide ScalarMeans, GetScalar;
    if vs == [] {
      assert Concat(parts) + rest == rest;
    } else {
      ConcatSplit(parts, rest);
      ScalarReads(k, parts[0], vs[0], Concat(parts[1..]) + rest);
      ScalarsRead(k, parts[1..], vs[1..], rest);
      assert [vs[0]] + vs[1..] == vs;
    }
  }

  lemma {:induction false} ItemsRead(P: Program, t: Type, parts: seq<Bytes>, vs: seq<Value>, n: nat, rest: Bytes)
    requires ProgramOk(P) && EachMeans(P, t, parts, vs, n)
    ensures GetItems(P, t, |vs|, Concat(parts) + rest) == Some(Read(vs, rest))
    decreases n, 0, |parts|
  {
    hide ProgramOk, Means, Get, Rank;
    if vs == [] {
      assert Concat(parts) + rest == rest;
    } else {
      ConcatSplit(parts, rest);
      MeantIsRead(P, t, parts[0], vs[0], Concat(parts[1..]) + rest);
      ItemsRead(P, t, parts[1..], vs[1..], n, rest);
      assert [vs[0]] + vs[1..] == vs;
    }
  }

  lemma {:induction false} SliceReads(P: Program, e: Type, b: Bytes, v: Value, rest: Bytes)
    requires ProgramOk(P) && e != Scalar(Uint8) && Means(P, Slice(e), b, v)
    ensures Get(P, Slice(e), b + rest) == Some(Read(v, rest))
    decreases |b|, 1, -1
  {
    hide ProgramOk, CountIs, Uvarint, EachMeans, Concat, GetItems, MinSize, Rank;
    var c, parts :| CountIs(c, |v.items|) && b == c + Concat(parts) && EachMeans(P, e, parts, v.items, |b|);
    CountReads(c, |v.items|, Concat(parts) + rest);
    assert b + rest == c + (Concat(parts) + rest);
    ItemsRead(P, e, parts, v.items, |b|, rest);
  }

  lemma {:induction false} FieldsRead(P: Program, ts: seq<Type>, r: nat, parts: seq<Bytes>, vs: seq<Value>, n: nat, rest: Bytes)
    requires ProgramOk(P) && (forall i | 0 <= i < |ts| :: Rank(P, ts[i]) <= r) && FieldsMean(P, ts, r, parts, vs, n)
    ensures GetFields(P, ts, r, Concat(parts) + rest) == Some(Read(vs, rest))
    decreases n, r + 1, 1 + |ts|
  {
    hide ProgramOk, Means, Get, Rank;
    if ts == [] {
      assert Concat(parts) + rest == rest;
    } else {
      ConcatSplit(parts, rest);
      MeantIsRead(P, ts[0], parts[0], vs[0], Concat(parts[1..]) + rest);
      FieldsRead(P, ts[1..], r, parts[1..], vs[1..], n, rest);
      assert [vs[0]] + vs[1..] == vs;
    }
  }

  lemma {:induction false} StructReads(P: Program, s: Name, b: Bytes, v: Value, rest: Bytes)
    requires ProgramOk(P) && Means(P, Struct(s), b, v)
    ensures Get(P, Struct(s), b + rest) == Some(Read(v, rest))
    decreases |b|, Rank(P, Struct(s)) + 1, -1
  {
    hide FieldsMean, Concat, GetFields;
    var parts :| b == Concat(parts) && FieldsMean(P, P.structs[s], P.rank[s], parts, v.fields, |b|);
    FieldsRead(P, P.structs[s], P.rank[s], parts, v.fields, |b|, rest);
  }

  lemma EntryBytesSplit(es: seq<Entry>, rest: Bytes)
    requires es != []
    ensures Concat(EntryBytes(es)) + rest == es[0].kb + (es[0].vb + (Concat(EntryBytes(es[1..])) + rest))
  {
    assert EntryBytes(es)[1..] == EntryBytes(es[1..]);
    ConcatSplit(EntryBytes(es), rest);
  }

  lemma NextEntry(P: Program, k: Type, e: Type, n: nat, data: Bytes, x: Value, d1: Bytes, y: Value, d2: Bytes, m: map<Value, Value>, rest: Bytes)
    requires ProgramOk(P) && n > 0
    requires Get(P, k, data) == Some(Read(x, d1)) && Get(P, e, d1) == Some(Read(y, d2)) && GetEntries(P, k, e, n - 1, d2) == Some(Read(m, rest))
    ensures GetEntries(P, k, e, n, data) == Some(Read(map[x := y] + m, rest))
  {
    hide ProgramOk, Get, Rank;
  }

  lemma EntriesHead(P: Program, k: Type, e: Type, es: seq<Entry>, n: nat)
    requires ProgramOk(P) && es != [] && EntriesMean(P, k, e, es, n)
    ensures EntriesMean(P, k, e, es[1..], n) && |es[0].kb| < n && |es[0].vb| < n
    ensures Means(P, k, es[0].kb, es[0].key) && Means(P, e, es[0].vb, es[0].val)
    ensures LastValues(es) == map[es[0].key := es[0].val] + LastValues(es[1..])
  {
    hide ProgramOk, Means;
  }

  lemma EntriesCons(P: Program, k: Type, e: Type, first: Entry, more: seq<Entry>, n: nat, m: nat)
    requires ProgramOk(P) && EntriesMean(P, k, e, more, m) && m <= n && |first.kb| < n && |first.vb| < n
    requires Means(P, k, first.kb, first.key) && Means(P, e, first.vb, first.val)
    ensures EntriesMean(P, k, e, [first] + more, n)
    ensures LastValues([first] + more) == map[first.key := first.val] + LastValues(more)
  {
    hide ProgramOk, Means;
    assert ([first] + more)[1..] == more;
  }

  lemma {:induction false} EntriesRead(P: Program, k: Type, e: Type, es: seq<Entry>, n: nat, rest: Bytes)
    requires ProgramOk(P) && EntriesMean(P, k, e, es, n)
    ensures GetEntries(P, k, e, |es|, Concat(EntryBytes(es)) + rest) == Some(Read(LastValues(es), rest))
    decreases n, 0, |es|
  {
    hide ProgramOk, Means, Get, Rank, EntryBytes, Concat, EntriesMean, LastValues, GetEntries;
    if es == [] {
      NoEntries(P, k, e, es, rest);
    } else {
      EntriesHead(P, k, e, es, n);
      var tail := Concat(EntryBytes(es[1..])) + rest;
      EntryBytesSplit(es, rest);
      MeantIsRead(P, k, es[0].kb, es[0].key, es[0].vb + tail);
      MeantIsRead(P, e, es[0].vb, es[0].val, tail);
      EntriesRead(P, k, e, es[1..], n, rest);
      NextEntry(P, k, e, |es|, Concat(EntryBytes(es)) + rest, es[0].key, es[0].vb + tail, es[0].val, tail, LastValues(es[1..]), rest);
    }
  }

  lemma NoEntries(P: Program, k: Type, e: Type, es: seq<Entry>, rest: Bytes)
    requires ProgramOk(P) && es == []
    ensures GetEntries(P, k, e, |es|, Concat(EntryBytes(es)) + rest) == Some(Read(LastValues(es), rest))
  {
    hide ProgramOk, Rank;
    assert Concat(EntryBytes(es)) + rest == rest;
  }

  lemma {:induction false} MapReads(P: Program, k: Type, e: Type, b: Bytes, v: Value, rest: Bytes)
    requires ProgramOk(P) && Means(P, Map(k, e), b, v)
    ensures Get(P, Map(k, e), b + rest) == Some(Read(v, rest))
    decreases |b|, 1, -1
  {
    hide ProgramOk, CountIs, Uvarint, EntriesMean, Concat, GetEntries, MinSize, Rank, Makes, EntryBytes;
    var c, es :| CountIs(c, |es|) && b == c + Concat(EntryBytes(es)) && EntriesMean(P, k, e, es, |b|)
                 && Makes(es, v.entries) && Allowed(MinSize(P, k) + MinSize(P, e), |es|);
    CountReads(c, |es|, Concat(EntryBytes(es)) + rest);
    assert b + rest == c + (Concat(EntryBytes(es)) + rest);
    EntriesRead(P, k, e, es, |b|, rest);
    LastValuesMake(es);
    MakesOne(es, LastValues(es), v.entries);
  }

  // ----- whatever is read has that meaning -----

  /** The part of data in front of rest. */
  function Before(data: Bytes, rest: Bytes): Bytes
    requires |rest| <= |data|
  {
    data[..|data| - |rest|]
  }

  lemma BeforeIs(b: Bytes, rest: Bytes)
    ensures Before(b + rest, rest) == b
  {
  }

  lemma {:induction false} ReadIsMeant(P: Program, t: Type, data: Bytes)
    requires ProgramOk(P) && Get(P, t, data).Some?
    ensures var r := Get(P, t, data).value; data == Before(data, r.rest) + r.rest && Means(P, t, Before(data, r.rest), r.value)
    decreases |data|, Rank(P, t), 0, 1
  {
    hide ProgramOk, ScalarMeans, GetScalar, CountIs, Uvarint, EachMeans, EntriesMean, FieldsMean, Concat, GetItems, GetEntries, GetFields,
         GetScalars, Makes, MinSize, Rank, ScalarsMean;
    var r := Get(P, t, data).value;
    match t
    case Scalar(k) =>
      var b := ReadsScalar(k, data);
      BeforeIs(b, r.rest);
    case Str => ReadsRaw(data);
    case Slice(e) => if e == Scalar(Uint8) { ReadsRaw(data); } else { ReadsSlice(P, e, data); }
    case Array(n, e) => ReadsArray(P, n, e, data);
    case Map(k, e) => ReadsMap(P, k, e, data);
    case Struct(s) => ReadsStruct(P, s, data);
    case Pointer(e) => ReadsPointer(P, e, data);
  }

  lemma ReadsArray(P: Program, n: nat, e: Type, data: Bytes)
    requires ProgramOk(P) && Get(P, Array(n, e), data).Some?
    ensures var r := Get(P, Array(n, e), data).value; data == Before(data, r.rest) + r.rest && Means(P, Array(n, e), Before(data, r.rest), r.value)
  {
    hide ProgramOk, ScalarsMean, Concat, GetScalars, Rank;
    var parts := ReadsScalars(e.kind, n, data);
    BeforeIs(Concat(parts), Get(P, Array(n, e), data).value.rest);
  }

  lemma PointerMeans(P: Program, e: Type, b: Bytes, v: Value)
    requires ProgramOk(P)
    ensures Means(P, Pointer(e), [0], VNil)
    ensures Means(P, e, b, v) ==> Means(P, Pointer(e), [1] + b, VRef(v))
  {
    hide ProgramOk, EachMeans, EntriesMean, FieldsMean, ScalarsMean, ScalarMeans, CountIs, Concat, Makes, MinSize, Rank;
    assert ([1] + b)[1..] == b;
  }

  lemma {:induction false} ReadsPointer(P: Program, e: Type, data: Bytes)
    requires ProgramOk(P) && Get(P, Pointer(e), data).Some?
    ensures var r := Get(P, Pointer(e), data).value; data == Before(data, r.rest) + r.rest && Means(P, Pointer(e), Before(data, r.rest), r.value)
    decreases |data|, 0, 0, 0
  {
    hide ProgramOk, Means, Rank, GetItems, GetEntries, GetFields, GetScalars, GetScalar, Uvarint, MinSize;
    var r := Get(P, Pointer(e), data).value;
    if data[0] == 0 {
      assert data == [0] + r.rest;
      BeforeIs([0], r.rest);
      PointerMeans(P, e, [], VNil);
    } else {
      ReadIsMeant(P, e, data[1..]);
      var b := Before(data[1..], r.rest);
      assert data == ([1] + b) + r.rest;
      BeforeIs([1] + b, r.rest);
      PointerMeans(P, e, b, r.value.target);
    }
  }

  lemma ReadsRaw(data: Bytes)
    requires GetBytes(data).Some?
    ensures var r := GetBytes(data).value; var b := Before(data, r.rest);
            data == b + r.rest && r.value.VBytes? && exists c :: CountIs(c, |r.value.bytes|) && b == c + r.value.bytes
  {
    hide CountIs, Uvarint;
    var r := GetBytes(data).value;
    var c := ReadsCount(data);
    assert data == (c + r.value.bytes) + r.rest;
    BeforeIs(c + r.value.bytes, r.rest);
  }

  lemma {:induction false} ReadsScalars(k: Kind, n: nat, data: Bytes) returns (parts: seq<Bytes>)
    requires GetScalars(k, n, data).Some?
    ensures var r := GetScalars(k, n, data).value; |r.value| == n && data == Concat(parts) + r.rest && ScalarsMean(k, parts, r.value)
  {
    hide ScalarMeans, GetScalar;
    parts := [];
    if n > 0 {
      var b := ReadsScalar(k, data);
      var more := ReadsScalars(k, n - 1, GetScalar(k, data).value.rest);
      parts := [b] + more;
      ConcatFirst(b, more, GetScalars(k, n, data).value.rest);
    }
  }

  lemma EachCons(P: Program, t: Type, b: Bytes, parts: seq<Bytes>, v: Value, vs: seq<Value>, n: nat, m: nat)
    requires ProgramOk(P) && EachMeans(P, t, parts, vs, m) && m <= n && |b| < n && Means(P, t, b, v)
    ensures EachMeans(P, t, [b] + parts, [v] + vs, n)
  {
    hide ProgramOk, Means;
  }

  lemma {:induction false} ReadsItems(P: Program, t: Type, n: nat, data: Bytes) returns (parts: seq<Bytes>)
    requires ProgramOk(P) && GetItems(P, t, n, data).Some?
    ensures var r := GetItems(P, t, n, data).value;
            |r.value| == n && data == Concat(parts) + r.rest && EachMeans(P, t, parts, r.value, |data| + 1)
    decreases |data|, Rank(P, t), 1, n
  {
    hide ProgramOk, Means, Get, Rank, Concat, EachMeans;
    parts := [];
    if n == 0 {
      NothingRead(P, t, data);
    } else {
      var x := Get(P, t, data).value;
      ReadIsMeant(P, t, data);
      var more := ReadsItems(P, t, n - 1, x.rest);
      var b := Before(data, x.rest);
      parts := [b] + more;
      EachCons(P, t, b, more, x.value, GetItems(P, t, n - 1, x.rest).value.value, |data| + 1, |x.rest| + 1);
      ConcatFirst(b, more, GetItems(P, t, n, data).value.rest);
    }
  }

  lemma NothingRead(P: Program, t: Type, data: Bytes)
    requires ProgramOk(P)
    ensures Concat([]) + data == data && EachMeans(P, t, [], [], |data| + 1)
  {
    hide ProgramOk;
  }

  lemma Tighter(P: Program, t: Type, parts: seq<Bytes>, vs: seq<Value>, n: nat, m: nat)
    requires ProgramOk(P) && EachMeans(P, t, parts, vs, n) && |Concat(parts)| < m
    ensures EachMeans(P, t, parts, vs, m)
  {
    hide ProgramOk, Means, Concat;
    forall i | 0 <= i < |parts| ensures |parts[i]| < m { PartFits(parts, i); }
  }

  lemma {:induction false} ReadsSlice(P: Program, e: Type, data: Bytes)
    requires ProgramOk(P) && e != Scalar(Uint8) && Get(P, Slice(e), data).Some?
    ensures var r := Get(P, Slice(e), data).value; data == Before(data, r.rest) + r.rest && Means(P, Slice(e), Before(data, r.rest), r.value)
    decreases |data|, 0, 0, 0
  {
    hide ProgramOk, CountIs, Uvarint, EachMeans, Concat, GetItems, MinSize, Rank;
    var r := Get(P, Slice(e), data).value;
    var c := ReadsCount(data);
    var body := Uvarint(data).value.rest;
    var parts := ReadsItems(P, e, Uvarint(data).value.value, body);
    var b := c + Concat(parts);
    assert data == b + r.rest;
    BeforeIs(b, r.rest);
    Tighter(P, e, parts, r.value.items, |body| + 1, |b|);
  }

  lemma {:induction false} ReadsFields(P: Program, ts: seq<Type>, k: nat, data: Bytes) returns (parts: seq<Bytes>)
    requires ProgramOk(P) && (forall i | 0 <= i < |ts| :: Rank(P, ts[i]) <= k) && GetFields(P, ts, k, data).Some?
    ensures var r := GetFields(P, ts, k, data).value; data == Concat(parts) + r.rest && FieldsMean(P, ts, k, parts, r.value, |data|)
    decreases |data|, k, 1, |ts|
  {
    hide ProgramOk, Means, Get, Rank;
    parts := [];
    if ts != [] {
      var x := Get(P, ts[0], data).value;
      ReadIsMeant(P, ts[0], data);
      var more := ReadsFields(P, ts[1..], k, x.rest);
      var b := Before(data, x.rest);
      parts := [b] + more;
      ConcatFirst(b, more, GetFields(P, ts, k, data).value.rest);
    }
  }

  lemma TighterFields(P: Program, ts: seq<Type>, k: nat, parts: seq<Bytes>, vs: seq<Value>, n: nat)
    requires ProgramOk(P) && (forall i | 0 <= i < |ts| :: Rank(P, ts[i]) <= k) && FieldsMean(P, ts, k, parts, vs, n)
    ensures FieldsMean(P, ts, k, parts, vs, |Concat(parts)|)
  {
    hide ProgramOk, Means, Concat;
    forall i | 0 <= i < |parts| ensures |parts[i]| <= |Concat(parts)| { PartFits(parts, i); }
  }

  lemma {:induction false} ReadsStruct(P: Program, s: Name, data: Bytes)
    requires ProgramOk(P) && Get(P, Struct(s), data).Some?
    ensures var r := Get(P, Struct(s), data).value; data == Before(data, r.rest) + r.rest && Means(P, Struct(s), Before(data, r.rest), r.value)
    decreases |data|, Rank(P, Struct(s)), 0, 0
  {
    hide FieldsMean, Concat, GetFields;
    var r := Get(P, Struct(s), data).value;
    var parts := ReadsFields(P, P.structs[s], P.rank[s], data);
    BeforeIs(Concat(parts), r.rest);
    TighterFields(P, P.structs[s], P.rank[s], parts, r.value.fields, |data|);
  }

  lemma {:induction false} ReadsEntries(P: Program, k: Type, e: Type, n: nat, data: Bytes) returns (es: seq<Entry>)
    requires ProgramOk(P) && GetEntries(P, k, e, n, data).Some?
    ensures var r := GetEntries(P, k, e, n, data).value;
            |es| == n && data == Concat(EntryBytes(es)) + r.rest && EntriesMean(P, k, e, es, |data| + 1) && r.value == LastValues(es)
    decreases |data|, Rank(P, k) + Rank(P, e), 1, n
  {
    hide ProgramOk, Means, Get, Rank, EntryBytes, Concat, EntriesMean, LastValues;
    es := [];
    if n == 0 {
      NoEntries(P, k, e, es, data);
      NoneMean(P, k, e, |data| + 1);
    } else {
      var r := GetEntries(P, k, e, n, data).value;
      var x := Get(P, k, data).value;
      var y := Get(P, e, x.rest).value;
      ReadIsMeant(P, k, data);
      ReadIsMeant(P, e, x.rest);
      var more := ReadsEntries(P, k, e, n - 1, y.rest);
      var first := Entry(x.value, y.value, Before(data, x.rest), Before(x.rest, y.rest));
      es := [first] + more;
      assert es[1..] == more;
      EntryBytesSplit(es, r.rest);
      EntriesCons(P, k, e, first, more, |data| + 1, |y.rest| + 1);
    }
  }

  lemma NoneMean(P: Program, k: Type, e: Type, n: nat)
    requires ProgramOk(P)
    ensures EntriesMean(P, k, e, [], n)
  {
    hide ProgramOk;
  }

  lemma TighterEntries(P: Program, k: Type, e: Type, es: seq<Entry>, n: nat, m: nat)
    requires ProgramOk(P) && EntriesMean(P, k, e, es, n) && |Concat(EntryBytes(es))| < m
    ensures EntriesMean(P, k, e, es, m)
  {
    hide ProgramOk, Means, Concat;
    forall i | 0 <= i < |es| ensures |es[i].kb| < m && |es[i].vb| < m {
      PartFits(EntryBytes(es), i);
      assert EntryBytes(es)[i] == es[i].kb + es[i].vb;
    }
  }

  lemma {:induction false} ReadsMap(P: Program, k: Type, e: Type, data: Bytes)
    requires ProgramOk(P) && Get(P, Map(k, e), data).Some?
    ensures var r := Get(P, Map(k, e), data).value; data == Before(data, r.rest) + r.rest && Means(P, Map(k, e), Before(data, r.rest), r.value)
    decreases |data|, 0, 0, 0
  {
    hide ProgramOk, CountIs, Uvarint, EntriesMean, Concat, GetEntries, MinSize, Rank, Makes, EntryBytes;
    var r := Get(P, Map(k, e), data).value;
    var c := ReadsCount(data);
    var body := Uvarint(data).value.rest;
    var es := ReadsEntries(P, k, e, Uvarint(data).value.value, body);
    var b := c + Concat(EntryBytes(es));
    assert data == b + r.rest;
    BeforeIs(b, r.rest);
    TighterEntries(P, k, e, es, |body| + 1, |b|);
    LastValuesMake(es);
  }

  // ----- the theorems -----

  /** On every input and at every type: the decoder reads v and leaves rest if
      and only if what stands before rest means v. */
  lemma ReadingIsMeaning(P: Program, t: Type, b: Bytes, v: Value, rest: Bytes)
    requires ProgramOk(P)
    ensures Get(P, t, b + rest) == Some(Read(v, rest)) <==> Means(P, t, b, v)
  {
    hide ProgramOk, Means, Get, Rank;
    if Means(P, t, b, v) { MeantIsRead(P, t, b, v, rest); }
    if Get(P, t, b + rest) == Some(Read(v, rest)) {
      ReadIsMeant(P, t, b + rest);
      BeforeIs(b, rest);
    }
  }

  /** Unmarshal accepts exactly the byte strings that mean a message of a
      supported type, as that message. */
  lemma UnmarshalIff(P: Program, s: Name, data: Bytes, v: Value)
    requires ProgramOk(P)
    ensures Unmarshal(P, s, data) == Some(v) <==> Supported(P, Struct(s)) && Means(P, Struct(s), data, v)
  {
    hide ProgramOk, Means, Get, Rank, Compile, Decode, Compiled, Supported;
    CompilesIffSupported(P, Struct(s));
    if Compile(P, Struct(s), {}).Some? {
      CompileCorrect(P, Struct(s), Compile(P, Struct(s), {}).value, v, data);
      ReadingIsMeaning(P, Struct(s), data, v, []);
      assert data + [] == data;
    }
  }
}
