/** When decoding and encoding again reproduces the input bytes: exactly when
    the input is canonical, a property a scan of the bytes decides. */
module WireCanonical {
  import opened Foundation
  import opened WireFormat
  import opened WireTypes
  import opened WireRoundTrip
  import opened WirePlan
  import opened WireCorrect
  import opened WireSafety

  // ----- minimal uvarints -----

  /** No zero byte follows a continuation byte. */
  predicate Minimal(data: Bytes) {
    data != [] && (data[0] < 128 || (|data| > 1 && data[1] != 0 && Minimal(data[1..])))
  }

  lemma {:induction false} MinimalIsWritten(data: Bytes, i: nat)
    requires UvarintFrom(data, i).Some?
    ensures var c := UvarintFrom(data, i).value; AppendUvarint(c.value) + c.rest == data <==> Minimal(data)
  {
    var c := UvarintFrom(data, i).value;
    if data[0] < 128 {
      assert [data[0]] + data[1..] == data;
    } else {
      var d := UvarintFrom(data[1..], i + 1).value;
      MinimalIsWritten(data[1..], i + 1);
      if d.value == 0 {
        assert AppendUvarint(c.value) == [data[0] - 128];
        assert AppendUvarint(c.value) + c.rest != data by {
          assert (AppendUvarint(c.value) + c.rest)[0] == data[0] - 128;
        }
        ZeroStarts(data[1..], d.rest);
      } else {
        NonZeroStarts(data[1..], i + 1);
        assert AppendUvarint(c.value) == [data[0]] + AppendUvarint(d.value);
        FirstAndRest(data[0], AppendUvarint(d.value) + d.rest, data);
        assert [data[0]] + (AppendUvarint(d.value) + d.rest) == AppendUvarint(c.value) + c.rest;
      }
    }
  }

  lemma ZeroStarts(data: Bytes, rest: Bytes)
    requires data != []
    ensures AppendUvarint(0) + rest == data ==> data[0] == 0
  {
  }

  lemma NonZeroStarts(data: Bytes, i: nat)
    requires UvarintFrom(data, i).Some? && UvarintFrom(data, i).value.value > 0
    ensures data[0] != 0
  {
  }

  lemma FirstAndRest(b: Byte, x: Bytes, data: Bytes)
    requires data != [] && data[0] == b
    ensures [b] + x == data <==> x == data[1..]
  {
    assert data == [b] + data[1..];
    if [b] + x == data { assert ([b] + x)[1..] == x; }
  }

  // ----- the scan -----

  /** The bytes at the front of data that `rest` leaves. */
  function Front(data: Bytes, rest: Bytes): Bytes {
    if |rest| <= |data| then data[..|data| - |rest|] else []
  }

  /** Bool bytes are 0 or 1, counts and lengths are minimal, and the encoded
      keys of every map are strictly increasing, in the part of data that holds
      a value of type t. */
  ghost predicate Canonical(P: Program, t: Type, data: Bytes)
    requires ProgramOk(P)
    decreases |data|, Rank(P, t), 0, 0
  {
    match t
    case Scalar(k) => BoolBytes(k, 1, data)
    case Str => Minimal(data)
    case Slice(e) =>
      && Minimal(data)
      && (e != Scalar(Uint8) ==>
            var c := Uvarint(data); c.Some? ==> CanonicalItems(P, e, c.value.value, c.value.rest))
    case Array(n, e) => e.Scalar? ==> BoolBytes(e.kind, n, data)
    case Map(k, e) =>
      Minimal(data) && var c := Uvarint(data); c.Some? ==> CanonicalEntries(P, k, e, c.value.value, c.value.rest, None)
    case Struct(s) => s in P.structs ==> CanonicalFields(P, P.structs[s], P.rank[s], data)
    case Pointer(e) => data != [] && data[0] == 1 ==> Canonical(P, e, data[1..])
    case Unsupported => true
  }

  predicate BoolBytes(k: Kind, n: nat, data: Bytes) {
    k == Bool ==> forall i | 0 <= i < n && i < |data| :: data[i] <= 1
  }

  ghost predicate CanonicalItems(P: Program, t: Type, n: nat, data: Bytes)
    requires ProgramOk(P)
    decreases |data|, Rank(P, t), 1, n
  {
    n == 0 || (Canonical(P, t, data) && var x := Get(P, t, data); x.Some? ==> CanonicalItems(P, t, n - 1, x.value.rest))
  }

  ghost predicate CanonicalFields(P: Program, ts: seq<Type>, r: nat, data: Bytes)
    requires ProgramOk(P) && forall i | 0 <= i < |ts| :: Rank(P, ts[i]) <= r
    decreases |data|, r, 1, |ts|
  {
    ts == [] || (Canonical(P, ts[0], data) && var x := Get(P, ts[0], data); x.Some? ==> CanonicalFields(P, ts[1..], r, x.value.rest))
  }

  /** `last` is the encoding of the key before. */
  ghost predicate CanonicalEntries(P: Program, k: Type, e: Type, n: nat, data: Bytes, last: Option<Bytes>)
    requires ProgramOk(P)
    decreases |data|, Rank(P, k) + Rank(P, e), 1, n
  {
    n == 0 ||
    (Canonical(P, k, data) && var x := Get(P, k, data); x.Some? ==>
       && (last.Some? ==> Below(last.value, Front(data, x.value.rest)))
       && Canonical(P, e, x.value.rest)
       && var y := Get(P, e, x.value.rest);
          y.Some? ==> CanonicalEntries(P, k, e, n - 1, y.value.rest, Some(Front(data, x.value.rest))))
  }

  // ----- encodings are canonical -----

  lemma AppendIsMinimal(n: nat, tail: Bytes)
    requires n <= MaxUint64
    ensures Minimal(AppendUvarint(n) + tail)
  {
    UvarintRoundTrip(n, tail);
    MinimalIsWritten(AppendUvarint(n) + tail, 0);
  }

  lemma FrontOf(a: Bytes, b: Bytes)
    ensures Front(a + b, b) == a
  {
  }

  /** Everything the encoder writes is canonical. */
  lemma {:induction false} EncodingIsCanonical(P: Program, t: Type, v: Value, tail: Bytes)
    requires ProgramOk(P) && ContentKeys(P) && TypeOk(P, t) && HasType(P, t, v) && Capped(P, t, v)
    ensures Canonical(P, t, Put(P, t, v) + tail)
    decreases v, 2
  {
    hide AppendUvarint, PutMap, Get, Minimal, PutItems, CanonicalItems, CanonicalEntries, CanonicalFields, PutFields, Uvarint;
    match t
    case Scalar(k) =>
    case Str => RawIsMinimal(v.bytes, tail);
    case Slice(e) =>
      if e == Scalar(Uint8) { RawIsMinimal(v.bytes, tail); } else { SliceIsCanonical(P, e, v.items, tail); }
    case Array(n, e) => ScalarsAreCanonical(e.kind, v.items, tail);
    case Map(k, e) => MapIsCanonical(P, k, e, v, tail);
    case Struct(s) =>
      assert forall i | 0 <= i < |P.structs[s]| :: FieldOk(P, s, P.structs[s][i]) && TypeOk(P, P.structs[s][i]);
      FieldsAreCanonical(P, P.structs[s], P.rank[s], v.fields, tail);
    case Pointer(e) =>
      if v.VRef? {
        EncodingIsCanonical(P, e, v.target, tail);
        assert (Put(P, t, v) + tail)[1..] == Put(P, e, v.target) + tail;
      }
  }

  lemma RawIsMinimal(b: Bytes, tail: Bytes)
    requires |b| <= MaxLen
    ensures Minimal(PutRaw(b) + tail)
  {
    hide AppendUvarint, Minimal;
    AppendIsMinimal(|b|, b + tail);
    Assoc(AppendUvarint(|b|), b, tail);
  }

  lemma {:induction false} ScalarsAreCanonical(k: Kind, vs: seq<Value>, tail: Bytes)
    ensures BoolBytes(k, |vs|, PutScalars(k, vs) + tail)
  {
    if vs != [] && k == Bool {
      ScalarsAreCanonical(k, vs[1..], tail);
      var rest := PutScalars(k, vs[1..]) + tail;
      assert PutScalars(k, vs) + tail == PutScalar(k, vs[0]) + rest;
      forall i | 0 <= i < |vs| && i < |PutScalars(k, vs) + tail| ensures (PutScalars(k, vs) + tail)[i] <= 1 {
        if i > 0 { assert (PutScalars(k, vs) + tail)[i] == rest[i - 1]; }
      }
    }
  }

  lemma {:induction false} SliceIsCanonical(P: Program, e: Type, vs: seq<Value>, tail: Bytes)
    requires ProgramOk(P) && ContentKeys(P) && TypeOk(P, e) && e != Scalar(Uint8)
    requires HasType(P, Slice(e), VSeq(vs)) && Capped(P, Slice(e), VSeq(vs))
    ensures Canonical(P, Slice(e), Put(P, Slice(e), VSeq(vs)) + tail)
    decreases vs, 2
  {
    hide AppendUvarint, Uvarint, MinSize, ProgramOk, ContentKeys, TypeOk, Minimal, PutItems, CanonicalItems;
    var body := PutItems(P, e, vs);
    UvarintRoundTrip(|vs|, body + tail);
    AppendIsMinimal(|vs|, body + tail);
    Assoc(AppendUvarint(|vs|), body, tail);
    ItemsAreCanonical(P, e, vs, tail);
  }

  lemma {:induction false} ItemsAreCanonical(P: Program, t: Type, vs: seq<Value>, tail: Bytes)
    requires ProgramOk(P) && ContentKeys(P) && TypeOk(P, t)
    requires forall i | 0 <= i < |vs| :: HasType(P, t, vs[i]) && Capped(P, t, vs[i])
    ensures CanonicalItems(P, t, |vs|, PutItems(P, t, vs) + tail)
    decreases vs, 1
  {
    hide HasType, Capped, Put, Get, Canonical, ProgramOk, ContentKeys, TypeOk, Rank;
    if vs != [] {
      var rest := PutItems(P, t, vs[1..]) + tail;
      EncodingIsCanonical(P, t, vs[0], rest);
      RoundTrip(P, t, vs[0], rest);
      ItemsAreCanonical(P, t, vs[1..], tail);
      Assoc(Put(P, t, vs[0]), PutItems(P, t, vs[1..]), tail);
    }
  }

  lemma {:induction false} FieldsAreCanonical(P: Program, ts: seq<Type>, r: nat, vs: seq<Value>, tail: Bytes)
    requires ProgramOk(P) && ContentKeys(P) && HaveTypes(P, ts, vs) && AllCapped(P, ts, vs)
    requires forall i | 0 <= i < |ts| :: Rank(P, ts[i]) <= r && TypeOk(P, ts[i])
    ensures CanonicalFields(P, ts, r, PutFields(P, ts, vs) + tail)
    decreases vs, 1
  {
    hide HasType, Capped, Put, Get, Canonical, ProgramOk, ContentKeys, TypeOk, Rank;
    if ts != [] {
      var rest := PutFields(P, ts[1..], vs[1..]) + tail;
      EncodingIsCanonical(P, ts[0], vs[0], rest);
      RoundTrip(P, ts[0], vs[0], rest);
      FieldsAreCanonical(P, ts[1..], r, vs[1..], tail);
      Assoc(Put(P, ts[0], vs[0]), PutFields(P, ts[1..], vs[1..]), tail);
    }
  }

  lemma ScanEntry(P: Program, k: Type, e: Type, n: nat, x: Value, y: Value, more: Bytes, last: Option<Bytes>)
    requires ProgramOk(P) && n > 0
    requires var data := Put(P, k, x) + (Put(P, e, y) + more);
             Canonical(P, k, data) && Get(P, k, data) == Some(Read(x, Put(P, e, y) + more))
    requires Canonical(P, e, Put(P, e, y) + more) && Get(P, e, Put(P, e, y) + more) == Some(Read(y, more))
    requires last.Some? ==> Below(last.value, Put(P, k, x))
    requires CanonicalEntries(P, k, e, n - 1, more, Some(Put(P, k, x)))
    ensures CanonicalEntries(P, k, e, n, Put(P, k, x) + (Put(P, e, y) + more), last)
  {
    hide Put, Get, Canonical, ProgramOk, Rank, Below, Front;
    FrontOf(Put(P, k, x), Put(P, e, y) + more);
  }

  /** The entries written in increasing order of encoded key. */
  lemma {:induction false} EntriesAreCanonical(P: Program, k: Type, e: Type, v: Value, ks: seq<Value>, last: Option<Bytes>, tail: Bytes)
    requires ProgramOk(P) && ContentKeys(P) && TypeOk(P, k) && TypeOk(P, e) && IsKey(P, k, Rank(P, k)) && v.VMap?
    requires forall x | x in v.entries :: HasType(P, k, x) && HasType(P, e, v.entries[x]) && Capped(P, e, v.entries[x])
    requires (forall x | x in ks :: x in v.entries) && Sorted(ks, KeyBytes(P, k, v.entries))
    requires last.Some? && ks != [] ==> Below(last.value, Put(P, k, ks[0]))
    ensures CanonicalEntries(P, k, e, |ks|, PutEntries(ks, KeyBytes(P, k, v.entries), ValueBytes(P, e, v.entries)) + tail, last)
    decreases v, 0, |ks|
  {
    hide HasType, Capped, Put, Get, Canonical, ProgramOk, ContentKeys, TypeOk, Rank, IsKey, Below, PutEntries, Front, CanonicalEntries;
    var m, kb, vb := v.entries, KeyBytes(P, k, v.entries), ValueBytes(P, e, v.entries);
    if ks == [] {
      NothingToScan(P, k, e, PutEntries(ks, kb, vb) + tail, last);
    } else {
      var x, rest := ks[0], ks[1..];
      var more := PutEntries(rest, kb, vb) + tail;
      PutEntriesSplit(ks, kb, vb, tail);
      KeyIsCapped(P, k, Rank(P, k), x);
      EncodingIsCanonical(P, k, x, Put(P, e, m[x]) + more);
      RoundTrip(P, k, x, Put(P, e, m[x]) + more);
      EncodingIsCanonical(P, e, m[x], more);
      RoundTrip(P, e, m[x], more);
      assert rest != [] ==> Precedes(kb, ks[0], ks[1]);
      EntriesAreCanonical(P, k, e, v, rest, Some(Put(P, k, x)), tail);
      ScanEntry(P, k, e, |ks|, x, m[x], more, last);
    }
  }

  lemma NothingToScan(P: Program, k: Type, e: Type, data: Bytes, last: Option<Bytes>)
    requires ProgramOk(P)
    ensures CanonicalEntries(P, k, e, 0, data, last)
  {
  }

  lemma {:induction false} MapIsCanonical(P: Program, k: Type, e: Type, v: Value, tail: Bytes)
    requires ProgramOk(P) && ContentKeys(P) && TypeOk(P, Map(k, e)) && HasType(P, Map(k, e), v) && Capped(P, Map(k, e), v)
    ensures Canonical(P, Map(k, e), Put(P, Map(k, e), v) + tail)
    decreases v, 1
  {
    hide AppendUvarint, Uvarint, ProgramOk, ContentKeys, IsKey, Rank, Minimal, PutEntries, CanonicalEntries, Put, KeyBytes, ValueBytes,
         Injective, Sorted, WrittenOrder;
    var m, ks := v.entries, WrittenOrder(P, k, v.entries);
    KeysInjective(P, k, v);
    WrittenOrderIs(P, k, m);
    PutMapIs(P, k, e, v);
    WholeMap(m, ks);
    var body := PutEntries(ks, KeyBytes(P, k, m), ValueBytes(P, e, m));
    UvarintRoundTrip(|m|, body + tail);
    AppendIsMinimal(|m|, body + tail);
    Assoc(AppendUvarint(|m|), body, tail);
    EntriesAreCanonical(P, k, e, v, ks, None, tail);
  }

  // ----- canonical bytes are what the encoder writes -----

  lemma {:induction false} CanonicalIsWritten(P: Program, t: Type, data: Bytes)
    requires ProgramOk(P) && ContentKeys(P) && TypeOk(P, t) && |data| <= MaxLen && Get(P, t, data).Some? && Canonical(P, t, data)
    ensures var r := Get(P, t, data).value; Put(P, t, r.value) + r.rest == data
    decreases |data|, Rank(P, t), 0, 1
  {
    hide GetItems, GetEntries, GetFields, GetScalars, GetScalar, Uvarint, CountOf, MinSize, Minimal, PutMap, PutItems, PutFields,
         PutScalars, PutScalar, AppendUvarint, CanonicalItems, CanonicalEntries, CanonicalFields, BoolBytes;
    match t
    case Scalar(k) => ScalarIsWritten(k, data);
    case Str => RawIsWritten(data);
    case Slice(e) => if e == Scalar(Uint8) { RawIsWritten(data); } else { SliceIsWritten(P, e, data); }
    case Array(n, e) => ScalarsAreWritten(e.kind, n, data);
    case Map(k, e) => MapIsWritten(P, k, e, data);
    case Struct(s) =>
      assert forall i | 0 <= i < |P.structs[s]| :: FieldOk(P, s, P.structs[s][i]) && TypeOk(P, P.structs[s][i]);
      FieldsAreWritten(P, P.structs[s], P.rank[s], data);
    case Pointer(e) =>
      if data[0] == 1 {
        CanonicalIsWritten(P, e, data[1..]);
        var r := Get(P, e, data[1..]).value;
        assert [1] + Put(P, e, r.value) + r.rest == [1] + (Put(P, e, r.value) + r.rest);
      }
      assert [data[0]] + data[1..] == data;
  }

  lemma {:induction false} WordIsWritten(b: Bytes)
    ensures PutWord(GetWord(b), |b|) == b
  {
    if b != [] {
      WordIsWritten(b[1..]);
      assert GetWord(b) % 256 == b[0] && GetWord(b) / 256 == GetWord(b[1..]);
      assert b == [b[0]] + b[1..];
    }
  }

  lemma ScalarIsWritten(k: Kind, data: Bytes)
    requires GetScalar(k, data).Some? && BoolBytes(k, 1, data)
    ensures var r := GetScalar(k, data).value; PutScalar(k, r.value) + r.rest == data
  {
    var b := data[..Size(k)];
    WordIsWritten(b);
    WordBound(b);
    SpanEven(Size(k));
    assert data == b + data[Size(k)..];
    if k == Bool { assert b == [data[0]]; }
  }

  lemma {:induction false} ScalarsAreWritten(k: Kind, n: nat, data: Bytes)
    requires GetScalars(k, n, data).Some? && BoolBytes(k, n, data)
    ensures var r := GetScalars(k, n, data).value; PutScalars(k, r.value) + r.rest == data
  {
    hide PutScalar;
    if n > 0 {
      var x := GetScalar(k, data).value;
      ScalarIsWritten(k, data);
      assert BoolBytes(k, n - 1, x.rest) by {
        if k == Bool { assert forall i | 0 <= i < |x.rest| :: x.rest[i] == data[i + 1]; }
      }
      ScalarsAreWritten(k, n - 1, x.rest);
      var r := GetScalars(k, n - 1, x.rest).value;
      assert ([x.value] + r.value)[1..] == r.value;
      Assoc(PutScalar(k, x.value), PutScalars(k, r.value), r.rest);
    }
  }

  lemma RawIsWritten(data: Bytes)
    requires GetBytes(data).Some? && Minimal(data)
    ensures var r := GetBytes(data).value; r.value.VBytes? && PutRaw(r.value.bytes) + r.rest == data
  {
    hide Minimal, AppendUvarint, UvarintFrom;
    MinimalIsWritten(data, 0);
    var c := Uvarint(data).value;
    SplitAt(c.rest, c.value);
    Assoc(AppendUvarint(c.value), c.rest[..c.value], c.rest[c.value..]);
  }

  lemma SplitAt(b: Bytes, n: nat)
    requires n <= |b|
    ensures b[..n] + b[n..] == b
  {
  }

  lemma {:induction false} SliceIsWritten(P: Program, e: Type, data: Bytes)
    requires ProgramOk(P) && ContentKeys(P) && TypeOk(P, e) && e != Scalar(Uint8) && |data| <= MaxLen
    requires Get(P, Slice(e), data).Some? && Canonical(P, Slice(e), data)
    ensures var r := Get(P, Slice(e), data).value; Put(P, Slice(e), r.value) + r.rest == data
    decreases |data|, 0, 0, 0
  {
    hide ProgramOk, ContentKeys, TypeOk, GetItems, MinSize, UvarintFrom, Minimal, PutItems, AppendUvarint, CanonicalItems;
    var c := Uvarint(data).value;
    MinimalIsWritten(data, 0);
    ItemsAreWritten(P, e, c.value, c.rest);
    var r := GetItems(P, e, c.value, c.rest).value;
    Assoc(AppendUvarint(c.value), PutItems(P, e, r.value), r.rest);
  }

  lemma {:induction false} ItemsAreWritten(P: Program, t: Type, n: nat, data: Bytes)
    requires ProgramOk(P) && ContentKeys(P) && TypeOk(P, t) && |data| <= MaxLen
    requires GetItems(P, t, n, data).Some? && CanonicalItems(P, t, n, data)
    ensures var r := GetItems(P, t, n, data).value; |r.value| == n && PutItems(P, t, r.value) + r.rest == data
    decreases |data|, Rank(P, t), 1, n
  {
    hide ProgramOk, ContentKeys, TypeOk, Get, Put, Canonical, Rank;
    if n > 0 {
      var x := Get(P, t, data).value;
      CanonicalIsWritten(P, t, data);
      ItemsAreWritten(P, t, n - 1, x.rest);
      var r := GetItems(P, t, n - 1, x.rest).value;
      assert ([x.value] + r.value)[1..] == r.value;
      Assoc(Put(P, t, x.value), PutItems(P, t, r.value), r.rest);
    }
  }

  lemma {:induction false} FieldsAreWritten(P: Program, ts: seq<Type>, r: nat, data: Bytes)
    requires ProgramOk(P) && ContentKeys(P) && |data| <= MaxLen
    requires forall i | 0 <= i < |ts| :: Rank(P, ts[i]) <= r && TypeOk(P, ts[i])
    requires GetFields(P, ts, r, data).Some? && CanonicalFields(P, ts, r, data)
    ensures var o := GetFields(P, ts, r, data).value; PutFields(P, ts, o.value) + o.rest == data
    decreases |data|, r, 1, |ts|
  {
    hide ProgramOk, ContentKeys, TypeOk, Get, Put, Canonical, Rank;
    if ts != [] {
      var x := Get(P, ts[0], data).value;
      CanonicalIsWritten(P, ts[0], data);
      FieldsAreWritten(P, ts[1..], r, x.rest);
      var o := GetFields(P, ts[1..], r, x.rest).value;
      assert ([x.value] + o.value)[1..] == o.value;
      Assoc(Put(P, ts[0], x.value), PutFields(P, ts[1..], o.value), o.rest);
    }
  }

  /** ks lists the keys of m in the order their entries stand in data, which is
      increasing and starts above `last`. */
  ghost predicate Listed(P: Program, k: Type, e: Type, m: map<Value, Value>, ks: seq<Value>, last: Option<Bytes>, data: Bytes, rest: Bytes) {
    && Elements(ks) == m.Keys && Sorted(ks, KeyBytes(P, k, m))
    && (forall x | x in ks && last.Some? :: Below(last.value, Put(P, k, x)))
    && PutEntries(ks, KeyBytes(P, k, m), ValueBytes(P, e, m)) + rest == data
  }

  lemma {:induction false} EntriesAreWritten(P: Program, k: Type, e: Type, n: nat, data: Bytes, last: Option<Bytes>) returns (ks: seq<Value>)
    requires ProgramOk(P) && ContentKeys(P) && TypeOk(P, k) && TypeOk(P, e) && |data| <= MaxLen
    requires GetEntries(P, k, e, n, data).Some? && CanonicalEntries(P, k, e, n, data, last)
    ensures var r := GetEntries(P, k, e, n, data).value; |ks| == n && Listed(P, k, e, r.value, ks, last, data, r.rest)
    decreases |data|, Rank(P, k) + Rank(P, e), 1, n
  {
    hide ProgramOk, ContentKeys, TypeOk, Get, Put, Canonical, Rank, GetEntries, AddEntry, Listed, Below, Front;
    GetEntriesStep(P, k, e, n, data);
    if n == 0 {
      ks := [];
      NothingListed(P, k, e, last, data);
    } else {
      var x := Get(P, k, data).value;
      var y := Get(P, e, x.rest).value;
      CanonicalIsWritten(P, k, data);
      CanonicalIsWritten(P, e, x.rest);
      FrontOf(Put(P, k, x.value), x.rest);
      var key := Put(P, k, x.value);
      var rest := EntriesAreWritten(P, k, e, n - 1, y.rest, Some(key));
      var o := GetEntries(P, k, e, n - 1, y.rest);
      ks := [x.value] + rest;
      ListedMore(P, k, e, o, x, y, rest, last, data);
    }
  }

  lemma NothingListed(P: Program, k: Type, e: Type, last: Option<Bytes>, data: Bytes)
    ensures Listed(P, k, e, map[], [], last, data, data)
  {
    assert PutEntries([], KeyBytes(P, k, map[]), ValueBytes(P, e, map[])) + data == data;
  }

  lemma KeyIsNew(P: Program, k: Type, m: map<Value, Value>, rest: seq<Value>, x: Value)
    requires Elements(rest) == m.Keys && forall z | z in rest :: Below(Put(P, k, x), Put(P, k, z))
    ensures x !in m && (forall z | z in rest :: z in m && z != x)
  {
    hide Put, Below;
    BelowTotal(Put(P, k, x), Put(P, k, x));
    assert forall z :: z in rest <==> z in Elements(rest);
  }

  lemma ListedMore(P: Program, k: Type, e: Type, o: Option<Read<map<Value, Value>>>, x: Read<Value>, y: Read<Value>, rest: seq<Value>,
                   last: Option<Bytes>, data: Bytes)
    requires o.Some? && Listed(P, k, e, o.value.value, rest, Some(Put(P, k, x.value)), y.rest, o.value.rest)
    requires Put(P, k, x.value) + x.rest == data && Put(P, e, y.value) + y.rest == x.rest
    requires last.Some? ==> Below(last.value, Put(P, k, x.value))
    ensures Listed(P, k, e, AddEntry(x.value, y.value, o).value.value, [x.value] + rest, last, data, o.value.rest)
  {
    hide Put, Below, PutEntries, Sorted, KeyBytes, ValueBytes;
    var m, m2, ks := o.value.value, o.value.value[x.value := y.value], [x.value] + rest;
    KeyIsNew(P, k, m, rest, x.value);
    assert AddEntry(x.value, y.value, o).value.value == m2;
    assert Elements(ks) == {x.value} + Elements(rest);
    OrderMore(P, k, m, m2, rest, x.value, y.value);
    forall z | z in ks && last.Some? ensures Below(last.value, Put(P, k, z)) {
      if z != x.value { BelowTransitive(last.value, Put(P, k, x.value), Put(P, k, z)); }
    }
    BytesMore(P, k, e, m, m2, rest, x.value, y.value, o.value.rest);
  }

  lemma OrderMore(P: Program, k: Type, m: map<Value, Value>, m2: map<Value, Value>, rest: seq<Value>, x: Value, y: Value)
    requires m2 == m[x := y] && Sorted(rest, KeyBytes(P, k, m)) && forall z | z in rest :: z in m && Below(Put(P, k, x), Put(P, k, z))
    ensures Sorted([x] + rest, KeyBytes(P, k, m2))
  {
    hide Put, Below, Sorted;
    SortedMore(KeyBytes(P, k, m), KeyBytes(P, k, m2), x, rest);
  }

  lemma BytesMore(P: Program, k: Type, e: Type, m: map<Value, Value>, m2: map<Value, Value>, rest: seq<Value>, x: Value, y: Value, tail: Bytes)
    requires m2 == m[x := y] && forall z | z in rest :: z in m && z != x
    ensures PutEntries([x] + rest, KeyBytes(P, k, m2), ValueBytes(P, e, m2)) + tail ==
            Put(P, k, x) + (Put(P, e, y) + (PutEntries(rest, KeyBytes(P, k, m), ValueBytes(P, e, m)) + tail))
  {
    hide Put, PutEntries;
    var ks := [x] + rest;
    EntriesSame(rest, KeyBytes(P, k, m), KeyBytes(P, k, m2), ValueBytes(P, e, m), ValueBytes(P, e, m2));
    assert ks[1..] == rest;
    PutEntriesSplit(ks, KeyBytes(P, k, m2), ValueBytes(P, e, m2), tail);
  }

  lemma SortedMore(kb: map<Value, Bytes>, kb2: map<Value, Bytes>, x: Value, rest: seq<Value>)
    requires Sorted(rest, kb) && x in kb2 && forall z | z in rest :: z in kb && z in kb2 && kb2[z] == kb[z] && Below(kb2[x], kb2[z])
    ensures Sorted([x] + rest, kb2)
  {
    hide Below;
    var ks := [x] + rest;
    forall i, j | 0 <= i < j < |ks| ensures Precedes(kb2, ks[i], ks[j]) {
      assert ks[j] in rest;
      if i > 0 { assert Precedes(kb, rest[i - 1], rest[j - 1]); }
    }
  }

  lemma {:induction false} EntriesSame(ks: seq<Value>, kb: map<Value, Bytes>, kb2: map<Value, Bytes>, vb: map<Value, Bytes>, vb2: map<Value, Bytes>)
    requires forall z | z in ks :: z in kb && z in kb2 && kb[z] == kb2[z] && z in vb && z in vb2 && vb[z] == vb2[z]
    ensures PutEntries(ks, kb, vb) == PutEntries(ks, kb2, vb2)
  {
    if ks != [] {
      EntriesSame(ks[1..], kb, kb2, vb, vb2);
    }
  }

  lemma {:induction false} MapIsWritten(P: Program, k: Type, e: Type, data: Bytes)
    requires ProgramOk(P) && ContentKeys(P) && TypeOk(P, Map(k, e)) && |data| <= MaxLen
    requires Get(P, Map(k, e), data).Some? && Canonical(P, Map(k, e), data)
    ensures var r := Get(P, Map(k, e), data).value; Put(P, Map(k, e), r.value) + r.rest == data
    decreases |data|, 0, 0, 0
  {
    hide ProgramOk, ContentKeys, GetEntries, MinSize, UvarintFrom, Minimal, Put, AppendUvarint, CanonicalEntries, IsKey, Rank, PutEntries,
         KeyBytes, ValueBytes, Injective, Sorted, WrittenOrder, HasType, Capped;
    var c := Uvarint(data).value;
    MinimalIsWritten(data, 0);
    var r := GetEntries(P, k, e, c.value, c.rest).value;
    var ks := EntriesAreWritten(P, k, e, c.value, c.rest, None);
    MapIsTyped(P, k, e, data);
    EntriesHaveTypes(P, k, e, r.value);
    KeysInjective(P, k, VMap(r.value));
    WrittenOrderIs(P, k, r.value);
    SortedUnique(ks, WrittenOrder(P, k, r.value), KeyBytes(P, k, r.value));
    PutMapIs(P, k, e, VMap(r.value));
    Assoc(AppendUvarint(c.value), PutEntries(ks, KeyBytes(P, k, r.value), ValueBytes(P, e, r.value)), r.rest);
  }

  lemma EntriesHaveTypes(P: Program, k: Type, e: Type, m: map<Value, Value>)
    requires HasType(P, Map(k, e), VMap(m))
    ensures forall x | x in m :: HasType(P, k, x)
  {
  }

  // ----- the theorems -----

  /** Encoding what was decoded gives the bytes back exactly when they are
      canonical. */
  lemma ReencodingIsExact(P: Program, t: Type, data: Bytes)
    requires ProgramOk(P) && ContentKeys(P) && TypeOk(P, t) && |data| <= MaxLen && Get(P, t, data).Some?
    ensures var r := Get(P, t, data).value; Put(P, t, r.value) + r.rest == data <==> Canonical(P, t, data)
  {
    hide Get, Put, Canonical, HasType, Capped, ProgramOk, ContentKeys, TypeOk;
    var r := Get(P, t, data).value;
    GetIsTyped(P, t, data);
    EncodingIsCanonical(P, t, r.value, r.rest);
    if Canonical(P, t, data) { CanonicalIsWritten(P, t, data); }
  }

  /** A message re-encodes to the bytes it came from exactly when these are
      canonical. */
  lemma MessageReproduced(P: Program, s: Name, data: Bytes)
    requires ProgramOk(P) && ContentKeys(P) && s in P.structs && |data| <= MaxLen && Unmarshal(P, s, data).Some?
    ensures Marshal(P, s, Unmarshal(P, s, data).value) == Some(data) <==> Canonical(P, Struct(s), data)
  {
    hide Encode, Decode, Compiled, Get, Put, Compile, Canonical;
    var p := Compile(P, Struct(s), {}).value;
    CompileCorrect(P, Struct(s), p, Unmarshal(P, s, data).value, data);
    ReencodingIsExact(P, Struct(s), data);
    assert Put(P, Struct(s), Unmarshal(P, s, data).value) + [] == Put(P, Struct(s), Unmarshal(P, s, data).value);
  }

  // ----- inputs that are not reproduced -----

  /** A program with one struct of one field. */
  function OneField(s: Name, t: Type): Program {
    Program(map[s := [t]], map[s := 0])
  }

  lemma OneFieldOk(s: Name, t: Type)
    requires !t.Struct? && TypeOk(OneField(s, t), t)
    ensures ProgramOk(OneField(s, t)) && ContentKeys(OneField(s, t))
  {
    assert OneField(s, t).structs[s] == [t];
  }

  /** Reading a message of such a struct is reading its field. */
  lemma OneFieldRead(s: Name, t: Type, data: Bytes, v: Value)
    requires ProgramOk(OneField(s, t)) && Compile(OneField(s, t), t, {s}).Some? && Get(OneField(s, t), t, data) == Some(Read(v, []))
    ensures var P := OneField(s, t);
            && Unmarshal(P, s, data) == Some(VStruct([v]))
            && Marshal(P, s, VStruct([v])) == Some(Put(P, t, v))
            && (Canonical(P, Struct(s), data) <==> Canonical(P, t, data))
  {
    hide Get, Put, Canonical, Compile, Encode, Decode, ProgramOk;
    var P := OneField(s, t);
    OneFieldCompiles(P, s, t);
    var p := Compile(P, Struct(s), {}).value;
    CompileCorrect(P, Struct(s), p, VStruct([v]), data);
    OneFieldMeans(P, s, t, data, v);
  }

  lemma OneFieldCompiles(P: Program, s: Name, t: Type)
    requires s in P.structs && P.structs[s] == [t] && Compile(P, t, {s}).Some?
    ensures Compile(P, Struct(s), {}).Some?
  {
    var ts := P.structs[s];
    assert {} + {s} == {s} && ts[1..] == [];
    assert CompileFields(P, ts[1..], {s}) == Some([]);
    assert CompileFields(P, ts, {s}).Some?;
  }

  lemma OneFieldMeans(P: Program, s: Name, t: Type, data: Bytes, v: Value)
    requires ProgramOk(P) && s in P.structs && P.structs[s] == [t] && P.rank[s] == 0 && Get(P, t, data) == Some(Read(v, []))
    ensures Get(P, Struct(s), data) == Some(Read(VStruct([v]), []))
    ensures Put(P, Struct(s), VStruct([v])) == Put(P, t, v)
    ensures Canonical(P, Struct(s), data) <==> Canonical(P, t, data)
  {
    var ts, vs := P.structs[s], [v];
    assert FieldOk(P, s, ts[0]);
    assert ts[1..] == [] && vs[1..] == [];
    assert GetFields(P, ts[1..], 0, []) == Some(Read([], []));
    assert GetFields(P, ts, 0, data) == Some(Read([v] + [], []));
    assert [v] + [] == [v];
    assert PutFields(P, ts[1..], vs[1..]) == [];
    assert PutFields(P, ts, vs) == Put(P, t, v) + [];
    assert CanonicalFields(P, ts[1..], 0, []);
  }

  /** A bool byte above 1 reads as true and comes back as 1. */
  lemma BoolByteNotReproduced(s: Name, b: Byte)
    requires b > 1
    ensures var P := OneField(s, Scalar(Bool));
            && ProgramOk(P) && Unmarshal(P, s, [b]) == Some(VStruct([VBool(true)]))
            && Marshal(P, s, VStruct([VBool(true)])) == Some([1])
  {
    assert GetScalar(Bool, [b]) == Some(Read(VBool(true), []));
    OneFieldOk(s, Scalar(Bool));
    OneFieldRead(s, Scalar(Bool), [b], VBool(true));
  }

  /** A length written with a superfluous byte comes back shorter. */
  lemma LongUvarintNotReproduced(s: Name)
    ensures var P := OneField(s, Str);
            && ProgramOk(P) && Unmarshal(P, s, [128, 0]) == Some(VStruct([VBytes([])]))
            && Marshal(P, s, VStruct([VBytes([])])) == Some([0])
  {
    var data: Bytes := [128, 0];
    assert data[1..] == [0] && UvarintFrom([0], 1) == Some(Read(0, []));
    assert UvarintFrom(data, 0) == Some(Read(0, []));
    assert GetBytes(data) == Some(Read(VBytes([]), []));
    OneFieldOk(s, Str);
    OneFieldRead(s, Str, data, VBytes([]));
    assert PutRaw([]) == [0];
  }

  lemma ByteRead(P: Program, b: Byte, tail: Bytes)
    requires ProgramOk(P)
    ensures Get(P, Scalar(Uint8), [b] + tail) == Some(Read(VNum(b), tail))
  {
    var data := [b] + tail;
    assert data[..1] == [b] && data[1..] == tail;
    assert GetWord([b]) == b by { assert GetWord([b][1..]) == 0; }
  }

  /** Two map entries: the map they make is read whatever their order, the
      second value winning on a repeated key; the bytes come back if and only
      if the keys increase. */
  lemma EntryOrderDecides(s: Name, a: Byte, x: Byte, b: Byte, y: Byte)
    ensures var P := OneField(s, Map(Scalar(Uint8), Scalar(Uint8))); var data := [2, a, x, b, y];
            var m := map[VNum(a) := VNum(x)] + map[VNum(b) := VNum(y)];
            && ProgramOk(P) && Unmarshal(P, s, data) == Some(VStruct([VMap(m)]))
            && (Marshal(P, s, VStruct([VMap(m)])) == Some(data) <==> a < b)
  {
    var U := Scalar(Uint8);
    var t := Map(U, U);
    var P := OneField(s, t);
    var data: Bytes := [2, a, x, b, y];
    var m := map[VNum(a) := VNum(x)] + map[VNum(b) := VNum(y)];
    assert TypeOk(P, U) && IsKey(P, U, Rank(P, U));
    OneFieldOk(s, t);
    TwoEntries(P, a, x, b, y);
    OneFieldRead(s, t, data, VMap(m));
    MessageReproduced(P, s, data);
  }

  lemma TwoEntries(P: Program, a: Byte, x: Byte, b: Byte, y: Byte)
    requires ProgramOk(P)
    ensures var U := Scalar(Uint8); var data := [2, a, x, b, y];
            && Get(P, Map(U, U), data) == Some(Read(VMap(map[VNum(a) := VNum(x)] + map[VNum(b) := VNum(y)]), []))
            && (Canonical(P, Map(U, U), data) <==> a < b)
  {
    hide Get, Canonical, ProgramOk;
    var U := Scalar(Uint8);
    var data: Bytes := [2, a, x, b, y];
    var d1, d2, d3, d4: Bytes := [a, x, b, y], [x, b, y], [b, y], [y];
    assert data[1..] == d1 && Uvarint(data) == Some(Read(2, d1));
    assert d1 == [a] + d2 && d2 == [x] + d3 && d3 == [b] + d4 && d4 == [y] + [];
    ByteRead(P, a, d2);
    ByteRead(P, x, d3);
    ByteRead(P, b, d4);
    ByteRead(P, y, []);
    GetEntriesStep(P, U, U, 0, []);
    GetEntriesStep(P, U, U, 1, d3);
    GetEntriesStep(P, U, U, 2, d1);
    assert GetEntries(P, U, U, 1, d3) == Some(Read(map[VNum(b) := VNum(y)] + map[], []));
    assert map[VNum(b) := VNum(y)] + map[] == map[VNum(b) := VNum(y)];
    MapUnfolds(P, U, U, data, 2, d1);
    ByteMapScan(P, data, d1, d2, d3, d4, a, b);
  }

  lemma ByteMapScan(P: Program, data: Bytes, d1: Bytes, d2: Bytes, d3: Bytes, d4: Bytes, a: Byte, b: Byte)
    requires ProgramOk(P) && Uvarint(data) == Some(Read(2, d1)) && data != [] && data[0] < 128
    requires d1 == [a] + d2 && |d2| == 3 && d3 == d2[1..] && d3 == [b] + d4 && |d4| == 1
    requires Get(P, Scalar(Uint8), d1).Some? && Get(P, Scalar(Uint8), d1).value.rest == d2
    requires Get(P, Scalar(Uint8), d2).Some? && Get(P, Scalar(Uint8), d2).value.rest == d3
    requires Get(P, Scalar(Uint8), d3).Some? && Get(P, Scalar(Uint8), d3).value.rest == d4
    ensures Canonical(P, Map(Scalar(Uint8), Scalar(Uint8)), data) <==> a < b
  {
    hide Get, ProgramOk, Uvarint;
    var U := Scalar(Uint8);
    assert Front(d1, d2) == [a] && Front(d3, d4) == [b];
    assert forall d :: Canonical(P, U, d);
    assert Below([a], [b]) <==> a < b;
    assert CanonicalEntries(P, U, U, 1, d3, Some([a])) <==> a < b;
    assert CanonicalEntries(P, U, U, 2, d1, None) <==> a < b;
  }
}
