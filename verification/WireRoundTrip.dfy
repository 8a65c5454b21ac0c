/** Decoding inverts encoding, for every type and every value within the
    decoder's limit on zero-size elements, and fails on every other value. */
module WireRoundTrip {
  import opened Foundation
  import opened WireFormat
  import opened WireTypes

  ghost function Outcome<T>(ok: bool, v: T, tail: Bytes): Option<Read<T>> {
    if ok then Some(Read(v, tail)) else None
  }

  /** Encode then decode: v comes back, and the bytes after it are untouched,
      exactly when v is within the decoder's limit. */
  lemma {:induction false} RoundTrip(P: Program, t: Type, v: Value, tail: Bytes)
    requires ProgramOk(P) && ContentKeys(P) && TypeOk(P, t) && HasType(P, t, v)
    ensures Get(P, t, Put(P, t, v) + tail) == Outcome(Capped(P, t, v), v, tail)
    decreases v, 2
  {
    match t
    case Scalar(k) => ScalarRoundTrip(k, v, tail);
    case Str => RawRoundTrip(v.bytes, tail);
    case Slice(e) =>
      if e == Scalar(Uint8) { RawRoundTrip(v.bytes, tail); } else { SliceRoundTrip(P, e, v.items, tail); }
    case Array(n, e) => ScalarsRoundTrip(e.kind, v.items, tail);
    case Map(k, e) => MapRoundTrip(P, k, e, v, tail);
    case Struct(s) =>
      assert forall i | 0 <= i < |P.structs[s]| :: FieldOk(P, s, P.structs[s][i]) && TypeOk(P, P.structs[s][i]);
      FieldsRoundTrip(P, P.structs[s], P.rank[s], v.fields, tail);
    case Pointer(e) =>
      if v.VRef? {
        RoundTrip(P, e, v.target, tail);
        assert (Put(P, t, v) + tail)[1..] == Put(P, e, v.target) + tail;
      } else {
        assert ([0] + tail)[1..] == tail;
      }
  }

  lemma Assoc(a: Bytes, b: Bytes, c: Bytes)
    ensures (a + b) + c == a + (b + c)
  {
  }

  lemma ScalarsUnfold(k: Kind, n: nat, data: Bytes, x: Value, rest: Bytes)
    requires n > 0 && GetScalar(k, data) == Some(Read(x, rest))
    ensures GetScalars(k, n, data) ==
            var r := GetScalars(k, n - 1, rest);
            if r.None? then None else Some(Read([x] + r.value.value, r.value.rest))
  {
    hide GetScalar;
  }

  lemma {:induction false} ScalarsRoundTrip(k: Kind, vs: seq<Value>, tail: Bytes)
    requires forall i | 0 <= i < |vs| :: ScalarValue(k, vs[i])
    ensures GetScalars(k, |vs|, PutScalars(k, vs) + tail) == Some(Read(vs, tail))
  {
    hide ScalarValue, PutScalar, GetScalar, GetScalars;
    if vs == [] {
      NoScalars(k, tail);
      assert PutScalars(k, vs) + tail == tail;
    } else {
      var p, q := PutScalar(k, vs[0]), PutScalars(k, vs[1..]);
      ScalarsRoundTrip(k, vs[1..], tail);
      ScalarRoundTrip(k, vs[0], q + tail);
      Assoc(p, q, tail);
      ScalarsUnfold(k, |vs|, p + (q + tail), vs[0], q + tail);
      assert vs == [vs[0]] + vs[1..];
    }
  }

  lemma NoScalars(k: Kind, data: Bytes)
    ensures GetScalars(k, 0, data) == Some(Read([], data))
  {
  }

  lemma SliceUnfolds(P: Program, e: Type, data: Bytes, n: nat, rest: Bytes)
    requires ProgramOk(P) && e != Scalar(Uint8) && Uvarint(data) == Some(Read(n, rest))
    ensures Get(P, Slice(e), data) ==
            if MinSize(P, e) == 0 && n > MaxZeroSizeCount then None
            else
              var r := GetItems(P, e, n, rest);
              if r.None? then None else Some(Read(VSeq(r.value.value), r.value.rest))
  {
    hide Uvarint, GetItems, MinSize, ProgramOk, ContentKeys;
  }

  lemma {:induction false} SliceRoundTrip(P: Program, e: Type, vs: seq<Value>, tail: Bytes)
    requires ProgramOk(P) && ContentKeys(P) && TypeOk(P, e) && e != Scalar(Uint8) && HasType(P, Slice(e), VSeq(vs))
    ensures Get(P, Slice(e), Put(P, Slice(e), VSeq(vs)) + tail) == Outcome(Capped(P, Slice(e), VSeq(vs)), VSeq(vs), tail)
    decreases vs, 2
  {
    hide AppendUvarint, Uvarint, MinSize, Rank, ProgramOk, ContentKeys, TypeOk, Get, GetItems, PutItems;
    var body := PutItems(P, e, vs);
    UvarintRoundTrip(|vs|, body + tail);
    ItemsRoundTrip(P, e, vs, tail);
    var data := Put(P, Slice(e), VSeq(vs)) + tail;
    assert data == AppendUvarint(|vs|) + (body + tail);
    SliceUnfolds(P, e, data, |vs|, body + tail);
    assert Capped(P, Slice(e), VSeq(vs)) <==> ((MinSize(P, e) == 0 ==> |vs| <= MaxZeroSizeCount) && ItemsCapped(P, e, vs));
  }

  ghost predicate ItemsCapped(P: Program, t: Type, vs: seq<Value>)
    requires ProgramOk(P)
  {
    forall i | 0 <= i < |vs| :: Capped(P, t, vs[i])
  }

  lemma {:induction false} ItemsRoundTrip(P: Program, t: Type, vs: seq<Value>, tail: Bytes)
    requires ProgramOk(P) && ContentKeys(P) && TypeOk(P, t) && forall i | 0 <= i < |vs| :: HasType(P, t, vs[i])
    ensures GetItems(P, t, |vs|, PutItems(P, t, vs) + tail) == Outcome(ItemsCapped(P, t, vs), vs, tail)
    decreases vs, 1
  {
    hide HasType, Put, Get, Rank, ProgramOk, ContentKeys, TypeOk, Capped;
    if vs == [] {
      assert PutItems(P, t, vs) + tail == tail;
    } else {
      RoundTrip(P, t, vs[0], PutItems(P, t, vs[1..]) + tail);
      ItemsRoundTrip(P, t, vs[1..], tail);
      assert PutItems(P, t, vs) + tail == Put(P, t, vs[0]) + (PutItems(P, t, vs[1..]) + tail);
      assert vs == [vs[0]] + vs[1..];
      assert ItemsCapped(P, t, vs) <==> Capped(P, t, vs[0]) && ItemsCapped(P, t, vs[1..]);
    }
  }

  lemma {:induction false} FieldsRoundTrip(P: Program, ts: seq<Type>, r: nat, vs: seq<Value>, tail: Bytes)
    requires ProgramOk(P) && ContentKeys(P) && HaveTypes(P, ts, vs)
    requires forall i | 0 <= i < |ts| :: Rank(P, ts[i]) <= r && TypeOk(P, ts[i])
    ensures GetFields(P, ts, r, PutFields(P, ts, vs) + tail) == Outcome(AllCapped(P, ts, vs), vs, tail)
    decreases vs, 1
  {
    hide HasType, Put, Get, Rank, ProgramOk, ContentKeys, TypeOk, Capped;
    if ts == [] {
      assert PutFields(P, ts, vs) + tail == tail;
    } else {
      RoundTrip(P, ts[0], vs[0], PutFields(P, ts[1..], vs[1..]) + tail);
      FieldsRoundTrip(P, ts[1..], r, vs[1..], tail);
      assert PutFields(P, ts, vs) + tail == Put(P, ts[0], vs[0]) + (PutFields(P, ts[1..], vs[1..]) + tail);
      assert vs == [vs[0]] + vs[1..];
    }
  }

  // ----- maps -----

  lemma {:induction false} AnyOrderIs<K>(s: set<K>)
    ensures NoDuplicates(AnyOrder(s)) && Elements(AnyOrder(s)) == s && |AnyOrder(s)| == |s|
  {
    if s != {} {
      var front, k := AnyOrder(s)[..|AnyOrder(s)| - 1], AnyOrder(s)[|AnyOrder(s)| - 1];
      assert k in s && front == AnyOrder(s - {k});
      AnyOrderIs(s - {k});
      assert Elements(AnyOrder(s)) == Elements(front) + {k};
      assert k !in Elements(front);
    }
  }

  lemma {:induction false} KeyIsCapped(P: Program, t: Type, r: nat, v: Value)
    requires ProgramOk(P) && IsKey(P, t, r)
    ensures Capped(P, t, v)
    decreases r, 1, 0
  {
    if t.Struct? && v.VStruct? {
      KeysAreCapped(P, P.structs[t.name], r - 1, v.fields);
    }
  }

  lemma {:induction false} KeysAreCapped(P: Program, ts: seq<Type>, r: nat, vs: seq<Value>)
    requires ProgramOk(P) && forall i | 0 <= i < |ts| :: IsKey(P, ts[i], r)
    ensures AllCapped(P, ts, vs)
    decreases r, 2, |vs|
  {
    if ts != [] && vs != [] {
      KeyIsCapped(P, ts[0], r, vs[0]);
      KeysAreCapped(P, ts[1..], r, vs[1..]);
    }
  }

  /** A type that may take no bytes always takes none. */
  lemma {:induction false} ZeroSizeIsEmpty(P: Program, t: Type, v: Value)
    requires ProgramOk(P) && HasType(P, t, v) && MinSize(P, t) == 0
    ensures Put(P, t, v) == []
    decreases v, 2
  {
    if t.Struct? {
      FieldsAreEmpty(P, P.structs[t.name], P.rank[t.name], v.fields);
    } else if t.Array? {
      assert Size(t.elem.kind) > 0;
      NonlinearZero(t.len, Size(t.elem.kind));
    }
  }

  lemma NonlinearZero(a: nat, b: nat)
    requires a * b == 0 && b > 0
    ensures a == 0
  {
  }

  lemma {:induction false} FieldsAreEmpty(P: Program, ts: seq<Type>, r: nat, vs: seq<Value>)
    requires ProgramOk(P) && HaveTypes(P, ts, vs) && forall i | 0 <= i < |ts| :: Rank(P, ts[i]) <= r
    requires MinSizes(P, ts, r) == 0
    ensures PutFields(P, ts, vs) == []
    decreases vs, 1
  {
    if ts != [] {
      ZeroSizeIsEmpty(P, ts[0], vs[0]);
      FieldsAreEmpty(P, ts[1..], r, vs[1..]);
    }
  }

  ghost function KeyBytes(P: Program, k: Type, m: map<Value, Value>): map<Value, Bytes> {
    map x | x in m :: Put(P, k, x)
  }

  ghost function ValueBytes(P: Program, e: Type, m: map<Value, Value>): map<Value, Bytes> {
    map x | x in m :: Put(P, e, m[x])
  }

  /** Distinct keys have distinct encodings. */
  lemma {:induction false} KeysInjective(P: Program, k: Type, v: Value)
    requires ProgramOk(P) && ContentKeys(P) && TypeOk(P, k) && IsKey(P, k, Rank(P, k)) && v.VMap? && forall x | x in v.entries :: HasType(P, k, x)
    ensures Injective(KeyBytes(P, k, v.entries))
    decreases v, 0
  {
    hide HasType, Put, Get, Rank, ProgramOk, ContentKeys, TypeOk, Capped, IsKey;
    var e := KeyBytes(P, k, v.entries);
    forall a, b | a in e && b in e && e[a] == e[b] ensures a == b {
      RoundTrip(P, k, a, []);
      RoundTrip(P, k, b, []);
      KeyIsCapped(P, k, Rank(P, k), a);
      KeyIsCapped(P, k, Rank(P, k), b);
    }
  }

  /** Keys that take no bytes leave room for one entry only. */
  lemma ZeroSizeMapIsSmall(P: Program, k: Type, v: Value)
    requires ProgramOk(P) && v.VMap? && (forall x | x in v.entries :: HasType(P, k, x)) && MinSize(P, k) == 0
    requires Injective(KeyBytes(P, k, v.entries))
    ensures |v.entries| <= 1
  {
    hide HasType, Put, Get, Rank, ProgramOk, ContentKeys;
    var m := v.entries;
    if m != map[] {
      var a :| a in m;
      forall b | b in m ensures b == a {
        ZeroSizeIsEmpty(P, k, a);
        ZeroSizeIsEmpty(P, k, b);
        var e := KeyBytes(P, k, m);
        assert e[a] == e[b];
      }
      assert m.Keys == {a};
    }
    assert |m| == |m.Keys|;
  }

  ghost predicate EntriesCapped(P: Program, e: Type, m: map<Value, Value>, ks: seq<Value>)
    requires ProgramOk(P) && forall x | x in ks :: x in m
  {
    forall x | x in ks :: Capped(P, e, m[x])
  }

  ghost function Restrict(m: map<Value, Value>, ks: seq<Value>): map<Value, Value> {
    map x | x in ks && x in m :: m[x]
  }

  lemma EntriesStep(P: Program, k: Type, e: Type, n: nat, data: Bytes, x: Value, y: Value, afterKey: Bytes, more: Bytes,
                    ok: bool, okRest: bool, others: map<Value, Value>, tail: Bytes)
    requires ProgramOk(P) && n > 0 && Get(P, k, data) == Some(Read(x, afterKey))
    requires Get(P, e, afterKey) == Outcome(ok, y, more)
    requires ok ==> GetEntries(P, k, e, n - 1, more) == Outcome(okRest, others, tail)
    ensures GetEntries(P, k, e, n, data) == Outcome(ok && okRest, map[x := y] + others, tail)
  {
    hide Get, ProgramOk, ContentKeys, Rank;
  }

  lemma {:induction false} EntriesRoundTrip(P: Program, k: Type, e: Type, v: Value, ks: seq<Value>, tail: Bytes)
    requires ProgramOk(P) && ContentKeys(P) && TypeOk(P, k) && TypeOk(P, e) && IsKey(P, k, Rank(P, k)) && v.VMap?
    requires NoDuplicates(ks) && forall x | x in ks :: x in v.entries
    requires forall x | x in v.entries :: HasType(P, k, x) && HasType(P, e, v.entries[x])
    ensures GetEntries(P, k, e, |ks|, PutEntries(ks, KeyBytes(P, k, v.entries), ValueBytes(P, e, v.entries)) + tail)
            == Outcome(EntriesCapped(P, e, v.entries, ks), Restrict(v.entries, ks), tail)
    decreases v, 0, |ks|
  {
    hide HasType, Put, Get, Rank, ProgramOk, ContentKeys, TypeOk, Capped, IsKey, GetEntries, PutEntries, Restrict, EntriesCapped;
    var m, kb, vb := v.entries, KeyBytes(P, k, v.entries), ValueBytes(P, e, v.entries);
    if ks == [] {
      NoEntries(P, k, e, m, kb, vb, tail);
    } else {
      var x, rest := ks[0], ks[1..];
      var more := PutEntries(rest, kb, vb) + tail;
      PutEntriesSplit(ks, kb, vb, tail);
      RoundTrip(P, k, x, Put(P, e, m[x]) + more);
      KeyIsCapped(P, k, Rank(P, k), x);
      RoundTrip(P, e, m[x], more);
      EntriesRoundTrip(P, k, e, v, rest, tail);
      EntriesStep(P, k, e, |ks|, Put(P, k, x) + (Put(P, e, m[x]) + more), x, m[x], Put(P, e, m[x]) + more, more,
                  Capped(P, e, m[x]), EntriesCapped(P, e, m, rest), Restrict(m, rest), tail);
      FirstEntry(P, e, m, ks);
    }
  }

  lemma NoEntries(P: Program, k: Type, e: Type, m: map<Value, Value>, kb: map<Value, Bytes>, vb: map<Value, Bytes>, tail: Bytes)
    requires ProgramOk(P)
    ensures GetEntries(P, k, e, 0, PutEntries([], kb, vb) + tail)
            == Outcome(EntriesCapped(P, e, m, []), Restrict(m, []), tail)
  {
    assert PutEntries([], kb, vb) + tail == tail;
    assert Restrict(m, []) == map[];
  }

  lemma PutEntriesSplit(ks: seq<Value>, kb: map<Value, Bytes>, vb: map<Value, Bytes>, tail: Bytes)
    requires ks != [] && ks[0] in kb && ks[0] in vb
    ensures PutEntries(ks, kb, vb) + tail == kb[ks[0]] + (vb[ks[0]] + (PutEntries(ks[1..], kb, vb) + tail))
  {
    var p, q, r := kb[ks[0]], vb[ks[0]], PutEntries(ks[1..], kb, vb);
    Assoc(p + q, r, tail);
    Assoc(p, q, r + tail);
  }

  lemma FirstEntry(P: Program, e: Type, m: map<Value, Value>, ks: seq<Value>)
    requires ProgramOk(P) && ks != [] && NoDuplicates(ks) && forall x | x in ks :: x in m
    ensures EntriesCapped(P, e, m, ks) <==> Capped(P, e, m[ks[0]]) && EntriesCapped(P, e, m, ks[1..])
    ensures Restrict(m, ks) == map[ks[0] := m[ks[0]]] + Restrict(m, ks[1..])
  {
    hide Capped, ProgramOk, ContentKeys;
    assert ks == [ks[0]] + ks[1..];
  }

  lemma MapUnfolds(P: Program, k: Type, e: Type, data: Bytes, n: nat, rest: Bytes)
    requires ProgramOk(P) && Uvarint(data) == Some(Read(n, rest))
    ensures Get(P, Map(k, e), data) ==
            if MinSize(P, k) + MinSize(P, e) == 0 && n > MaxZeroSizeCount then None
            else
              var r := GetEntries(P, k, e, n, rest);
              if r.None? then None else Some(Read(VMap(r.value.value), r.value.rest))
  {
    hide Uvarint, GetEntries, MinSize, ProgramOk, ContentKeys;
  }

  /** The keys of a map in the order they are written. */
  ghost function WrittenOrder(P: Program, k: Type, m: map<Value, Value>): seq<Value> {
    SortKeys(AnyOrder(m.Keys), KeyBytes(P, k, m))
  }

  lemma WrittenOrderIs(P: Program, k: Type, m: map<Value, Value>)
    requires Injective(KeyBytes(P, k, m))
    ensures var ks := WrittenOrder(P, k, m);
            Sorted(ks, KeyBytes(P, k, m)) && NoDuplicates(ks) && Elements(ks) == m.Keys && |ks| == |m|
  {
    hide Put, SortKeys, Injective, Sorted;
    var kb := KeyBytes(P, k, m);
    assert kb.Keys == m.Keys;
    AnyOrderIs(m.Keys);
    SortKeysIs(AnyOrder(m.Keys), kb);
    SortedDistinct(SortKeys(AnyOrder(m.Keys), kb), kb);
    assert |m.Keys| == |m|;
  }

  lemma PutMapIs(P: Program, k: Type, e: Type, v: Value)
    requires v.VMap?
    ensures Put(P, Map(k, e), v) == AppendUvarint(|v.entries|) +
            PutEntries(WrittenOrder(P, k, v.entries), KeyBytes(P, k, v.entries), ValueBytes(P, e, v.entries))
  {
    hide AppendUvarint, PutEntries, SortKeys;
    var m := v.entries;
    assert KeyBytes(P, k, m).Keys == m.Keys;
    assert |KeyBytes(P, k, m)| == |KeyBytes(P, k, m).Keys| == |m.Keys| == |m|;
  }

  lemma {:induction false} MapRoundTrip(P: Program, k: Type, e: Type, v: Value, tail: Bytes)
    requires ProgramOk(P) && ContentKeys(P) && TypeOk(P, Map(k, e)) && HasType(P, Map(k, e), v)
    ensures Get(P, Map(k, e), Put(P, Map(k, e), v) + tail) == Outcome(Capped(P, Map(k, e), v), v, tail)
    decreases v, 1
  {
    hide AppendUvarint, Uvarint, MinSize, Rank, ProgramOk, ContentKeys, WrittenOrder, IsKey, PutEntries, GetEntries, Get, Put, KeyBytes,
         ValueBytes, Injective, Sorted;
    var m, ks := v.entries, WrittenOrder(P, k, v.entries);
    KeysInjective(P, k, v);
    WrittenOrderIs(P, k, m);
    PutMapIs(P, k, e, v);
    var body := PutEntries(ks, KeyBytes(P, k, m), ValueBytes(P, e, m));
    var data := Put(P, Map(k, e), v) + tail;
    assert data == AppendUvarint(|m|) + (body + tail);
    UvarintRoundTrip(|m|, body + tail);
    MapUnfolds(P, k, e, data, |m|, body + tail);
    if MinSize(P, k) + MinSize(P, e) == 0 { ZeroSizeMapIsSmall(P, k, v); }
    WholeMap(m, ks);
    EntriesRoundTrip(P, k, e, v, ks, tail);
    assert Capped(P, Map(k, e), v) <==> EntriesCapped(P, e, m, ks);
  }

  lemma WholeMap(m: map<Value, Value>, ks: seq<Value>)
    requires Elements(ks) == m.Keys
    ensures Restrict(m, ks) == m && forall x :: x in ks <==> x in m
  {
    assert forall x :: x in ks <==> x in Elements(ks);
  }
}
