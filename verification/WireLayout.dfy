/** The wire format itself: which bytes a value of each type is, written down
    independently of any encoder, and the proof that the encoder writes exactly
    those. */
module WireLayout {
  import opened Foundation
  import opened WireFormat
  import opened WireTypes
  import opened WireRoundTrip
  import opened WirePlan
  import opened WireCorrect
  import opened WireSafety

  // ----- digits -----

  function Power(base: nat, i: nat): nat {
    if i == 0 then 1 else base * Power(base, i - 1)
  }

  lemma {:induction false} PowerPositive(base: nat, i: nat)
    requires base > 0
    ensures Power(base, i) > 0
  {
    if i > 0 { PowerPositive(base, i - 1); }
  }

  /** Digit i of n, the least significant first. */
  function Digit(n: nat, base: nat, i: nat): nat
    requires base > 0
  {
    PowerPositive(base, i);
    n / Power(base, i) % base
  }

  /** Little-endian: byte i is digit i. */
  predicate IsWord(b: Bytes, w: nat) {
    forall i | 0 <= i < |b| :: b[i] == Digit(w, 256, i)
  }

  /** Seven bits per byte, the least significant first, every byte but the last
      marked by its high bit, and no superfluous last byte. */
  predicate IsUvarint(b: Bytes, n: nat) {
    && b != []
    && (forall i | 0 <= i < |b| - 1 :: b[i] == 128 + Digit(n, 128, i))
    && (PowerPositive(128, |b| - 1); b[|b| - 1] == n / Power(128, |b| - 1) && b[|b| - 1] < 128)
    && (|b| > 1 ==> b[|b| - 1] > 0)
  }

  /** Dictionary order: at the first difference the smaller byte, or the end,
      comes first. */
  ghost predicate Earlier(a: Bytes, b: Bytes) {
    exists i: nat :: EarlierAt(a, b, i)
  }

  predicate EarlierAt(a: Bytes, b: Bytes, i: nat) {
    i <= |a| && i < |b| && a[..i] == b[..i] && (i == |a| || a[i] < b[i])
  }

  // ----- the format -----

  /** The width a kind's name states, in bytes. */
  function Width(k: Kind): nat {
    match k
    case Bool => 1
    case Int8 => 8 / 8
    case Uint8 => 8 / 8
    case Int16 => 16 / 8
    case Uint16 => 16 / 8
    case Int32 => 32 / 8
    case Uint32 => 32 / 8
    case Float32 => 32 / 8
    case Int64 => 64 / 8
    case Uint64 => 64 / 8
    case Float64 => 64 / 8
  }

  /** A bool is the byte 0 or 1; a number its word, negative ones in two's
      complement. */
  predicate ScalarLayout(k: Kind, v: Value, b: Bytes) {
    if k == Bool then v.VBool? && b == (if v.flag then [1] else [0])
    else v.VNum? && |b| == Width(k) && (PowerPositive(256, Width(k)); IsWord(b, v.num % Power(256, Width(k))))
  }

  function Concat(parts: seq<Bytes>): Bytes {
    if parts == [] then [] else parts[0] + Concat(parts[1..])
  }

  /** b is the wire form of v at type t: counts before elements, elements,
      fields and array items in order with nothing between, pointers behind a
      presence byte, maps as key and value pairs in dictionary order of the keys. */
  ghost predicate Layout(P: Program, t: Type, v: Value, b: Bytes)
    decreases v, 0
  {
    match t
    case Scalar(k) => ScalarLayout(k, v, b)
    case Str => v.VBytes? && exists c :: IsUvarint(c, |v.bytes|) && b == c + v.bytes
    case Slice(e) =>
      if e == Scalar(Uint8) then v.VBytes? && exists c :: IsUvarint(c, |v.bytes|) && b == c + v.bytes
      else v.VSeq? && exists c, parts :: IsUvarint(c, |v.items|) && Items(P, e, v.items, parts) && b == c + Concat(parts)
    case Array(n, e) =>
      e.Scalar? && v.VSeq? && |v.items| == n && exists parts :: Scalars(e.kind, v.items, parts) && b == Concat(parts)
    case Map(k, e) =>
      v.VMap? && exists c, rows :: IsUvarint(c, |v.entries|) && Entries(P, k, e, v, rows) && b == c + Concat(RowBytes(rows))
    case Struct(s) =>
      v.VStruct? && s in P.structs && exists parts :: Fields(P, P.structs[s], v.fields, parts) && b == Concat(parts)
    case Pointer(e) => if v.VRef? then b != [] && b[0] == 1 && Layout(P, e, v.target, b[1..]) else v == VNil && b == [0]
    case Unsupported => false
  }

  ghost predicate Items(P: Program, t: Type, vs: seq<Value>, parts: seq<Bytes>)
    decreases vs, 1
  {
    |parts| == |vs| && forall i | 0 <= i < |vs| :: Layout(P, t, vs[i], parts[i])
  }

  predicate Scalars(k: Kind, vs: seq<Value>, parts: seq<Bytes>) {
    |parts| == |vs| && forall i | 0 <= i < |vs| :: ScalarLayout(k, vs[i], parts[i])
  }

  ghost predicate Fields(P: Program, ts: seq<Type>, vs: seq<Value>, parts: seq<Bytes>)
    decreases vs, 1
  {
    |parts| == |vs| == |ts| && forall i | 0 <= i < |vs| :: Layout(P, ts[i], vs[i], parts[i])
  }

  /** A key of a map, its wire form, and that of its value. */
  datatype Row = Row(key: Value, kb: Bytes, vb: Bytes)

  function RowBytes(rows: seq<Row>): seq<Bytes> {
    seq(|rows|, i requires 0 <= i < |rows| => rows[i].kb + rows[i].vb)
  }

  function RowKeys(rows: seq<Row>): seq<Value> {
    seq(|rows|, i requires 0 <= i < |rows| => rows[i].key)
  }

  /** The rows of v, each key once, in dictionary order of the encoded keys. */
  ghost predicate Entries(P: Program, k: Type, e: Type, v: Value, rows: seq<Row>)
    requires v.VMap?
    decreases v, -1
  {
    && NoDuplicates(RowKeys(rows)) && Elements(RowKeys(rows)) == v.entries.Keys
    && (forall i | 0 <= i < |rows| ::
          && rows[i].key in v.entries
          && Layout(P, k, rows[i].key, rows[i].kb) && Layout(P, e, v.entries[rows[i].key], rows[i].vb))
    && (forall i, j | 0 <= i < j < |rows| :: Earlier(rows[i].kb, rows[j].kb))
  }

  // ----- words, uvarints and order are what the encoder writes -----

  lemma {:induction false} DigitStep(n: nat, base: nat, i: nat)
    requires base > 0 && i > 0
    ensures Digit(n, base, i) == Digit(n / base, base, i - 1)
  {
    PowerPositive(base, i - 1);
    DivTwice(n, base, Power(base, i - 1));
  }

  lemma DivTwice(n: nat, a: nat, b: nat)
    requires a > 0 && b > 0
    ensures a * b > 0 && n / (a * b) == n / a / b
  {
    var q, r := n / a, n % a;
    var q2, r2 := q / b, q % b;
    assert n == q * a + r;
    assert q == q2 * b + r2;
    Regroup(q, q2, b, r2, a);
    QuotientStep(b, r2, a);
    DivUnique(n, b * a, q2, r2 * a + r);
  }

  lemma Regroup(q: nat, q2: nat, b: nat, r2: nat, a: nat)
    requires q == q2 * b + r2
    ensures q * a == q2 * (b * a) + r2 * a
  {
    assert (q2 * b + r2) * a == q2 * b * a + r2 * a;
  }

  lemma DivUnique(x: nat, n: nat, q: nat, r: nat)
    requires n > 0 && x == q * n + r && r < n
    ensures x / n == q && x % n == r
  {
    var q2, r2 := x / n, x % n;
    assert x == q2 * n + r2;
    if q2 > q {
      QuotientStep(q2, q, n);
    } else if q2 < q {
      QuotientStep(q, q2, n);
    }
  }

  /** Byte i of an encoded word is (w / 256^i) mod 256. */
  lemma {:induction false} WordBytes(w: nat, size: nat, i: nat)
    requires i < size
    ensures PutWord(w, size)[i] == Digit(w, 256, i)
  {
    if i == 0 {
      assert Power(256, 0) == 1;
    } else {
      WordBytes(w / 256, size - 1, i - 1);
      DigitStep(w, 256, i);
    }
  }

  lemma WordIs(b: Bytes, w: nat)
    ensures IsWord(b, w) <==> b == PutWord(w, |b|)
  {
    forall i | 0 <= i < |b| ensures PutWord(w, |b|)[i] == Digit(w, 256, i) {
      WordBytes(w, |b|, i);
    }
  }

  lemma {:induction false} PowerIs(size: nat)
    ensures Power(256, size) == Pow256(size)
  {
    if size > 0 { PowerIs(size - 1); }
  }

  /** Group i of an encoded count is (n / 128^i) mod 128. */
  lemma {:induction false} UvarintBytes(n: nat)
    ensures IsUvarint(AppendUvarint(n), n)
  {
    var b := AppendUvarint(n);
    PowerPositive(128, |b| - 1);
    if n < 128 {
      assert Power(128, 0) == 1;
    } else {
      var rest := AppendUvarint(n / 128);
      UvarintBytes(n / 128);
      PowerPositive(128, |rest| - 1);
      forall i | 0 <= i < |b| - 1 ensures b[i] == 128 + Digit(n, 128, i) {
        if i == 0 { assert Power(128, 0) == 1; } else { DigitStep(n, 128, i); }
      }
      DivTwice(n, 128, Power(128, |rest| - 1));
      if |rest| == 1 { assert Power(128, 0) == 1; }
    }
  }

  lemma {:induction false} UvarintUnique(b: Bytes, n: nat)
    requires IsUvarint(b, n)
    ensures b == AppendUvarint(n)
    decreases |b|
  {
    PowerPositive(128, |b| - 1);
    if |b| == 1 {
      assert Power(128, 0) == 1;
    } else {
      var rest := b[1..];
      PowerPositive(128, |rest| - 1);
      DivTwice(n, 128, Power(128, |rest| - 1));
      forall i | 0 <= i < |rest| - 1 ensures rest[i] == 128 + Digit(n / 128, 128, i) {
        DigitStep(n, 128, i + 1);
      }
      assert IsUvarint(rest, n / 128) by {
        if |rest| == 1 { assert Power(128, 0) == 1; }
      }
      UvarintUnique(rest, n / 128);
      NotSmall(n, b, rest);
      assert b[0] == 128 + Digit(n, 128, 0) && Power(128, 0) == 1;
      assert b == [b[0]] + rest;
    }
  }

  lemma ZeroUvarint(b: Bytes)
    requires IsUvarint(b, 0)
    ensures b[|b| - 1] == 0
  {
    PowerPositive(128, |b| - 1);
  }

  lemma NotSmall(n: nat, b: Bytes, rest: Bytes)
    requires |b| > 1 && rest == b[1..] && IsUvarint(rest, n / 128) && b[|b| - 1] > 0
    ensures n >= 128
  {
    if n / 128 == 0 { ZeroUvarint(rest); }
  }

  lemma UvarintIs(b: Bytes, n: nat)
    ensures IsUvarint(b, n) <==> b == AppendUvarint(n)
  {
    UvarintBytes(n);
    if IsUvarint(b, n) { UvarintUnique(b, n); }
  }

  lemma AgreeFirst(a: Bytes, b: Bytes, i: nat)
    requires EarlierAt(a, b, i) && i > 0
    ensures a != [] && b != [] && a[0] == b[0]
  {
    assert a[..i][0] == a[0] && b[..i][0] == b[0];
  }

  lemma {:induction false} EarlierIs(a: Bytes, b: Bytes)
    ensures Earlier(a, b) <==> Below(a, b)
  {
    if a == [] || b == [] || a[0] != b[0] {
      if Below(a, b) { assert EarlierAt(a, b, 0); }
      if i: nat :| EarlierAt(a, b, i) {
        if i > 0 { AgreeFirst(a, b, i); }
      }
    } else {
      EarlierIs(a[1..], b[1..]);
      if Below(a, b) {
        var i: nat :| EarlierAt(a[1..], b[1..], i);
        assert a[..i + 1] == [a[0]] + a[1..][..i] && b[..i + 1] == [b[0]] + b[1..][..i];
        assert EarlierAt(a, b, i + 1);
      }
      if i: nat :| EarlierAt(a, b, i) {
        assert i > 0;
        assert a[1..][..i - 1] == a[..i][1..] && b[1..][..i - 1] == b[..i][1..];
        assert EarlierAt(a[1..], b[1..], i - 1);
      }
    }
  }

  lemma WidthIs(k: Kind)
    ensures Width(k) == Size(k) > 0 && Power(256, Width(k)) == Pow256(Size(k))
  {
    PowerIs(Size(k));
  }

  lemma ScalarIs(k: Kind, v: Value, b: Bytes)
    requires ScalarValue(k, v)
    ensures ScalarLayout(k, v, b) <==> b == PutScalar(k, v)
  {
    hide Width, Size, Pow256, Power, PutWord, IsWord;
    WidthIs(k);
    PowerPositive(256, Width(k));
    if k != Bool {
      SpanEven(Size(k));
      TwosComplement(v.num, Pow256(Size(k)));
      WordIs(b, v.num % Pow256(Size(k)));
      assert |PutScalar(k, v)| == Size(k);
    }
  }

  lemma TwosComplement(n: int, span: int)
    requires span > 0 && -span <= n < span
    ensures n % span == if n < 0 then n + span else n
  {
  }

  // ----- the encoder writes the format, and nothing else is in the format -----

  ghost function ItemParts(P: Program, t: Type, vs: seq<Value>): seq<Bytes> {
    seq(|vs|, i requires 0 <= i < |vs| => Put(P, t, vs[i]))
  }

  ghost function FieldParts(P: Program, ts: seq<Type>, vs: seq<Value>): seq<Bytes>
    requires |ts| == |vs|
  {
    seq(|vs|, i requires 0 <= i < |vs| => Put(P, ts[i], vs[i]))
  }

  function ScalarParts(k: Kind, vs: seq<Value>): seq<Bytes> {
    seq(|vs|, i requires 0 <= i < |vs| => PutScalar(k, vs[i]))
  }

  lemma {:induction false} ConcatItems(P: Program, t: Type, vs: seq<Value>)
    ensures Concat(ItemParts(P, t, vs)) == PutItems(P, t, vs)
  {
    hide Put;
    if vs != [] {
      ConcatItems(P, t, vs[1..]);
      assert ItemParts(P, t, vs)[1..] == ItemParts(P, t, vs[1..]);
    }
  }

  lemma {:induction false} ConcatFields(P: Program, ts: seq<Type>, vs: seq<Value>)
    requires |ts| == |vs|
    ensures Concat(FieldParts(P, ts, vs)) == PutFields(P, ts, vs)
  {
    hide Put;
    if vs != [] {
      ConcatFields(P, ts[1..], vs[1..]);
      assert FieldParts(P, ts, vs)[1..] == FieldParts(P, ts[1..], vs[1..]);
    }
  }

  lemma {:induction false} ConcatScalars(k: Kind, vs: seq<Value>)
    ensures Concat(ScalarParts(k, vs)) == PutScalars(k, vs)
  {
    hide PutScalar;
    if vs != [] {
      ConcatScalars(k, vs[1..]);
      assert ScalarParts(k, vs)[1..] == ScalarParts(k, vs[1..]);
    }
  }

  lemma {:induction false} FieldTypes(P: Program, ts: seq<Type>, vs: seq<Value>, i: nat)
    requires HaveTypes(P, ts, vs) && i < |vs|
    ensures |ts| == |vs| && HasType(P, ts[i], vs[i])
  {
    if i > 0 { FieldTypes(P, ts[1..], vs[1..], i - 1); }
  }

  /** The encoding of a value is the one and only byte string the format gives it. */
  lemma {:induction false} EncodingIsLayout(P: Program, t: Type, v: Value, b: Bytes)
    requires ProgramOk(P) && ContentKeys(P) && TypeOk(P, t) && HasType(P, t, v)
    ensures Layout(P, t, v, b) <==> b == Put(P, t, v)
    decreases v, 2
  {
    hide IsUvarint, AppendUvarint, ScalarLayout, PutScalar, PutScalars, PutItems, PutFields, PutMap, Items, Entries, Scalars, Concat, ScalarValue;
    match t
    case Scalar(k) => ScalarIs(k, v, b);
    case Str => RawIs(v.bytes, b);
    case Slice(e) => if e == Scalar(Uint8) { RawIs(v.bytes, b); } else { SliceIs(P, e, v.items, b); }
    case Array(n, e) => ArrayIs(P, e.kind, v, b);
    case Map(k, e) => MapIs(P, k, e, v, b);
    case Struct(s) =>
      StructIs(P, s, v, b);
    case Pointer(e) =>
      if v.VRef? {
        if b != [] { EncodingIsLayout(P, e, v.target, b[1..]); }
        assert b != [] && b[0] == 1 ==> b == [1] + b[1..];
        assert ([1] + Put(P, e, v.target))[1..] == Put(P, e, v.target);
      }
  }

  lemma RawIs(bytes: Bytes, b: Bytes)
    ensures (exists c :: IsUvarint(c, |bytes|) && b == c + bytes) <==> b == PutRaw(bytes)
  {
    hide IsUvarint, AppendUvarint;
    UvarintIs(AppendUvarint(|bytes|), |bytes|);
    if c :| IsUvarint(c, |bytes|) && b == c + bytes { UvarintIs(c, |bytes|); }
  }

  lemma ArrayIs(P: Program, k: Kind, v: Value, b: Bytes)
    requires v.VSeq? && forall i | 0 <= i < |v.items| :: ScalarValue(k, v.items[i])
    ensures (exists parts :: Scalars(k, v.items, parts) && b == Concat(parts)) <==> b == PutScalars(k, v.items)
  {
    hide ScalarLayout, PutScalar, ScalarValue, Concat;
    var vs := v.items;
    ConcatScalars(k, vs);
    assert Scalars(k, vs, ScalarParts(k, vs)) by {
      forall i | 0 <= i < |vs| ensures ScalarLayout(k, vs[i], PutScalar(k, vs[i])) { ScalarIs(k, vs[i], PutScalar(k, vs[i])); }
    }
    if parts :| Scalars(k, vs, parts) && b == Concat(parts) {
      forall i | 0 <= i < |vs| ensures parts[i] == ScalarParts(k, vs)[i] { ScalarIs(k, vs[i], parts[i]); }
      assert parts == ScalarParts(k, vs);
    }
  }

  lemma {:induction false} ItemsAre(P: Program, t: Type, vs: seq<Value>, parts: seq<Bytes>)
    requires ProgramOk(P) && ContentKeys(P) && TypeOk(P, t) && forall i | 0 <= i < |vs| :: HasType(P, t, vs[i])
    ensures Items(P, t, vs, parts) <==> parts == ItemParts(P, t, vs)
    decreases vs, 1
  {
    hide ProgramOk, ContentKeys, TypeOk, HasType, Layout, Put;
    if |parts| == |vs| {
      forall i | 0 <= i < |vs| ensures Layout(P, t, vs[i], parts[i]) <==> parts[i] == ItemParts(P, t, vs)[i] {
        EncodingIsLayout(P, t, vs[i], parts[i]);
      }
      if Items(P, t, vs, parts) { assert parts == ItemParts(P, t, vs); }
    }
  }

  lemma {:induction false} SliceIs(P: Program, e: Type, vs: seq<Value>, b: Bytes)
    requires ProgramOk(P) && ContentKeys(P) && TypeOk(P, e) && e != Scalar(Uint8) && HasType(P, Slice(e), VSeq(vs))
    ensures Layout(P, Slice(e), VSeq(vs), b) <==> b == Put(P, Slice(e), VSeq(vs))
    decreases vs, 2
  {
    hide ProgramOk, ContentKeys, TypeOk, IsUvarint, AppendUvarint, Concat, PutItems, ItemParts;
    UvarintIs(AppendUvarint(|vs|), |vs|);
    ItemsAre(P, e, vs, ItemParts(P, e, vs));
    ConcatItems(P, e, vs);
    if Layout(P, Slice(e), VSeq(vs), b) {
      var c, parts :| IsUvarint(c, |vs|) && Items(P, e, vs, parts) && b == c + Concat(parts);
      UvarintIs(c, |vs|);
      ItemsAre(P, e, vs, parts);
    }
    assert Items(P, e, vs, ItemParts(P, e, vs));
  }

  lemma {:induction false} FieldsAre(P: Program, ts: seq<Type>, vs: seq<Value>, parts: seq<Bytes>)
    requires ProgramOk(P) && ContentKeys(P) && HaveTypes(P, ts, vs) && forall i | 0 <= i < |ts| :: TypeOk(P, ts[i])
    ensures |ts| == |vs| && (Fields(P, ts, vs, parts) <==> parts == FieldParts(P, ts, vs))
    decreases vs, 1
  {
    hide ProgramOk, ContentKeys, TypeOk, HasType, Layout, Put;
    if |parts| == |vs| {
      forall i | 0 <= i < |vs| ensures Layout(P, ts[i], vs[i], parts[i]) <==> parts[i] == FieldParts(P, ts, vs)[i] {
        FieldTypes(P, ts, vs, i);
        EncodingIsLayout(P, ts[i], vs[i], parts[i]);
      }
      if Fields(P, ts, vs, parts) { assert parts == FieldParts(P, ts, vs); }
    }
  }

  lemma {:induction false} StructIs(P: Program, s: Name, v: Value, b: Bytes)
    requires ProgramOk(P) && ContentKeys(P) && HasType(P, Struct(s), v)
    ensures Layout(P, Struct(s), v, b) <==> b == Put(P, Struct(s), v)
    decreases v, 1
  {
    hide ProgramOk, TypeOk, Concat, PutFields;
    var ts, vs := P.structs[s], v.fields;
    assert forall i | 0 <= i < |ts| :: TypeOk(P, ts[i]);
    FieldsAre(P, ts, vs, FieldParts(P, ts, vs));
    ConcatFields(P, ts, vs);
    if Layout(P, Struct(s), v, b) {
      var parts :| Fields(P, P.structs[s], v.fields, parts) && b == Concat(parts);
      FieldsAre(P, ts, vs, parts);
    }
    assert Fields(P, P.structs[s], v.fields, FieldParts(P, ts, vs));
  }

  // ----- maps -----

  ghost function RowsOf(P: Program, k: Type, e: Type, m: map<Value, Value>, ks: seq<Value>): seq<Row>
    requires forall x | x in ks :: x in m
  {
    seq(|ks|, i requires 0 <= i < |ks| => Row(ks[i], Put(P, k, ks[i]), Put(P, e, m[ks[i]])))
  }

  lemma {:induction false} ConcatRows(P: Program, k: Type, e: Type, m: map<Value, Value>, ks: seq<Value>)
    requires forall x | x in ks :: x in m
    ensures Concat(RowBytes(RowsOf(P, k, e, m, ks))) == PutEntries(ks, KeyBytes(P, k, m), ValueBytes(P, e, m))
  {
    hide Put;
    if ks != [] {
      ConcatRows(P, k, e, m, ks[1..]);
      var rows := RowsOf(P, k, e, m, ks);
      assert rows[1..] == RowsOf(P, k, e, m, ks[1..]);
      assert RowBytes(rows)[1..] == RowBytes(rows[1..]);
      assert RowBytes(rows)[0] == Put(P, k, ks[0]) + Put(P, e, m[ks[0]]);
    }
  }

  lemma OrderIs(P: Program, k: Type, m: map<Value, Value>, rows: seq<Row>)
    requires forall i | 0 <= i < |rows| :: rows[i].key in m && rows[i].kb == Put(P, k, rows[i].key)
    ensures (forall i, j | 0 <= i < j < |rows| :: Earlier(rows[i].kb, rows[j].kb)) <==> Sorted(RowKeys(rows), KeyBytes(P, k, m))
  {
    hide Put, Earlier, Below;
    var kb, ks := KeyBytes(P, k, m), RowKeys(rows);
    forall i, j | 0 <= i < j < |rows| ensures Earlier(rows[i].kb, rows[j].kb) <==> Precedes(kb, ks[i], ks[j]) {
      EarlierIs(rows[i].kb, rows[j].kb);
    }
  }

  lemma {:induction false} RowIs(P: Program, k: Type, e: Type, v: Value, row: Row)
    requires ProgramOk(P) && ContentKeys(P) && TypeOk(P, k) && TypeOk(P, e) && v.VMap? && row.key in v.entries
    requires HasType(P, k, row.key) && HasType(P, e, v.entries[row.key])
    ensures Layout(P, k, row.key, row.kb) <==> row.kb == Put(P, k, row.key)
    ensures Layout(P, e, v.entries[row.key], row.vb) <==> row.vb == Put(P, e, v.entries[row.key])
    decreases v, -1
  {
    hide ProgramOk, ContentKeys, TypeOk, HasType, Layout, Put;
    EncodingIsLayout(P, k, row.key, row.kb);
    EncodingIsLayout(P, e, v.entries[row.key], row.vb);
  }

  /** The only way to lay out a map is in the order of its encoded keys. */
  lemma {:induction false} EntriesAre(P: Program, k: Type, e: Type, v: Value, rows: seq<Row>)
    requires ProgramOk(P) && ContentKeys(P) && TypeOk(P, k) && TypeOk(P, e) && v.VMap?
    requires forall x | x in v.entries :: HasType(P, k, x) && HasType(P, e, v.entries[x])
    requires Entries(P, k, e, v, rows)
    ensures var ks := RowKeys(rows);
            && Elements(ks) == v.entries.Keys && Sorted(ks, KeyBytes(P, k, v.entries))
            && (forall x | x in ks :: x in v.entries) && rows == RowsOf(P, k, e, v.entries, ks)
    decreases v, 0
  {
    hide ProgramOk, ContentKeys, TypeOk, HasType, Layout, Put, Sorted, Earlier, KeyBytes, NoDuplicates, Elements;
    forall i | 0 <= i < |rows|
      ensures rows[i].kb == Put(P, k, rows[i].key) && rows[i].vb == Put(P, e, v.entries[rows[i].key])
    {
      RowIs(P, k, e, v, rows[i]);
    }
    OrderIs(P, k, v.entries, rows);
  }

  lemma {:induction false} EntriesOf(P: Program, k: Type, e: Type, v: Value, ks: seq<Value>)
    requires ProgramOk(P) && ContentKeys(P) && TypeOk(P, k) && TypeOk(P, e) && v.VMap?
    requires forall x | x in v.entries :: HasType(P, k, x) && HasType(P, e, v.entries[x])
    requires NoDuplicates(ks) && Elements(ks) == v.entries.Keys && Sorted(ks, KeyBytes(P, k, v.entries)) && (forall x | x in ks :: x in v.entries)
    ensures Entries(P, k, e, v, RowsOf(P, k, e, v.entries, ks))
    decreases v, 0
  {
    hide ProgramOk, ContentKeys, TypeOk, HasType, Layout, Put, Sorted, Earlier, KeyBytes, NoDuplicates, Elements;
    var rows := RowsOf(P, k, e, v.entries, ks);
    assert RowKeys(rows) == ks;
    forall i | 0 <= i < |rows|
      ensures rows[i].key in v.entries && Layout(P, k, rows[i].key, rows[i].kb) && Layout(P, e, v.entries[rows[i].key], rows[i].vb)
    {
      RowIs(P, k, e, v, rows[i]);
    }
    OrderIs(P, k, v.entries, rows);
  }

  lemma {:induction false} MapIs(P: Program, k: Type, e: Type, v: Value, b: Bytes)
    requires ProgramOk(P) && ContentKeys(P) && TypeOk(P, Map(k, e)) && HasType(P, Map(k, e), v)
    ensures Layout(P, Map(k, e), v, b) <==> b == Put(P, Map(k, e), v)
    decreases v, 1
  {
    hide ProgramOk, ContentKeys, IsKey, Rank, IsUvarint, AppendUvarint, Concat, RowBytes, PutEntries, Put, KeyBytes, ValueBytes, Sorted,
         Injective, WrittenOrder, RowsOf, NoDuplicates, Elements, Earlier;
    var m, ws := v.entries, WrittenOrder(P, k, v.entries);
    KeysInjective(P, k, v);
    WrittenOrderIs(P, k, m);
    PutMapIs(P, k, e, v);
    WholeMap(m, ws);
    UvarintIs(AppendUvarint(|m|), |m|);
    EntriesOf(P, k, e, v, ws);
    ConcatRows(P, k, e, m, ws);
    if Layout(P, Map(k, e), v, b) {
      var c, rows :| IsUvarint(c, |m|) && Entries(P, k, e, v, rows) && b == c + Concat(RowBytes(rows));
      UvarintIs(c, |m|);
      EntriesAre(P, k, e, v, rows);
      SortedUnique(RowKeys(rows), ws, KeyBytes(P, k, m));
    }
    assert Entries(P, k, e, v, RowsOf(P, k, e, m, ws));
  }

  // ----- the theorems -----

  /** Marshal writes the format: the one byte string that Layout gives the
      message, whatever the compiled plan. */
  lemma MarshalIsLayout(P: Program, s: Name, v: Value, b: Bytes)
    requires ProgramOk(P) && ContentKeys(P) && s in P.structs && HasType(P, Struct(s), v) && Marshal(P, s, v).Some?
    ensures Marshal(P, s, v) == Some(b) <==> Layout(P, Struct(s), v, b)
  {
    hide Encode, Decode, Compiled, Layout, Put, HasType, Compile;
    var p := Compile(P, Struct(s), {}).value;
    CompileCorrect(P, Struct(s), p, v, []);
    EncodingIsLayout(P, Struct(s), v, b);
  }

  // ----- what a uvarint reads as -----

  /** The value of the first w groups. */
  function Groups(data: Bytes, w: nat): nat
    requires w <= |data|
  {
    if w == 0 then 0 else Groups(data, w - 1) + data[w - 1] % 128 * Power(128, w - 1)
  }

  /** The first w bytes are a uvarint of at most 64 bits: only its last byte has
      the high bit clear, and a tenth byte holds one bit. */
  predicate UvarintEnds(data: Bytes, w: nat) {
    && 1 <= w <= 10 && w <= |data| && data[w - 1] < 128 && (forall i | 0 <= i < w - 1 :: data[i] >= 128)
    && (w == 10 ==> data[9] <= 1)
  }

  lemma {:induction false} GroupsShift(data: Bytes, w: nat)
    requires 1 <= w <= |data|
    ensures Groups(data, w) == data[0] % 128 + 128 * Groups(data[1..], w - 1)
  {
    if w == 1 {
      assert Power(128, 0) == 1 && Groups(data, 0) == 0 && Groups(data[1..], 0) == 0;
    } else {
      GroupsShift(data, w - 1);
      var g := data[w - 1] % 128;
      assert data[1..][w - 2] == data[w - 1];
      assert Power(128, w - 1) == 128 * Power(128, w - 2);
      Regroup128(g, Power(128, w - 2));
    }
  }

  lemma Regroup128(g: nat, p: nat)
    ensures g * (128 * p) == 128 * (g * p)
  {
  }

  lemma {:induction false} UvarintFromIs(data: Bytes, i: nat, w: nat)
    requires i < 10 && 1 <= w && i + w <= 10 && w <= |data| && data[w - 1] < 128 && (forall j | 0 <= j < w - 1 :: data[j] >= 128)
    ensures UvarintFrom(data, i) == if i + w == 10 && data[w - 1] > 1 then None else Some(Read(Groups(data, w), data[w..]))
    decreases w
  {
    GroupsShift(data, w);
    if w > 1 {
      UvarintFromIs(data[1..], i + 1, w - 1);
      assert data[1..][w - 2] == data[w - 1] && data[1..][w - 1..] == data[w..];
    } else {
      assert Groups(data[1..], 0) == 0;
    }
  }

  /** Reading a uvarint, on every input: the sum of its groups, or an error when
      no byte ends it in time. */
  lemma UvarintReadsGroups(data: Bytes, w: nat)
    requires UvarintEnds(data, w)
    ensures Uvarint(data) == Some(Read(Groups(data, w), data[w..]))
  {
    UvarintFromIs(data, 0, w);
  }

  lemma {:induction false} UvarintEndsSomewhere(data: Bytes, i: nat) returns (w: nat)
    requires UvarintFrom(data, i).Some? && i <= 10
    ensures 1 <= w && i + w <= 10 && w <= |data| && data[w - 1] < 128 && (forall j | 0 <= j < w - 1 :: data[j] >= 128)
    ensures i + w == 10 ==> data[w - 1] <= 1
  {
    if data[0] < 128 {
      w := 1;
    } else {
      var u := UvarintEndsSomewhere(data[1..], i + 1);
      w := u + 1;
      assert forall j | 1 <= j < w :: data[j] == data[1..][j - 1];
    }
  }

  lemma UvarintFailsOtherwise(data: Bytes)
    ensures Uvarint(data).Some? <==> exists w :: UvarintEnds(data, w)
  {
    if Uvarint(data).Some? {
      var w := UvarintEndsSomewhere(data, 0);
      assert UvarintEnds(data, w);
    }
    if w: nat :| UvarintEnds(data, w) { UvarintReadsGroups(data, w); }
  }
}
