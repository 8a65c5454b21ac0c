/** The byte-level vocabulary of the wire format: fixed-size little-endian
    words, uvarints, and the byte order that map keys are sorted by. */
module WireFormat {
  import opened Foundation

  // ----- little-endian words -----

  function Pow256(size: nat): (r: nat)
    ensures r > 0
  {
    if size == 0 then 1 else 256 * Pow256(size - 1)
  }

  function PutWord(w: nat, size: nat): (r: Bytes)
    ensures |r| == size
  {
    if size == 0 then [] else [w % 256] + PutWord(w / 256, size - 1)
  }

  function GetWord(b: Bytes): (r: nat)
  {
    if b == [] then 0 else b[0] + 256 * GetWord(b[1..])
  }

  lemma {:induction false} WordRoundTrip(w: nat, size: nat)
    requires w < Pow256(size)
    ensures GetWord(PutWord(w, size)) == w
  {
    if size > 0 {
      WordRoundTrip(w / 256, size - 1);
      assert PutWord(w, size)[1..] == PutWord(w / 256, size - 1);
    }
  }

  lemma {:induction false} WordBound(b: Bytes)
    ensures GetWord(b) < Pow256(|b|)
  {
    if b != [] {
      WordBound(b[1..]);
    }
  }

  // ----- uvarints -----

  const MaxVarintLen := 10

  function AppendUvarint(n: nat): (r: Bytes)
    ensures |r| >= 1
  {
    if n < 128 then [n] else [n % 128 + 128] + AppendUvarint(n / 128)
  }

  /** A prefix decoded to `value`, and what follows it. */
  datatype Read<+T> = Read(value: T, rest: Bytes)

  /** Reads a uvarint whose first `i` bytes have been consumed: at most ten
      bytes, and the tenth may only hold the last bit of 64. */
  function UvarintFrom(data: Bytes, i: nat): (r: Option<Read<nat>>)
    ensures r.Some? ==> |r.value.rest| < |data| && r.value.rest == data[|data| - |r.value.rest|..]
  {
    if data == [] || i >= MaxVarintLen then None
    else if data[0] < 128 then
      if i == MaxVarintLen - 1 && data[0] > 1 then None else Some(Read(data[0], data[1..]))
    else
      match UvarintFrom(data[1..], i + 1)
      case None => None
      case Some(r) => Some(Read(data[0] - 128 + 128 * r.value, r.rest))
  }

  function Uvarint(data: Bytes): (r: Option<Read<nat>>)
    ensures r.Some? ==> |r.value.rest| < |data| && r.value.rest == data[|data| - |r.value.rest|..]
  {
    UvarintFrom(data, 0)
  }

  const MaxUint64 := 0xFFFF_FFFF_FFFF_FFFF

  /** The values a uvarint may still hold after i bytes. */
  function Room(i: nat): nat
    decreases 9 - i
  {
    if i >= 9 then 2 else 128 * Room(i + 1)
  }

  lemma RoomAtStart()
    ensures Room(0) == MaxUint64 + 1
  {
    assert Room(6) == 0x40_0000;
    assert Room(3) == 0x800_0000_0000;
  }

  lemma {:induction false} UvarintFromRoundTrip(n: nat, i: nat, tail: Bytes)
    requires i < MaxVarintLen && n < Room(i)
    ensures UvarintFrom(AppendUvarint(n) + tail, i) == Some(Read(n, tail))
    decreases n
  {
    var data := AppendUvarint(n) + tail;
    if n < 128 {
      assert data[1..] == tail;
    } else {
      UvarintFromRoundTrip(n / 128, i + 1, tail);
      assert data[1..] == AppendUvarint(n / 128) + tail;
    }
  }

  lemma UvarintRoundTrip(n: nat, tail: Bytes)
    requires n <= MaxUint64
    ensures Uvarint(AppendUvarint(n) + tail) == Some(Read(n, tail))
  {
    RoomAtStart();
    UvarintFromRoundTrip(n, 0, tail);
  }

  /** A length-prefixed run of raw bytes. */
  function ReadRaw(data: Bytes): (r: Option<Read<Bytes>>)
    ensures r.Some? ==> |r.value.rest| < |data| && r.value.rest == data[|data| - |r.value.rest|..]
  {
    match Uvarint(data)
    case None => None
    case Some(c) => if c.value > |c.rest| then None else Some(Read(c.rest[..c.value], c.rest[c.value..]))
  }

  function PutRaw(b: Bytes): Bytes {
    AppendUvarint(|b|) + b
  }

  lemma RawRoundTrip(b: Bytes, tail: Bytes)
    requires |b| <= MaxUint64
    ensures ReadRaw(PutRaw(b) + tail) == Some(Read(b, tail))
  {
    UvarintRoundTrip(|b|, b + tail);
    assert PutRaw(b) + tail == AppendUvarint(|b|) + (b + tail);
  }

  const MaxZeroSizeCount := 0x10_0000

  /** An element count, refused when the remaining bytes cannot hold that many
      elements of at least elemMin bytes. */
  function ReadCount(data: Bytes, elemMin: nat): (r: Option<Read<nat>>)
    ensures r.Some? ==> |r.value.rest| < |data|
  {
    match Uvarint(data)
    case None => None
    case Some(c) =>
      if elemMin > 0 then (if c.value > |c.rest| / elemMin then None else Some(c))
      else if c.value > MaxZeroSizeCount then None else Some(c)
  }

  // ----- the order of encoded keys -----

  /** Lexicographic order on bytes. */
  predicate Below(a: Bytes, b: Bytes) {
    b != [] && (a == [] || a[0] < b[0] || (a[0] == b[0] && Below(a[1..], b[1..])))
  }

  lemma {:induction false} BelowTotal(a: Bytes, b: Bytes)
    ensures a == b || Below(a, b) || Below(b, a)
    ensures !(Below(a, b) && Below(b, a))
    ensures !Below(a, a)
  {
    if a != [] { BelowTotal(a[1..], a[1..]); }
    if a != [] && b != [] {
      BelowTotal(a[1..], b[1..]);
      assert a == [a[0]] + a[1..] && b == [b[0]] + b[1..];
    }
  }

  lemma {:induction false} BelowTransitive(a: Bytes, b: Bytes, c: Bytes)
    requires Below(a, b) && Below(b, c)
    ensures Below(a, c)
  {
    if a != [] && a[0] == b[0] == c[0] {
      BelowTransitive(a[1..], b[1..], c[1..]);
    }
  }

  // ----- sorting keys by their encoding -----

  predicate Precedes<K>(e: map<K, Bytes>, a: K, b: K) {
    a in e && b in e && Below(e[a], e[b])
  }

  predicate Sorted<K>(ks: seq<K>, e: map<K, Bytes>) {
    forall i, j | 0 <= i < j < |ks| :: Precedes(e, ks[i], ks[j])
  }

  predicate Injective<K>(e: map<K, Bytes>) {
    forall a, b | a in e && b in e && e[a] == e[b] :: a == b
  }

  /** Inserting a key before the first one it is below. */
  function Insert<K>(k: K, ks: seq<K>, e: map<K, Bytes>): seq<K> {
    if ks == [] then [k]
    else if Precedes(e, ks[0], k) then [ks[0]] + Insert(k, ks[1..], e)
    else [k] + ks
  }

  function SortKeys<K>(order: seq<K>, e: map<K, Bytes>): seq<K> {
    if order == [] then [] else Insert(order[|order| - 1], SortKeys(order[..|order| - 1], e), e)
  }

  lemma {:induction false} InsertElements<K>(k: K, ks: seq<K>, e: map<K, Bytes>)
    ensures Elements(Insert(k, ks, e)) == Elements(ks) + {k} && |Insert(k, ks, e)| == |ks| + 1
  {
    if ks != [] {
      InsertElements(k, ks[1..], e);
      assert Elements(ks) == {ks[0]} + Elements(ks[1..]);
      assert Elements([ks[0]] + Insert(k, ks[1..], e)) == {ks[0]} + Elements(Insert(k, ks[1..], e));
      assert Elements([k] + ks) == {k} + Elements(ks);
    }
  }

  lemma PrecedesTotal<K>(e: map<K, Bytes>, a: K, b: K)
    requires Injective(e) && a in e && b in e && a != b
    ensures Precedes(e, a, b) != Precedes(e, b, a)
  {
    BelowTotal(e[a], e[b]);
  }

  lemma PrecedesStrict<K>(e: map<K, Bytes>, a: K, b: K)
    requires Precedes(e, a, b)
    ensures !Precedes(e, b, a) && a != b
  {
    BelowTotal(e[a], e[b]);
  }

  lemma PrecedesTransitive<K>(e: map<K, Bytes>, a: K, b: K, c: K)
    requires Precedes(e, a, b) && Precedes(e, b, c)
    ensures Precedes(e, a, c)
  {
    BelowTransitive(e[a], e[b], e[c]);
  }

  lemma {:induction false} InsertSorted<K>(k: K, ks: seq<K>, e: map<K, Bytes>)
    requires Injective(e) && k in e && k !in ks && Elements(ks) <= e.Keys && Sorted(ks, e)
    ensures Sorted(Insert(k, ks, e), e)
  {
    hide Precedes, Injective;
    if ks != [] {
      var rest := ks[1..];
      assert forall x | x in rest :: x in ks;
      assert ks[0] in Elements(ks);
      if Precedes(e, ks[0], k) {
        InsertSorted(k, rest, e);
        InsertElements(k, rest, e);
        var r := Insert(k, rest, e);
        forall i | 0 <= i < |r| ensures Precedes(e, ks[0], r[i]) {
          assert r[i] in Elements(r);
          if r[i] != k { assert r[i] in rest; }
        }
      } else {
        PrecedesTotal(e, ks[0], k);
        forall j | 0 < j < |ks| ensures Precedes(e, k, ks[j]) {
          PrecedesTransitive(e, k, ks[0], ks[j]);
        }
      }
    }
  }

  lemma {:induction false} SortKeysIs<K>(order: seq<K>, e: map<K, Bytes>)
    requires NoDuplicates(order) && Elements(order) <= e.Keys && Injective(e)
    ensures Sorted(SortKeys(order, e), e)
    ensures Elements(SortKeys(order, e)) == Elements(order) && |SortKeys(order, e)| == |order|
  {
    if order != [] {
      var last, front := order[|order| - 1], order[..|order| - 1];
      assert Elements(order) == Elements(front) + {last};
      SortKeysIs(front, e);
      assert last !in Elements(front);
      InsertSorted(last, SortKeys(front, e), e);
      InsertElements(last, SortKeys(front, e), e);
    }
  }

  lemma SortedDistinct<K>(ks: seq<K>, e: map<K, Bytes>)
    requires Sorted(ks, e)
    ensures NoDuplicates(ks)
  {
    forall i, j | 0 <= i < j < |ks| ensures ks[i] != ks[j] {
      PrecedesStrict(e, ks[i], ks[j]);
    }
  }

  lemma NoElements<K>(s: seq<K>)
    ensures s == [] <==> Elements(s) == {}
  {
    if s != [] { assert s[0] in Elements(s); }
  }

  lemma FirstIsLeast<K>(ks: seq<K>, e: map<K, Bytes>, x: K)
    requires Sorted(ks, e) && x in ks
    ensures x == ks[0] || Precedes(e, ks[0], x)
  {
    hide Precedes;
  }

  /** A strictly sorted listing of a set of keys is unique. */
  lemma {:induction false} SortedUnique<K>(a: seq<K>, b: seq<K>, e: map<K, Bytes>)
    requires Sorted(a, e) && Sorted(b, e) && Elements(a) == Elements(b)
    ensures a == b
  {
    hide Precedes;
    NoElements(a);
    NoElements(b);
    if a != [] {
      assert a[0] in Elements(b) && b[0] in Elements(a) by {
        assert a[0] in Elements(a) && b[0] in Elements(b);
      }
      FirstIsLeast(a, e, b[0]);
      FirstIsLeast(b, e, a[0]);
      if Precedes(e, a[0], b[0]) { PrecedesStrict(e, a[0], b[0]); }
      SortedDistinct(a, e);
      SortedDistinct(b, e);
      assert Elements(a[1..]) == Elements(a) - {a[0]};
      assert Elements(b[1..]) == Elements(b) - {b[0]};
      SortedUnique(a[1..], b[1..], e);
      assert a == [a[0]] + a[1..] && b == [b[0]] + b[1..];
    }
  }

  /** Sorting does not depend on the order the keys come in. */
  lemma SortKeysCanonical<K>(a: seq<K>, b: seq<K>, e: map<K, Bytes>)
    requires NoDuplicates(a) && NoDuplicates(b) && Elements(a) == Elements(b) <= e.Keys && Injective(e)
    ensures SortKeys(a, e) == SortKeys(b, e)
  {
    SortKeysIs(a, e);
    SortKeysIs(b, e);
    SortedUnique(SortKeys(a, e), SortKeys(b, e), e);
  }
}
