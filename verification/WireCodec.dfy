/** The codec as it runs: buffers grown in loops, maps gathered in whatever
    order the runtime iterates them and then sorted, elements decoded one by
    one. Each method computes the function the theorems are about. */
module WireCodec {
  import opened Foundation
  import opened WireFormat
  import opened WireTypes
  import opened WireRoundTrip
  import opened WirePlan
  import opened WireCorrect
  import opened WireSafety

  // ----- uvarints -----

  method WriteUvarint(n: nat) returns (b: Bytes)
    ensures b == AppendUvarint(n)
  {
    b := [];
    var x := n;
    while x >= 128
      invariant b + AppendUvarint(x) == AppendUvarint(n)
    {
      b := b + [x % 128 + 128];
      x := x / 128;
    }
    b := b + [x];
  }

  /** The value of a uvarint whose first bytes contributed acc. */
  function Lift(acc: nat, unit: nat, r: Option<Read<nat>>): Option<Read<nat>> {
    if r.None? then None else Some(Read(acc + unit * r.value.value, r.value.rest))
  }

  lemma LiftStep(acc: nat, unit: nat, low: nat, r: Option<Read<nat>>)
    requires r.Some?
    ensures Lift(acc, unit, Some(Read(low + 128 * r.value.value, r.value.rest))) == Lift(acc + low * unit, unit * 128, r)
  {
    var v := r.value.value;
    assert unit * (low + 128 * v) == low * unit + unit * 128 * v;
  }

  lemma UvarintMore(data: Bytes, i: nat, acc: nat, unit: nat)
    requires i < |data| && i < MaxVarintLen && data[i] >= 128
    ensures Lift(acc, unit, UvarintFrom(data[i..], i)) ==
            Lift(acc + (data[i] - 128) * unit, unit * 128, UvarintFrom(data[i + 1..], i + 1))
  {
    assert data[i..][1..] == data[i + 1..];
    var r := UvarintFrom(data[i + 1..], i + 1);
    if r.Some? { LiftStep(acc, unit, data[i] - 128, r); }
  }

  lemma {:induction false} UvarintFails(data: Bytes, i: nat)
    requires i <= |data|
    requires i == |data| || i >= MaxVarintLen || (i == MaxVarintLen - 1 && 1 < data[i] < 128)
    ensures UvarintFrom(data[i..], i) == None
  {
  }

  lemma {:induction false} UvarintStops(data: Bytes, i: nat)
    requires i < |data| && i < MaxVarintLen && data[i] < 128 && (i == MaxVarintLen - 1 ==> data[i] <= 1)
    ensures UvarintFrom(data[i..], i) == Some(Read(data[i], data[i + 1..]))
  {
    assert data[i..][1..] == data[i + 1..];
  }

  method ReadUvarint(data: Bytes) returns (r: Option<Read<nat>>)
    ensures r == Uvarint(data)
  {
    hide UvarintFrom;
    var x: nat, unit: nat, i := 0, 1, 0;
    assert data[0..] == data;
    while i < |data|
      invariant 0 <= i <= |data|
      invariant Lift(x, unit, UvarintFrom(data[i..], i)) == Uvarint(data)
      invariant i <= MaxVarintLen
    {
      var b := data[i];
      if i == MaxVarintLen {
        UvarintFails(data, i);
        return None;
      }
      if b < 128 {
        if i == MaxVarintLen - 1 && b > 1 {
          UvarintFails(data, i);
          return None;
        }
        UvarintStops(data, i);
        return Some(Read(x + unit * b, data[i + 1..]));
      }
      UvarintMore(data, i, x, unit);
      x, unit, i := x + (b - 128) * unit, unit * 128, i + 1;
    }
    UvarintFails(data, i);
    r := None;
  }

  method CheckCount(data: Bytes, elemMin: nat) returns (r: Option<Read<nat>>)
    ensures r == ReadCount(data, elemMin)
  {
    r := ReadUvarint(data);
    if r.None? { return; }
    if elemMin > 0 {
      if r.value.value > |r.value.rest| / elemMin { return None; }
    } else if r.value.value > MaxZeroSizeCount {
      return None;
    }
  }

  // ----- sorting encoded entries -----

  datatype Entry = Entry(key: Bytes, val: Bytes)

  function EntriesOf<K>(ks: seq<K>, kb: map<K, Bytes>, vb: map<K, Bytes>): seq<Entry>
    requires forall k | k in ks :: k in kb && k in vb
  {
    seq(|ks|, i requires 0 <= i < |ks| => Entry(kb[ks[i]], vb[ks[i]]))
  }

  function InsertEntry(e: Entry, es: seq<Entry>): seq<Entry> {
    if es == [] then [e]
    else if Below(es[0].key, e.key) then [es[0]] + InsertEntry(e, es[1..])
    else [e] + es
  }

  function SortEntries(es: seq<Entry>): seq<Entry> {
    if es == [] then [] else InsertEntry(es[|es| - 1], SortEntries(es[..|es| - 1]))
  }

  function Concat(es: seq<Entry>): Bytes {
    if es == [] then [] else Concat(es[..|es| - 1]) + (es[|es| - 1].key + es[|es| - 1].val)
  }

  lemma {:induction false} InsertEntryIs<K>(k: K, ks: seq<K>, kb: map<K, Bytes>, vb: map<K, Bytes>)
    requires k in kb && k in vb && forall x | x in ks :: x in kb && x in vb
    ensures forall x | x in Insert(k, ks, kb) :: x in kb && x in vb
    ensures InsertEntry(Entry(kb[k], vb[k]), EntriesOf(ks, kb, vb)) == EntriesOf(Insert(k, ks, kb), kb, vb)
  {
    if ks != [] {
      InsertEntryIs(k, ks[1..], kb, vb);
      assert EntriesOf(ks, kb, vb)[1..] == EntriesOf(ks[1..], kb, vb);
      assert ks[0] in ks;
    }
  }

  lemma {:induction false} SortEntriesIs<K>(order: seq<K>, kb: map<K, Bytes>, vb: map<K, Bytes>)
    requires forall x | x in order :: x in kb && x in vb
    ensures forall x | x in SortKeys(order, kb) :: x in kb && x in vb
    ensures SortEntries(EntriesOf(order, kb, vb)) == EntriesOf(SortKeys(order, kb), kb, vb)
  {
    if order != [] {
      var n := |order| - 1;
      SortEntriesIs(order[..n], kb, vb);
      assert EntriesOf(order, kb, vb)[..n] == EntriesOf(order[..n], kb, vb);
      assert order[n] in order;
      InsertEntryIs(order[n], SortKeys(order[..n], kb), kb, vb);
    }
  }

  lemma {:induction false} ConcatSplit(a: Entry, es: seq<Entry>)
    ensures Concat([a] + es) == (a.key + a.val) + Concat(es)
  {
    if es == [] {
      assert ([a] + es)[..0] == [];
    } else {
      var n := |es| - 1;
      ConcatSplit(a, es[..n]);
      assert ([a] + es)[..n + 1] == [a] + es[..n];
    }
  }

  lemma {:induction false} ConcatIs<K>(ks: seq<K>, kb: map<K, Bytes>, vb: map<K, Bytes>)
    requires forall x | x in ks :: x in kb && x in vb
    ensures Concat(EntriesOf(ks, kb, vb)) == PutEntries(ks, kb, vb)
  {
    if ks != [] {
      ConcatIs(ks[1..], kb, vb);
      var a := Entry(kb[ks[0]], vb[ks[0]]);
      assert EntriesOf(ks, kb, vb) == [a] + EntriesOf(ks[1..], kb, vb);
      ConcatSplit(a, EntriesOf(ks[1..], kb, vb));
    }
  }

  lemma {:induction false} InsertAt(e: Entry, es: seq<Entry>, j: nat)
    requires j <= |es| && (forall i | 0 <= i < j :: Below(es[i].key, e.key)) && (j < |es| ==> !Below(es[j].key, e.key))
    ensures InsertEntry(e, es) == es[..j] + [e] + es[j..]
  {
    if j > 0 {
      InsertAt(e, es[1..], j - 1);
      assert es[..j] == [es[0]] + es[1..][..j - 1] && es[1..][j - 1..] == es[j..];
    }
  }

  method SortByKey(es: seq<Entry>) returns (r: seq<Entry>)
    ensures r == SortEntries(es)
  {
    r := [];
    var i := 0;
    while i < |es|
      invariant 0 <= i <= |es| && r == SortEntries(es[..i])
    {
      assert es[..i + 1][..i] == es[..i];
      var j := 0;
      while j < |r| && Below(r[j].key, es[i].key)
        invariant 0 <= j <= |r|
        invariant forall k | 0 <= k < j :: Below(r[k].key, es[i].key)
      {
        j := j + 1;
      }
      InsertAt(es[i], r, j);
      r := r[..j] + [es[i]] + r[j..];
      i := i + 1;
    }
    assert es[..i] == es;
  }

  method JoinEntries(es: seq<Entry>) returns (b: Bytes)
    ensures b == Concat(es)
  {
    b := [];
    var i := 0;
    while i < |es|
      invariant 0 <= i <= |es| && b == Concat(es[..i])
    {
      assert es[..i + 1][..i] == es[..i];
      b := b + (es[i].key + es[i].val);
      i := i + 1;
    }
    assert es[..i] == es;
  }

  // ----- encoding -----

  /** Running the encoder of a compiled plan on a value of its type. */
  method EncodeValue(ghost P: Program, ghost t: Type, env: seq<Plan>, p: Plan, v: Value) returns (b: Bytes)
    requires Compiled(P, env, t, p) && ContentKeys(P) && TypeOk(P, t) && HasType(P, t, v)
    ensures b == Put(P, t, v)
    decreases v, 2, |env|
  {
    hide ProgramOk, ContentKeys, EnvOk, Names, PutScalar, AppendUvarint, ScalarValue, PutItems, PutFields, PutMap;
    match p
    case PScalar(k) => b := PutScalar(k, v);
    case PBytes =>
      b := WriteUvarint(|v.bytes|);
      b := b + v.bytes;
    case PSlice(e) =>
      var n := WriteUvarint(|v.items|);
      var body := EncodeSlice(P, t.elem, env, e, v.items);
      b := n + body;
    case PArray(_, k) => b := EncodeArray(k, v.items);
    case PMap(_, _) => b := EncodeMap(P, t, env, p, v);
    case PStruct(s, fs) =>
      EnvPush(P, env, s, p);
      FieldsOk(P, s);
      b := EncodeStruct(P, P.structs[s], env + [p], fs, v.fields);
    case PPointer(e) =>
      if v.VNil? { return [0]; }
      var body := EncodeValue(P, t.elem, env, e, v.target);
      b := [1] + body;
    case PForward(s) =>
      ForwardResolves(P, env, s);
      var i := Lookup(env, s);
      b := EncodeValue(P, t, env[..i], env[i], v);
  }

  lemma FieldsOk(P: Program, s: Name)
    requires ProgramOk(P) && s in P.structs
    ensures s in P.rank
    ensures forall i | 0 <= i < |P.structs[s]| :: Rank(P, P.structs[s][i]) <= P.rank[s]
    ensures ContentKeys(P) ==> forall i | 0 <= i < |P.structs[s]| :: TypeOk(P, P.structs[s][i])
  {
    hide Rank, TypeOk;
    forall i | 0 <= i < |P.structs[s]| ensures Rank(P, P.structs[s][i]) <= P.rank[s] {
      assert FieldOk(P, s, P.structs[s][i]);
    }
  }

  method EncodeArray(k: Kind, vs: seq<Value>) returns (b: Bytes)
    ensures b == PutScalars(k, vs)
  {
    hide PutScalar;
    b := [];
    var i := 0;
    while i < |vs|
      invariant 0 <= i <= |vs| && b + PutScalars(k, vs[i..]) == PutScalars(k, vs)
    {
      assert vs[i..][1..] == vs[i + 1..];
      b := b + PutScalar(k, vs[i]);
      i := i + 1;
    }
  }

  method EncodeSlice(ghost P: Program, ghost t: Type, env: seq<Plan>, p: Plan, vs: seq<Value>) returns (b: Bytes)
    requires Compiled(P, env, t, p) && ContentKeys(P) && TypeOk(P, t) && forall i | 0 <= i < |vs| :: HasType(P, t, vs[i])
    ensures b == PutItems(P, t, vs)
    decreases vs, 1
  {
    hide Compiled, TypeOk, HasType, Put;
    b := [];
    var i := 0;
    while i < |vs|
      invariant 0 <= i <= |vs| && b + PutItems(P, t, vs[i..]) == PutItems(P, t, vs)
    {
      assert vs[i..][1..] == vs[i + 1..];
      var x := EncodeValue(P, t, env, p, vs[i]);
      b := b + x;
      i := i + 1;
    }
  }

  lemma {:induction false} HaveTypesAt(P: Program, ts: seq<Type>, vs: seq<Value>, i: nat)
    requires HaveTypes(P, ts, vs) && i < |vs|
    ensures |ts| == |vs| && HasType(P, ts[i], vs[i])
  {
    if i > 0 { HaveTypesAt(P, ts[1..], vs[1..], i - 1); }
  }

  lemma {:induction false} FieldsCompiledAt(P: Program, ts: seq<Type>, open: set<Name>, ps: seq<Plan>, i: nat)
    requires CompileFields(P, ts, open) == Some(ps) && i < |ps|
    ensures |ts| == |ps| && Compile(P, ts[i], open) == Some(ps[i])
  {
    hide Compile;
    if i > 0 { FieldsCompiledAt(P, ts[1..], open, ps[1..], i - 1); }
  }

  method EncodeStruct(ghost P: Program, ghost ts: seq<Type>, env: seq<Plan>, ps: seq<Plan>, vs: seq<Value>) returns (b: Bytes)
    requires ProgramOk(P) && ContentKeys(P) && EnvOk(P, env) && CompileFields(P, ts, Names(env)) == Some(ps)
    requires HaveTypes(P, ts, vs) && forall i | 0 <= i < |ts| :: TypeOk(P, ts[i])
    ensures b == PutFields(P, ts, vs)
    decreases vs, 1
  {
    hide ProgramOk, ContentKeys, EnvOk, Names, TypeOk, HasType, Put, Compile;
    b := [];
    var i := 0;
    while i < |ps|
      invariant 0 <= i <= |ps| == |vs| == |ts| && b + PutFields(P, ts[i..], vs[i..]) == PutFields(P, ts, vs)
    {
      assert vs[i..][1..] == vs[i + 1..] && ts[i..][1..] == ts[i + 1..];
      HaveTypesAt(P, ts, vs, i);
      FieldsCompiledAt(P, ts, Names(env), ps, i);
      var x := EncodeValue(P, ts[i], env, ps[i], vs[i]);
      b := b + x;
      i := i + 1;
    }
  }

  /** entries are the encoded entries of m in the order of its keys given. */
  ghost predicate Encoded(P: Program, t: Type, m: map<Value, Value>, order: seq<Value>, entries: seq<Entry>)
    requires t.Map?
  {
    && |entries| == |order|
    && forall i | 0 <= i < |order| ::
         order[i] in m && entries[i] == Entry(Put(P, t.key, order[i]), Put(P, t.elem, m[order[i]]))
  }

  lemma EncodedMore(P: Program, t: Type, m: map<Value, Value>, order: seq<Value>, entries: seq<Entry>, k: Value, e: Entry)
    requires t.Map? && Encoded(P, t, m, order, entries) && k in m && e == Entry(Put(P, t.key, k), Put(P, t.elem, m[k]))
    requires NoDuplicates(order) && k !in Elements(order)
    ensures Encoded(P, t, m, order + [k], entries + [e]) && NoDuplicates(order + [k])
    ensures Elements(order + [k]) == Elements(order) + {k}
  {
    hide Put;
  }

  /** Encoding the entries in the runtime's iteration order. */
  method GatherEntries(ghost P: Program, ghost t: Type, env: seq<Plan>, p: Plan, v: Value)
    returns (entries: seq<Entry>, ghost order: seq<Value>)
    requires t.Map? && p.PMap? && v.VMap? && Compiled(P, env, t.key, p.key) && Compiled(P, env, t.elem, p.elem)
    requires ContentKeys(P) && TypeOk(P, t.key) && TypeOk(P, t.elem)
    requires forall x | x in v.entries :: HasType(P, t.key, x) && HasType(P, t.elem, v.entries[x])
    ensures Elements(order) == v.entries.Keys && NoDuplicates(order) && Encoded(P, t, v.entries, order, entries)
    decreases v, 0
  {
    hide Compiled, Put, TypeOk, HasType, Encoded, NoDuplicates;
    var m := v.entries;
    entries, order := [], [];
    var todo := m.Keys;
    NothingEncoded(P, t, m);
    while todo != {}
      invariant todo <= m.Keys && Elements(order) == m.Keys - todo && NoDuplicates(order)
      invariant Encoded(P, t, m, order, entries)
      decreases |todo|
    {
      var k :| k in todo;
      var key := EncodeValue(P, t.key, env, p.key, k);
      var val := EncodeValue(P, t.elem, env, p.elem, m[k]);
      EncodedMore(P, t, m, order, entries, k, Entry(key, val));
      entries, order, todo := entries + [Entry(key, val)], order + [k], todo - {k};
    }
  }

  lemma NothingEncoded(P: Program, t: Type, m: map<Value, Value>)
    requires t.Map?
    ensures Encoded(P, t, m, [], []) && NoDuplicates<Value>([]) && Elements<Value>([]) == {}
  {
  }

  /** Sorting by encoded key makes the bytes independent of that order. */
  method EncodeMap(ghost P: Program, ghost t: Type, env: seq<Plan>, p: Plan, v: Value) returns (b: Bytes)
    requires ProgramOk(P) && t.Map? && p.PMap? && Compiled(P, env, t.key, p.key) && Compiled(P, env, t.elem, p.elem)
    requires ContentKeys(P) && TypeOk(P, t) && HasType(P, t, v)
    ensures b == Put(P, t, v)
    decreases v, 1
  {
    hide Compiled, Put, SortKeys, SortEntries, EncodedInOrder, ProgramOk, ContentKeys, Encoded, IsKey;
    var entries, order := GatherEntries(P, t, env, p, v);
    var sorted := SortByKey(entries);
    var n := WriteUvarint(|entries|);
    var body := JoinEntries(sorted);
    b := n + body;
    Gathered(P, t, v, order, entries);
  }

  lemma Gathered(P: Program, t: Type, v: Value, order: seq<Value>, entries: seq<Entry>)
    requires ProgramOk(P) && ContentKeys(P) && t.Map? && TypeOk(P, t) && HasType(P, t, v)
    requires Elements(order) == v.entries.Keys && NoDuplicates(order) && Encoded(P, t, v.entries, order, entries)
    ensures AppendUvarint(|entries|) + Concat(SortEntries(entries)) == Put(P, t, v)
  {
    hide Put, SortKeys, SortEntries, AppendUvarint, PutEntries, Concat, ProgramOk, ContentKeys;
    var kb, vb := KeyBytes(P, t.key, v.entries), ValueBytes(P, t.elem, v.entries);
    assert entries == EntriesOf(order, kb, vb);
    SortEntriesIs(order, kb, vb);
    ConcatIs(SortKeys(order, kb), kb, vb);
    MapEncodingCanonical(P, t, v.entries, order);
  }

  // ----- decoding -----

  function Prepend<T>(front: seq<T>, r: Option<Read<seq<T>>>): Option<Read<seq<T>>> {
    if r.None? then None else Some(Read(front + r.value.value, r.value.rest))
  }

  /** Running the decoder of a compiled plan. */
  method DecodeValue(ghost P: Program, ghost t: Type, env: seq<Plan>, p: Plan, data: Bytes) returns (r: Option<Read<Value>>)
    requires Compiled(P, env, t, p)
    ensures r == Decode(P, env, t, p, data)
    decreases |data|, Rank(P, t), 0, |env|
  {
    hide ProgramOk, ContentKeys, EnvOk, Names, GetScalar, GetBytes, ReadCount, DecodeItems, DecodeEntries, DecodeFields, GetScalars, Get;
    match p
    case PScalar(k) => r := GetScalar(k, data);
    case PBytes => r := DecodeBytes(data);
    case PSlice(e) =>
      var c := CheckCount(data, PlanMin(e));
      if c.None? { return None; }
      var xs := DecodeSlice(P, t.elem, env, e, c.value.value, c.value.rest);
      r := if xs.None? then None else Some(Read(VSeq(xs.value.value), xs.value.rest));
    case PArray(n, k) =>
      var xs := DecodeArray(k, n, data);
      r := if xs.None? then None else Some(Read(VSeq(xs.value.value), xs.value.rest));
    case PMap(k, e) =>
      var c := CheckCount(data, PlanMin(k) + PlanMin(e));
      if c.None? { return None; }
      var m := DecodeMap(P, t.key, t.elem, env, k, e, c.value.value, c.value.rest);
      r := if m.None? then None else Some(Read(VMap(m.value.value), m.value.rest));
    case PStruct(s, fs) =>
      EnvPush(P, env, s, p);
      FieldsOk(P, s);
      var xs := DecodeStruct(P, P.structs[s], P.rank[s], env + [p], fs, data);
      r := if xs.None? then None else Some(Read(VStruct(xs.value.value), xs.value.rest));
    case PPointer(e) =>
      if |data| < 1 { return None; }
      if data[0] == 0 { return Some(Read(VNil, data[1..])); }
      if data[0] != 1 { return None; }
      var x := DecodeValue(P, t.elem, env, e, data[1..]);
      r := if x.None? then None else Some(Read(VRef(x.value.value), x.value.rest));
    case PForward(s) =>
      ForwardResolves(P, env, s);
      var i := Lookup(env, s);
      r := DecodeValue(P, t, env[..i], env[i], data);
  }

  method DecodeBytes(data: Bytes) returns (r: Option<Read<Value>>)
    ensures r == GetBytes(data)
  {
    var c := ReadUvarint(data);
    if c.None? || c.value.value > |c.value.rest| { return None; }
    var n := c.value.value;
    r := Some(Read(VBytes(c.value.rest[..n]), c.value.rest[n..]));
  }

  method DecodeArray(k: Kind, n: nat, data: Bytes) returns (r: Option<Read<seq<Value>>>)
    ensures r == GetScalars(k, n, data)
  {
    hide GetScalar;
    var items, rest, i := [], data, 0;
    PrependEnds(items, rest, GetScalars(k, n, data));
    while i < n
      invariant 0 <= i <= n
      invariant Prepend(items, GetScalars(k, n - i, rest)) == GetScalars(k, n, data)
    {
      var x := GetScalar(k, rest);
      if x.None? { return None; }
      PrependMore(items, x.value.value, GetScalars(k, n - i - 1, x.value.rest));
      items, rest, i := items + [x.value.value], x.value.rest, i + 1;
    }
    PrependEnds(items, rest, None);
    r := Some(Read(items, rest));
  }

  lemma PrependEnds<T>(items: seq<T>, rest: Bytes, r: Option<Read<seq<T>>>)
    ensures Prepend([], r) == r
    ensures Prepend(items, Some(Read([], rest))) == Some(Read(items, rest))
  {
    if r.Some? { assert [] + r.value.value == r.value.value; }
    assert items + [] == items;
  }

  lemma PrependMore<T>(items: seq<T>, x: T, r: Option<Read<seq<T>>>)
    ensures Prepend(items, if r.None? then None else Some(Read([x] + r.value.value, r.value.rest))) == Prepend(items + [x], r)
  {
    if r.Some? { assert items + ([x] + r.value.value) == (items + [x]) + r.value.value; }
  }

  method DecodeSlice(ghost P: Program, ghost t: Type, env: seq<Plan>, p: Plan, n: nat, data: Bytes) returns (r: Option<Read<seq<Value>>>)
    requires Compiled(P, env, t, p)
    ensures r == DecodeItems(P, env, t, p, n, data)
    decreases |data|, Rank(P, t), 1
  {
    hide Compiled, Decode, Rank;
    var items, rest, i := [], data, 0;
    PrependEnds(items, rest, DecodeItems(P, env, t, p, n, data));
    while i < n
      invariant 0 <= i <= n && |rest| <= |data|
      invariant Prepend(items, DecodeItems(P, env, t, p, n - i, rest)) == DecodeItems(P, env, t, p, n, data)
    {
      var x := DecodeValue(P, t, env, p, rest);
      if x.None? { return None; }
      PrependMore(items, x.value.value, DecodeItems(P, env, t, p, n - i - 1, x.value.rest));
      items, rest, i := items + [x.value.value], x.value.rest, i + 1;
    }
    PrependEnds(items, rest, None);
    r := Some(Read(items, rest));
  }

  lemma FieldsCompiledTail(P: Program, env: seq<Plan>, ts: seq<Type>, r: nat, ps: seq<Plan>)
    requires FieldsCompiled(P, env, ts, r, ps) && ts != []
    ensures |ps| == |ts| && Compiled(P, env, ts[0], ps[0]) && FieldsCompiled(P, env, ts[1..], r, ps[1..])
  {
    hide ProgramOk, ContentKeys, EnvOk, Names, Rank, Compile;
  }

  method DecodeStruct(ghost P: Program, ghost ts: seq<Type>, ghost rank: nat, env: seq<Plan>, ps: seq<Plan>, data: Bytes)
    returns (r: Option<Read<seq<Value>>>)
    requires FieldsCompiled(P, env, ts, rank, ps)
    ensures r == DecodeFields(P, env, ts, rank, ps, data)
    decreases |data|, rank, 1
  {
    hide ProgramOk, ContentKeys, EnvOk, Names, Decode, Compile;
    var items, rest, i := [], data, 0;
    assert ts[0..] == ts && ps[0..] == ps;
    PrependEnds(items, rest, DecodeFields(P, env, ts, rank, ps, data));
    while i < |ps|
      invariant 0 <= i <= |ps| == |ts| && |rest| <= |data|
      invariant FieldsCompiled(P, env, ts[i..], rank, ps[i..])
      invariant Prepend(items, DecodeFields(P, env, ts[i..], rank, ps[i..], rest)) == DecodeFields(P, env, ts, rank, ps, data)
    {
      FieldsCompiledTail(P, env, ts[i..], rank, ps[i..]);
      assert ts[i..][1..] == ts[i + 1..] && ps[i..][1..] == ps[i + 1..] && Rank(P, ts[i..][0]) <= rank;
      var x := DecodeValue(P, ts[i], env, ps[i], rest);
      if x.None? { return None; }
      PrependMore(items, x.value.value, DecodeFields(P, env, ts[i + 1..], rank, ps[i + 1..], x.value.rest));
      items, rest, i := items + [x.value.value], x.value.rest, i + 1;
    }
    PrependEnds(items, rest, None);
    r := Some(Read(items, rest));
  }

  function MergeAfter(acc: map<Value, Value>, r: Option<Read<map<Value, Value>>>): Option<Read<map<Value, Value>>> {
    if r.None? then None else Some(Read(acc + r.value.value, r.value.rest))
  }

  lemma MergeMore(acc: map<Value, Value>, x: Value, y: Value, r: Option<Read<map<Value, Value>>>)
    ensures MergeAfter(acc, AddEntry(x, y, r)) == MergeAfter(acc[x := y], r)
  {
    if r.Some? { assert acc + (map[x := y] + r.value.value) == acc[x := y] + r.value.value; }
  }

  method DecodeMap(ghost P: Program, ghost k: Type, ghost e: Type, env: seq<Plan>, p: Plan, q: Plan, n: nat, data: Bytes)
    returns (r: Option<Read<map<Value, Value>>>)
    requires Compiled(P, env, k, p) && Compiled(P, env, e, q)
    ensures r == DecodeEntries(P, env, k, e, p, q, n, data)
    decreases |data|, Rank(P, k) + Rank(P, e), 1
  {
    hide Compiled, Decode, Rank, DecodeEntries, AddEntry;
    var m, rest, i := map[], data, 0;
    assert MergeAfter(m, DecodeEntries(P, env, k, e, p, q, n, data)) == DecodeEntries(P, env, k, e, p, q, n, data) by {
      MergeNothing(DecodeEntries(P, env, k, e, p, q, n, data));
    }
    while i < n
      invariant 0 <= i <= n && |rest| <= |data|
      invariant MergeAfter(m, DecodeEntries(P, env, k, e, p, q, n - i, rest)) == DecodeEntries(P, env, k, e, p, q, n, data)
    {
      var x := DecodeValue(P, k, env, p, rest);
      var y: Option<Read<Value>> := None;
      if x.Some? { y := DecodeValue(P, e, env, q, x.value.rest); }
      DecodeEntriesStep(P, env, k, e, p, q, n - i, rest, x, y);
      if x.None? || y.None? { return None; }
      MergeMore(m, x.value.value, y.value.value, DecodeEntries(P, env, k, e, p, q, n - i - 1, y.value.rest));
      m, rest, i := m[x.value.value := y.value.value], y.value.rest, i + 1;
    }
    DecodeNoEntries(P, env, k, e, p, q, rest);
    r := Some(Read(m, rest));
    assert m + map[] == m;
  }

  lemma MergeNothing(r: Option<Read<map<Value, Value>>>)
    ensures MergeAfter(map[], r) == r
  {
    if r.Some? { assert map[] + r.value.value == r.value.value; }
  }
}
