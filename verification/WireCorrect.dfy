/** The compiled plans do what the types say: the same bytes, the same decoded
    values, the same failures. In particular neither the forwarding plans of
    recursive types nor the length checks change any result. */
module WireCorrect {
  import opened Foundation
  import opened WireFormat
  import opened WireTypes
  import opened WireRoundTrip
  import opened WirePlan

  // ----- decoding is total: what it consumes -----

  predicate Suffix(rest: Bytes, data: Bytes) {
    |rest| <= |data| && rest == data[|data| - |rest|..]
  }

  lemma SuffixTrans(a: Bytes, b: Bytes, c: Bytes)
    requires Suffix(a, b) && Suffix(b, c)
    ensures Suffix(a, c)
  {
  }

  /** `rest` is what remains of data after at least min bytes. */
  predicate Consumed(data: Bytes, rest: Bytes, min: nat) {
    Suffix(rest, data) && |rest| + min <= |data|
  }

  lemma ConsumedBoth(a: Bytes, b: Bytes, c: Bytes, m: nat, n: nat)
    requires Consumed(a, b, m) && Consumed(b, c, n)
    ensures Consumed(a, c, m + n)
  {
    SuffixTrans(c, b, a);
  }

  /** Reading ends with an error, or with a suffix of the input after at least
      MinSize bytes. */
  lemma {:induction false} GetConsumes(P: Program, t: Type, data: Bytes)
    requires ProgramOk(P) && Get(P, t, data).Some?
    ensures Consumed(data, Get(P, t, data).value.rest, MinSize(P, t))
    decreases |data|, Rank(P, t), 0, 1
  {
    hide GetItems, GetEntries, GetScalars, GetScalar, Uvarint, CountOf;
    match t
    case Scalar(k) => ScalarConsumes(k, data);
    case Array(n, e) => ScalarsConsume(e.kind, n, data);
    case Slice(e) => if e == Scalar(Uint8) { RawConsumes(data); } else { SliceConsumes(P, e, data); }
    case Str => RawConsumes(data);
    case Map(k, e) => MapConsumes(P, k, e, data);
    case Struct(s) => FieldsConsume(P, P.structs[s], P.rank[s], data);
    case Pointer(e) => if data[0] == 1 { GetConsumes(P, e, data[1..]); }
  }

  lemma RawConsumes(data: Bytes)
    requires GetBytes(data).Some?
    ensures Consumed(data, GetBytes(data).value.rest, 1)
  {
    hide Uvarint;
  }

  lemma CountConsumes(data: Bytes, min: nat)
    requires CountOf(data, min).Some?
    ensures Consumed(data, CountOf(data, min).value.rest, 1)
  {
    hide Uvarint;
  }

  lemma {:induction false} SliceConsumes(P: Program, e: Type, data: Bytes)
    requires ProgramOk(P) && e != Scalar(Uint8) && Get(P, Slice(e), data).Some?
    ensures Consumed(data, Get(P, Slice(e), data).value.rest, 1)
    decreases |data|, 0, 0, 0
  {
    hide Consumed, ProgramOk, GetItems, MinSize, CountOf;
    var c := CountOf(data, MinSize(P, e)).value;
    CountConsumes(data, MinSize(P, e));
    ItemsConsume(P, e, c.value, c.rest);
    ConsumedMore(data, c.rest, GetItems(P, e, c.value, c.rest).value.rest, c.value * MinSize(P, e));
  }

  lemma {:induction false} MapConsumes(P: Program, k: Type, e: Type, data: Bytes)
    requires ProgramOk(P) && Get(P, Map(k, e), data).Some?
    ensures Consumed(data, Get(P, Map(k, e), data).value.rest, 1)
    decreases |data|, 0, 0, 0
  {
    hide Consumed, ProgramOk, GetEntries, MinSize, CountOf;
    var m := MinSize(P, k) + MinSize(P, e);
    var c := CountOf(data, m).value;
    CountConsumes(data, m);
    EntriesConsume(P, k, e, c.value, c.rest);
    ConsumedMore(data, c.rest, GetEntries(P, k, e, c.value, c.rest).value.rest, c.value * m);
  }

  lemma ConsumedMore(data: Bytes, mid: Bytes, rest: Bytes, n: nat)
    requires Consumed(data, mid, 1) && Consumed(mid, rest, n)
    ensures Consumed(data, rest, 1)
  {
    SuffixTrans(rest, mid, data);
  }

  lemma {:induction false} ScalarsConsume(k: Kind, n: nat, data: Bytes)
    requires GetScalars(k, n, data).Some?
    ensures Consumed(data, GetScalars(k, n, data).value.rest, n * Size(k))
  {
    hide GetScalar;
    if n > 0 {
      var x := GetScalar(k, data).value;
      ScalarConsumes(k, data);
      ScalarsConsume(k, n - 1, x.rest);
      ConsumedBoth(data, x.rest, GetScalars(k, n - 1, x.rest).value.rest, Size(k), (n - 1) * Size(k));
      assert n * Size(k) == Size(k) + (n - 1) * Size(k);
    }
  }

  lemma ScalarConsumes(k: Kind, data: Bytes)
    requires GetScalar(k, data).Some?
    ensures Consumed(data, GetScalar(k, data).value.rest, Size(k))
  {
  }

  lemma {:induction false} ItemsConsume(P: Program, t: Type, n: nat, data: Bytes)
    requires ProgramOk(P) && GetItems(P, t, n, data).Some?
    ensures Consumed(data, GetItems(P, t, n, data).value.rest, n * MinSize(P, t))
    decreases |data|, Rank(P, t), 1, n
  {
    hide Get, ProgramOk, Consumed, MinSize, Rank;
    if n == 0 {
      AllLeft(data);
    } else {
      var x := Get(P, t, data).value;
      GetConsumes(P, t, data);
      ItemsConsume(P, t, n - 1, x.rest);
      ConsumedBoth(data, x.rest, GetItems(P, t, n - 1, x.rest).value.rest, MinSize(P, t), (n - 1) * MinSize(P, t));
      assert n * MinSize(P, t) == MinSize(P, t) + (n - 1) * MinSize(P, t);
    }
  }

  lemma AllLeft(data: Bytes)
    ensures Consumed(data, data, 0)
  {
  }

  lemma {:induction false} FieldsConsume(P: Program, ts: seq<Type>, r: nat, data: Bytes)
    requires ProgramOk(P) && forall i | 0 <= i < |ts| :: Rank(P, ts[i]) <= r
    requires GetFields(P, ts, r, data).Some?
    ensures Consumed(data, GetFields(P, ts, r, data).value.rest, MinSizes(P, ts, r))
    decreases |data|, r, 1, |ts|
  {
    hide Get, ProgramOk, Consumed, MinSize, Rank;
    if ts == [] {
      AllLeft(data);
    } else {
      var x := Get(P, ts[0], data).value;
      GetConsumes(P, ts[0], data);
      FieldsConsume(P, ts[1..], r, x.rest);
      ConsumedBoth(data, x.rest, GetFields(P, ts[1..], r, x.rest).value.rest, MinSize(P, ts[0]), MinSizes(P, ts[1..], r));
    }
  }

  /** The three ways reading a first entry can go. */
  lemma {:induction false} GetEntriesStep(P: Program, k: Type, e: Type, n: nat, data: Bytes)
    requires ProgramOk(P)
    ensures n == 0 ==> GetEntries(P, k, e, n, data) == Some(Read(map[], data))
    ensures n > 0 && Get(P, k, data).None? ==> GetEntries(P, k, e, n, data).None?
    ensures n > 0 && Get(P, k, data).Some? && Get(P, e, Get(P, k, data).value.rest).None? ==>
              GetEntries(P, k, e, n, data).None?
    ensures n > 0 && Get(P, k, data).Some? && Get(P, e, Get(P, k, data).value.rest).Some? ==>
              var x := Get(P, k, data).value; var y := Get(P, e, x.rest).value;
              GetEntries(P, k, e, n, data) == AddEntry(x.value, y.value, GetEntries(P, k, e, n - 1, y.rest))
  {
    hide Get, ProgramOk, Rank, AddEntry;
  }

  lemma {:induction false} EntriesConsume(P: Program, k: Type, e: Type, n: nat, data: Bytes)
    requires ProgramOk(P) && GetEntries(P, k, e, n, data).Some?
    ensures Consumed(data, GetEntries(P, k, e, n, data).value.rest, n * (MinSize(P, k) + MinSize(P, e)))
    decreases |data|, Rank(P, k) + Rank(P, e), 1, n
  {
    hide Get, GetEntries, AddEntry, ProgramOk, Consumed, MinSize, Rank;
    GetEntriesStep(P, k, e, n, data);
    if n == 0 {
      AllLeft(data);
    } else {
      var x := Get(P, k, data).value;
      var y := Get(P, e, x.rest).value;
      var m := MinSize(P, k) + MinSize(P, e);
      GetConsumes(P, k, data);
      GetConsumes(P, e, x.rest);
      EntriesConsume(P, k, e, n - 1, y.rest);
      ConsumedBoth(data, x.rest, y.rest, MinSize(P, k), MinSize(P, e));
      ConsumedBoth(data, y.rest, GetEntries(P, k, e, n - 1, y.rest).value.rest, m, (n - 1) * m);
      assert n * m == m + (n - 1) * m;
    }
  }

  // ----- the minimum of a plan -----

  /** A struct in progress takes at least a byte, unless t is nested in it by
      value only. */
  ghost predicate OpenOk(P: Program, open: set<Name>, t: Type)
    requires ProgramOk(P)
  {
    forall s | s in open :: MinSize(P, Struct(s)) >= 1 || (MinSize(P, t) == 0 && Rank(P, t) < Rank(P, Struct(s)))
  }

  lemma NestedOpen(P: Program, open: set<Name>, t: Type, e: Type)
    requires ProgramOk(P) && OpenOk(P, open, t) && MinSize(P, t) >= 1
    ensures OpenOk(P, open, e)
  {
    hide MinSize, Rank, ProgramOk;
  }

  lemma FieldOpen(P: Program, open: set<Name>, s: Name, i: nat)
    requires ProgramOk(P) && s in P.structs && OpenOk(P, open, Struct(s)) && i < |P.structs[s]|
    ensures OpenOk(P, open + {s}, P.structs[s][i])
  {
    var f := P.structs[s][i];
    assert FieldOk(P, s, f);
    FieldMin(P, P.structs[s], P.rank[s], i);
  }

  lemma {:induction false} FieldMin(P: Program, ts: seq<Type>, r: nat, i: nat)
    requires ProgramOk(P) && (forall j | 0 <= j < |ts| :: Rank(P, ts[j]) <= r) && i < |ts|
    ensures MinSize(P, ts[i]) <= MinSizes(P, ts, r)
  {
    hide ProgramOk, Rank, MinSize;
    if i > 0 {
      FieldMin(P, ts[1..], r, i - 1);
    }
  }

  /** The compiler's minimum never exceeds the real one, and is zero only
      where the real one is; in particular a back-reference takes a byte. */
  lemma {:induction false} PlanMinIs(P: Program, t: Type, p: Plan, open: set<Name>)
    requires ProgramOk(P) && Compile(P, t, open) == Some(p) && OpenOk(P, open, t)
    ensures PlanMin(p) <= MinSize(P, t)
    ensures PlanMin(p) == 0 ==> MinSize(P, t) == 0
    decreases P.structs.Keys - open, TypeSize(t)
  {
    if p.PStruct? {
      var s := t.name;
      forall i | 0 <= i < |P.structs[s]| ensures OpenOk(P, open + {s}, P.structs[s][i]) {
        FieldOpen(P, open, s, i);
      }
      PlanMinsAre(P, P.structs[s], P.rank[s], p.fields, open + {s});
    }
  }

  lemma {:induction false} PlanMinsAre(P: Program, ts: seq<Type>, r: nat, ps: seq<Plan>, open: set<Name>)
    requires ProgramOk(P) && CompileFields(P, ts, open) == Some(ps)
    requires forall i | 0 <= i < |ts| :: Rank(P, ts[i]) <= r && OpenOk(P, open, ts[i])
    ensures PlanMins(ps) <= MinSizes(P, ts, r)
    ensures PlanMins(ps) == 0 ==> MinSizes(P, ts, r) == 0
    decreases P.structs.Keys - open, TypeSizes(ts)
  {
    hide ProgramOk, Rank, OpenOk, PlanMin, MinSize, Compile;
    if ts != [] {
      PlanMinIs(P, ts[0], ps[0], open);
      PlanMinsAre(P, ts[1..], r, ps[1..], open);
    }
  }

  // ----- encoding -----

  lemma MapBytes<K>(a: map<K, Bytes>, b: map<K, Bytes>)
    requires a.Keys == b.Keys && forall x | x in a :: a[x] == b[x]
    ensures a == b
  {
  }

  /** A compiled plan writes what the type prescribes. */
  lemma {:induction false} EncodeSame(P: Program, env: seq<Plan>, t: Type, p: Plan, v: Value)
    requires Compiled(P, env, t, p)
    ensures Encode(env, p, v) == Put(P, t, v)
    decreases v, 2, |env|
  {
    hide ProgramOk, EnvOk, PutMap, PutRaw, PutScalar, PutScalars, AppendUvarint, Names;
    match p
    case PSlice(e) => if v.VSeq? { ItemsSame(P, env, t.elem, e, v.items); }
    case PMap(k, e) => if v.VMap? { MapEncodesSame(P, env, t, p, v); }
    case PStruct(s, fs) =>
      EnvPush(P, env, s, p);
      if v.VStruct? { FieldsSame(P, env + [p], P.structs[s], fs, v.fields); }
    case PPointer(e) => if v.VRef? { EncodeSame(P, env, t.elem, e, v.target); }
    case PForward(s) =>
      ForwardResolves(P, env, s);
      EncodeSame(P, env[..Lookup(env, s)], t, env[Lookup(env, s)], v);
    case _ =>
  }

  lemma {:induction false} ItemsSame(P: Program, env: seq<Plan>, t: Type, p: Plan, vs: seq<Value>)
    requires Compiled(P, env, t, p)
    ensures EncodeItems(env, p, vs) == PutItems(P, t, vs)
    decreases vs, 1
  {
    hide Compiled, Encode, Put;
    if vs != [] {
      EncodeSame(P, env, t, p, vs[0]);
      ItemsSame(P, env, t, p, vs[1..]);
    }
  }

  lemma {:induction false} FieldsSame(P: Program, env: seq<Plan>, ts: seq<Type>, ps: seq<Plan>, vs: seq<Value>)
    requires ProgramOk(P) && EnvOk(P, env) && CompileFields(P, ts, Names(env)) == Some(ps)
    ensures EncodeFields(env, ps, vs) == PutFields(P, ts, vs)
    decreases vs, 1
  {
    hide ProgramOk, EnvOk, Encode, Put, Compile;
    if ts != [] && vs != [] {
      EncodeSame(P, env, ts[0], ps[0], vs[0]);
      FieldsSame(P, env, ts[1..], ps[1..], vs[1..]);
    }
  }

  lemma {:induction false} MapEncodesSame(P: Program, env: seq<Plan>, t: Type, p: Plan, v: Value)
    requires t.Map? && p.PMap? && v.VMap? && Compiled(P, env, t.key, p.key) && Compiled(P, env, t.elem, p.elem)
    ensures Encode(env, p, v) == Put(P, t, v)
    decreases v, 1
  {
    hide Compiled, PutMap;
    var m := v.entries;
    forall x | x in m
      ensures Encode(env, p.key, x) == Put(P, t.key, x) && Encode(env, p.elem, m[x]) == Put(P, t.elem, m[x])
    {
      EncodeSame(P, env, t.key, p.key, x);
      EncodeSame(P, env, t.elem, p.elem, m[x]);
    }
    MapBytes(map x | x in m :: Encode(env, p.key, x), map x | x in m :: Put(P, t.key, x));
    MapBytes(map x | x in m :: Encode(env, p.elem, m[x]), map x | x in m :: Put(P, t.elem, m[x]));
  }

  // ----- decoding -----

  lemma CountFits(n: nat, min: nat, low: nat, len: nat)
    requires n * min <= len && 0 < low <= min
    ensures n <= len / low
  {
    assert n * low <= n * min;
    var q := len / low;
    assert len == q * low + len % low;
    if n > q { QuotientStep(n, q, low); }
  }

  lemma QuotientStep(n: nat, q: nat, low: nat)
    requires n > q
    ensures n * low >= q * low + low
  {
    var d := n - q - 1;
    assert n * low == q * low + low + d * low;
  }

  /** The length check refuses only what cannot be decoded anyway. */
  lemma CountSame(data: Bytes, min: nat, low: nat)
    requires low <= min && (low == 0 ==> min == 0)
    ensures ReadCount(data, low).Some? ==> CountOf(data, min) == ReadCount(data, low)
    ensures ReadCount(data, low).None? && CountOf(data, min).Some? ==>
              low > 0 && CountOf(data, min).value.value > |CountOf(data, min).value.rest| / low
  {
    hide Uvarint;
  }

  /** A compiled plan reads what the type prescribes, and fails where it fails. */
  lemma {:induction false} DecodeSame(P: Program, env: seq<Plan>, t: Type, p: Plan, data: Bytes)
    requires Compiled(P, env, t, p) && OpenOk(P, Names(env), t)
    ensures Decode(P, env, t, p, data) == Get(P, t, data)
    decreases |data|, Rank(P, t), 0, |env| + 1
  {
    hide ProgramOk, EnvOk, OpenOk, GetScalar, GetScalars, GetBytes, Names;
    match p
    case PSlice(e) => SliceSame(P, env, t, p, data);
    case PMap(k, e) => MapSame(P, env, t, p, data);
    case PStruct(s, fs) => StructSame(P, env, t, p, data);
    case PPointer(e) =>
      if data != [] && data[0] == 1 {
        NestedOpen(P, Names(env), t, t.elem);
        DecodeSame(P, env, t.elem, e, data[1..]);
      }
    case PForward(s) =>
      ForwardResolves(P, env, s);
      OpenPrefix(P, env, t, Lookup(env, s));
      DecodeSame(P, env[..Lookup(env, s)], t, env[Lookup(env, s)], data);
    case _ =>
  }

  lemma OpenPrefix(P: Program, env: seq<Plan>, t: Type, i: nat)
    requires ProgramOk(P) && OpenOk(P, Names(env), t) && i <= |env|
    ensures OpenOk(P, Names(env[..i]), t)
  {
    hide MinSize, Rank, ProgramOk;
  }

  lemma {:induction false} SliceSame(P: Program, env: seq<Plan>, t: Type, p: Plan, data: Bytes)
    requires Compiled(P, env, t, p) && OpenOk(P, Names(env), t) && p.PSlice?
    ensures Decode(P, env, t, p, data) == Get(P, t, data)
    decreases |data|, 0, 0, 0
  {
    hide ProgramOk, EnvOk, OpenOk, Uvarint, MinSize, Consumed, CountOf, ReadCount, Names;
    var e, q := t.elem, p.elem;
    assert MinSize(P, t) == 1 by { SliceMin(P, e); }
    NestedOpen(P, Names(env), t, e);
    PlanMinIs(P, e, q, Names(env));
    CountSame(data, MinSize(P, e), PlanMin(q));
    var c := CountOf(data, MinSize(P, e));
    if ReadCount(data, PlanMin(q)).Some? {
      DecodeItemsSame(P, env, e, q, c.value.value, c.value.rest);
    } else if c.Some? && GetItems(P, e, c.value.value, c.value.rest).Some? {
      ItemsConsume(P, e, c.value.value, c.value.rest);
      ConsumedFits(c.value.rest, GetItems(P, e, c.value.value, c.value.rest).value.rest, c.value.value, MinSize(P, e), PlanMin(q));
    }
  }

  lemma SliceMin(P: Program, e: Type)
    requires ProgramOk(P)
    ensures MinSize(P, Slice(e)) == 1
  {
  }

  lemma MapMin(P: Program, k: Type, e: Type)
    requires ProgramOk(P)
    ensures MinSize(P, Map(k, e)) == 1
  {
  }

  lemma ConsumedFits(data: Bytes, rest: Bytes, n: nat, min: nat, low: nat)
    requires Consumed(data, rest, n * min) && 0 < low <= min
    ensures n <= |data| / low
  {
    CountFits(n, min, low, |data|);
  }

  lemma {:induction false} DecodeItemsSame(P: Program, env: seq<Plan>, t: Type, p: Plan, n: nat, data: Bytes)
    requires Compiled(P, env, t, p) && OpenOk(P, Names(env), t)
    ensures DecodeItems(P, env, t, p, n, data) == GetItems(P, t, n, data)
    decreases |data|, Rank(P, t), 1, n
  {
    hide ProgramOk, EnvOk, OpenOk, Decode, Get, Rank, Compile, Names;
    if n > 0 {
      DecodeSame(P, env, t, p, data);
      var x := Get(P, t, data);
      if x.Some? { DecodeItemsSame(P, env, t, p, n - 1, x.value.rest); }
    }
  }

  lemma {:induction false} GetMapIs(P: Program, k: Type, e: Type, data: Bytes, c: Option<Read<nat>>)
    requires ProgramOk(P) && CountOf(data, MinSize(P, k) + MinSize(P, e)) == c
    ensures c.None? ==> Get(P, Map(k, e), data) == None
    ensures c.Some? ==> Get(P, Map(k, e), data) == AsMap(GetEntries(P, k, e, c.value.value, c.value.rest))
  {
    hide ProgramOk, CountOf, MinSize, GetEntries;
  }

  function AsMap(r: Option<Read<map<Value, Value>>>): Option<Read<Value>> {
    if r.None? then None else Some(Read(VMap(r.value.value), r.value.rest))
  }

  lemma {:induction false} DecodeMapIs(P: Program, env: seq<Plan>, t: Type, p: Plan, data: Bytes, c: Option<Read<nat>>)
    requires Compiled(P, env, t, p) && p.PMap? && ReadCount(data, PlanMin(p.key) + PlanMin(p.elem)) == c
    ensures t.Map? && Compiled(P, env, t.key, p.key) && Compiled(P, env, t.elem, p.elem)
    ensures c.None? ==> Decode(P, env, t, p, data) == None
    ensures c.Some? ==> Decode(P, env, t, p, data)
                        == AsMap(DecodeEntries(P, env, t.key, t.elem, p.key, p.elem, c.value.value, c.value.rest))
  {
    hide ProgramOk, EnvOk, Names, ReadCount, PlanMin, DecodeEntries;
  }

  lemma {:induction false} MapSame(P: Program, env: seq<Plan>, t: Type, p: Plan, data: Bytes)
    requires Compiled(P, env, t, p) && OpenOk(P, Names(env), t) && p.PMap?
    ensures Decode(P, env, t, p, data) == Get(P, t, data)
    decreases |data|, 0, 0, 0
  {
    hide ProgramOk, EnvOk, OpenOk, MinSize, Consumed, CountOf, ReadCount, Names, Decode, Get, PlanMin, DecodeEntries, GetEntries, Compile;
    var low := PlanMin(p.key) + PlanMin(p.elem);
    DecodeMapIs(P, env, t, p, data, ReadCount(data, low));
    var k, e := t.key, t.elem;
    MapMin(P, k, e);
    NestedOpen(P, Names(env), t, k);
    NestedOpen(P, Names(env), t, e);
    PlanMinIs(P, k, p.key, Names(env));
    PlanMinIs(P, e, p.elem, Names(env));
    var min := MinSize(P, k) + MinSize(P, e);
    CountSame(data, min, low);
    var c := CountOf(data, min);
    GetMapIs(P, k, e, data, c);
    if ReadCount(data, low).Some? {
      DecodeEntriesSame(P, env, k, e, p.key, p.elem, c.value.value, c.value.rest);
    } else if c.Some? && GetEntries(P, k, e, c.value.value, c.value.rest).Some? {
      EntriesConsume(P, k, e, c.value.value, c.value.rest);
      ConsumedFits(c.value.rest, GetEntries(P, k, e, c.value.value, c.value.rest).value.rest, c.value.value, min, low);
    }
  }

  /** The ways decoding a first entry can go. */
  lemma {:induction false} DecodeEntriesStep(P: Program, env: seq<Plan>, k: Type, e: Type, p: Plan, q: Plan, n: nat, data: Bytes,
                                             x: Option<Read<Value>>, y: Option<Read<Value>>)
    requires Compiled(P, env, k, p) && Compiled(P, env, e, q) && n > 0
    requires Decode(P, env, k, p, data) == x && (x.Some? ==> Decode(P, env, e, q, x.value.rest) == y)
    ensures x.None? || y.None? ==> DecodeEntries(P, env, k, e, p, q, n, data).None?
    ensures x.Some? && y.Some? ==>
              DecodeEntries(P, env, k, e, p, q, n, data)
              == AddEntry(x.value.value, y.value.value, DecodeEntries(P, env, k, e, p, q, n - 1, y.value.rest))
  {
    hide Decode, Compiled, Rank, AddEntry;
  }

  lemma {:induction false} DecodeNoEntries(P: Program, env: seq<Plan>, k: Type, e: Type, p: Plan, q: Plan, data: Bytes)
    requires Compiled(P, env, k, p) && Compiled(P, env, e, q)
    ensures DecodeEntries(P, env, k, e, p, q, 0, data) == Some(Read(map[], data))
  {
    hide Decode, Compiled, Rank, AddEntry;
  }

  lemma {:induction false} DecodeEntriesSame(P: Program, env: seq<Plan>, k: Type, e: Type, p: Plan, q: Plan, n: nat, data: Bytes)
    requires ProgramOk(P) && Compiled(P, env, k, p) && Compiled(P, env, e, q)
    requires OpenOk(P, Names(env), k) && OpenOk(P, Names(env), e)
    ensures DecodeEntries(P, env, k, e, p, q, n, data) == GetEntries(P, k, e, n, data)
    decreases |data|, Rank(P, k) + Rank(P, e), 1, n
  {
    hide AddEntry, ProgramOk, Compiled, OpenOk, Decode, Get, Rank, Names, DecodeEntries, GetEntries;
    GetEntriesStep(P, k, e, n, data);
    if n == 0 {
      DecodeNoEntries(P, env, k, e, p, q, data);
    } else {
      DecodeSame(P, env, k, p, data);
      var x, y := Get(P, k, data), None;
      if x.Some? {
        DecodeSame(P, env, e, q, x.value.rest);
        y := Get(P, e, x.value.rest);
        if y.Some? { DecodeEntriesSame(P, env, k, e, p, q, n - 1, y.value.rest); }
      }
      DecodeEntriesStep(P, env, k, e, p, q, n, data, x, y);
    }
  }

  lemma {:induction false} StructSame(P: Program, env: seq<Plan>, t: Type, p: Plan, data: Bytes)
    requires Compiled(P, env, t, p) && OpenOk(P, Names(env), t) && p.PStruct?
    ensures Decode(P, env, t, p, data) == Get(P, t, data)
    decreases |data|, Rank(P, t), 0, 0
  {
    hide EnvOk, OpenOk, MinSize, Names;
    var s, env2 := p.name, env + [p];
    EnvPush(P, env, s, p);
    forall i | 0 <= i < |P.structs[s]| ensures OpenOk(P, Names(env2), P.structs[s][i]) {
      FieldOpen(P, Names(env), s, i);
    }
    DecodeFieldsSame(P, env2, P.structs[s], P.rank[s], p.fields, data);
  }

  lemma {:induction false} DecodeFieldsSame(P: Program, env: seq<Plan>, ts: seq<Type>, r: nat, ps: seq<Plan>, data: Bytes)
    requires FieldsCompiled(P, env, ts, r, ps) && forall i | 0 <= i < |ts| :: OpenOk(P, Names(env), ts[i])
    ensures DecodeFields(P, env, ts, r, ps, data) == GetFields(P, ts, r, data)
    decreases |data|, r, 1, |ts|
  {
    hide ProgramOk, EnvOk, OpenOk, Decode, Get, Rank, Compile, Names;
    if ts != [] {
      DecodeSame(P, env, ts[0], ps[0], data);
      var x := Get(P, ts[0], data);
      if x.Some? { DecodeFieldsSame(P, env, ts[1..], r, ps[1..], x.value.rest); }
    }
  }
}
