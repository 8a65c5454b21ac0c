/** What WireCodec means, by type: which values a Go type has, how each is
    written, and how it is read back. Structs are named, so types may refer to
    each other recursively. */
module WireTypes {
  import opened Foundation
  import opened WireFormat

  datatype Kind = Bool | Int8 | Uint8 | Int16 | Uint16 | Int32 | Uint32 | Int64 | Uint64 | Float32 | Float64

  type Name = string

  /** `Unsupported` stands for the kinds with no wire form: platform-sized
      integers, interfaces, channels, functions, complex numbers. */
  datatype Type =
    | Scalar(kind: Kind)
    | Str
    | Slice(elem: Type)
    | Array(len: nat, elem: Type)
    | Map(key: Type, elem: Type)
    | Struct(name: Name)
    | Pointer(elem: Type)
    | Unsupported

  /** The struct declarations in scope: the types of the fields that go on the
      wire. `rank` witnesses the rule of the language that no struct contains
      itself by value. */
  datatype Program = Program(structs: map<Name, seq<Type>>, rank: map<Name, nat>)

  /** Values; strings and byte slices are VBytes, floats their bit words. */
  datatype Value =
    | VBool(flag: bool)
    | VNum(num: int)
    | VBytes(bytes: Bytes)
    | VSeq(items: seq<Value>)
    | VMap(entries: map<Value, Value>)
    | VStruct(fields: seq<Value>)
    | VNil
    | VRef(target: Value)

  // ----- programs -----

  /** How deep structs may still nest by value below t. */
  function Rank(P: Program, t: Type): nat {
    if t.Struct? && t.name in P.rank then P.rank[t.name] + 1 else 0
  }

  ghost predicate ProgramOk(P: Program) {
    && P.rank.Keys == P.structs.Keys
    && forall s, i | s in P.structs && 0 <= i < |P.structs[s]| :: FieldOk(P, s, P.structs[s][i])
  }

  ghost predicate FieldOk(P: Program, s: Name, t: Type) {
    s in P.rank && Rank(P, t) <= P.rank[s]
  }

  /** Every map in the program has keys that are compared by content. */
  ghost predicate ContentKeys(P: Program) {
    forall s, i | s in P.structs && 0 <= i < |P.structs[s]| :: TypeOk(P, P.structs[s][i])
  }

  /** Struct names resolve, and map keys are compared by content. */
  ghost predicate TypeOk(P: Program, t: Type) {
    match t
    case Slice(e) => TypeOk(P, e)
    case Array(_, e) => TypeOk(P, e)
    case Map(k, e) => TypeOk(P, k) && TypeOk(P, e) && IsKey(P, k, Rank(P, k))
    case Struct(s) => s in P.structs
    case Pointer(e) => TypeOk(P, e)
    case _ => true
  }

  /** The comparable types without pointers, structs nested less than r deep. */
  ghost predicate IsKey(P: Program, t: Type, r: nat)
    decreases r
  {
    match t
    case Scalar(_) => true
    case Str => true
    case Array(_, e) => e.Scalar?
    case Struct(s) => r > 0 && s in P.structs && forall i | 0 <= i < |P.structs[s]| :: IsKey(P, P.structs[s][i], r - 1)
    case _ => false
  }

  // ----- scalars -----

  function Size(k: Kind): nat {
    match k
    case Bool => 1 case Int8 => 1 case Uint8 => 1
    case Int16 => 2 case Uint16 => 2
    case Int32 => 4 case Uint32 => 4 case Float32 => 4
    case Int64 => 8 case Uint64 => 8 case Float64 => 8
  }

  predicate Signed(k: Kind) {
    k == Int8 || k == Int16 || k == Int32 || k == Int64
  }

  predicate ScalarValue(k: Kind, v: Value) {
    if k == Bool then v.VBool?
    else
      && v.VNum?
      && var span := Pow256(Size(k));
         if Signed(k) then -(span / 2) <= v.num < span / 2 else 0 <= v.num < span
  }

  function PutScalar(k: Kind, v: Value): Bytes {
    if k == Bool then (if v == VBool(true) then [1] else [0])
    else if !v.VNum? then []
    else
      var w := if v.num < 0 then v.num + Pow256(Size(k)) else v.num;
      if w < 0 then [] else PutWord(w, Size(k))
  }

  function GetScalar(k: Kind, data: Bytes): (r: Option<Read<Value>>)
    ensures r.Some? ==> |r.value.rest| + Size(k) == |data| && r.value.rest == data[Size(k)..]
  {
    if |data| < Size(k) then None
    else
      var w := GetWord(data[..Size(k)]);
      var v := if k == Bool then VBool(data[0] != 0)
               else if Signed(k) && w >= Pow256(Size(k)) / 2 then VNum(w - Pow256(Size(k)))
               else VNum(w);
      Some(Read(v, data[Size(k)..]))
  }

  lemma ScalarRoundTrip(k: Kind, v: Value, tail: Bytes)
    requires ScalarValue(k, v)
    ensures |PutScalar(k, v)| == Size(k)
    ensures GetScalar(k, PutScalar(k, v) + tail) == Some(Read(v, tail))
  {
    var b := PutScalar(k, v);
    SpanEven(Size(k));
    if k != Bool {
      var w := if v.num < 0 then v.num + Pow256(Size(k)) else v.num;
      WordRoundTrip(w, Size(k));
    }
    assert (b + tail)[..Size(k)] == b;
  }

  lemma SpanEven(size: nat)
    requires size > 0
    ensures Pow256(size) == 2 * (Pow256(size) / 2)
  {
    assert Pow256(size) == 256 * Pow256(size - 1);
  }

  // ----- the values of a type -----

  const MaxLen := 0x7FFF_FFFF_FFFF_FFFF

  /** v is a value of type t; arrays have a wire form only over scalars. */
  ghost predicate HasType(P: Program, t: Type, v: Value)
    decreases v
  {
    match t
    case Scalar(k) => ScalarValue(k, v)
    case Str => v.VBytes? && |v.bytes| <= MaxLen
    case Slice(e) =>
      if e == Scalar(Uint8) then v.VBytes? && |v.bytes| <= MaxLen
      else v.VSeq? && |v.items| <= MaxLen && forall i | 0 <= i < |v.items| :: HasType(P, e, v.items[i])
    case Array(n, e) => e.Scalar? && v.VSeq? && |v.items| == n && forall i | 0 <= i < n :: ScalarValue(e.kind, v.items[i])
    case Map(k, e) =>
      v.VMap? && |v.entries| <= MaxLen && forall x | x in v.entries :: HasType(P, k, x) && HasType(P, e, v.entries[x])
    case Struct(s) => v.VStruct? && s in P.structs && HaveTypes(P, P.structs[s], v.fields)
    case Pointer(e) => v == VNil || (v.VRef? && HasType(P, e, v.target))
    case Unsupported => false
  }

  ghost predicate HaveTypes(P: Program, ts: seq<Type>, vs: seq<Value>)
    decreases vs
  {
    |ts| == |vs| && (vs != [] ==> HasType(P, ts[0], vs[0]) && HaveTypes(P, ts[1..], vs[1..]))
  }

  /** The fewest bytes a value of type t takes. */
  ghost function MinSize(P: Program, t: Type): nat
    requires ProgramOk(P)
    decreases Rank(P, t), 0
  {
    match t
    case Scalar(k) => Size(k)
    case Array(n, e) => if e.Scalar? then n * Size(e.kind) else 0
    case Struct(s) =>
      if s in P.structs then
        MinSizes(P, P.structs[s], P.rank[s])
      else 0
    case _ => 1
  }

  ghost function MinSizes(P: Program, ts: seq<Type>, r: nat): nat
    requires ProgramOk(P) && forall i | 0 <= i < |ts| :: Rank(P, ts[i]) <= r
    decreases r, 1, |ts|
  {
    if ts == [] then 0 else MinSize(P, ts[0]) + MinSizes(P, ts[1..], r)
  }

  /** The decoder's limit on elements that take no bytes. */
  ghost predicate Capped(P: Program, t: Type, v: Value)
    requires ProgramOk(P)
    decreases v
  {
    match t
    case Slice(e) =>
      v.VSeq? ==> (MinSize(P, e) == 0 ==> |v.items| <= MaxZeroSizeCount) && forall i | 0 <= i < |v.items| :: Capped(P, e, v.items[i])
    case Map(_, e) => v.VMap? ==> forall x | x in v.entries :: Capped(P, e, v.entries[x])
    case Struct(s) => v.VStruct? && s in P.structs ==> AllCapped(P, P.structs[s], v.fields)
    case Pointer(e) => v.VRef? ==> Capped(P, e, v.target)
    case _ => true
  }

  ghost predicate AllCapped(P: Program, ts: seq<Type>, vs: seq<Value>)
    requires ProgramOk(P)
    decreases vs
  {
    ts != [] && vs != [] ==> Capped(P, ts[0], vs[0]) && AllCapped(P, ts[1..], vs[1..])
  }

  // ----- writing -----

  /** Some iteration order of a set. */
  ghost function AnyOrder<K>(s: set<K>): seq<K> {
    if s == {} then [] else var k :| k in s; AnyOrder(s - {k}) + [k]
  }

  function PutEntries<K>(ks: seq<K>, keys: map<K, Bytes>, vals: map<K, Bytes>): Bytes {
    if ks == [] then []
    else (if ks[0] in keys && ks[0] in vals then keys[ks[0]] + vals[ks[0]] else []) + PutEntries(ks[1..], keys, vals)
  }

  /** A map is written in the byte order of its encoded keys. */
  ghost function PutMap<K>(keys: map<K, Bytes>, vals: map<K, Bytes>): Bytes {
    AppendUvarint(|keys|) + PutEntries(SortKeys(AnyOrder(keys.Keys), keys), keys, vals)
  }

  ghost function Put(P: Program, t: Type, v: Value): Bytes
    decreases v, 0
  {
    match t
    case Scalar(k) => PutScalar(k, v)
    case Str => if v.VBytes? then PutRaw(v.bytes) else []
    case Slice(e) =>
      if e == Scalar(Uint8) then (if v.VBytes? then PutRaw(v.bytes) else [])
      else if v.VSeq? then AppendUvarint(|v.items|) + PutItems(P, e, v.items) else []
    case Array(_, e) => if v.VSeq? && e.Scalar? then PutScalars(e.kind, v.items) else []
    case Map(k, e) =>
      if v.VMap? then
        PutMap(map x | x in v.entries :: Put(P, k, x), map x | x in v.entries :: Put(P, e, v.entries[x]))
      else []
    case Struct(s) => if v.VStruct? && s in P.structs then PutFields(P, P.structs[s], v.fields) else []
    case Pointer(e) => if v.VRef? then [1] + Put(P, e, v.target) else [0]
    case Unsupported => []
  }

  function PutScalars(k: Kind, vs: seq<Value>): Bytes {
    if vs == [] then [] else PutScalar(k, vs[0]) + PutScalars(k, vs[1..])
  }

  ghost function PutItems(P: Program, t: Type, vs: seq<Value>): Bytes
    decreases vs, 1
  {
    if vs == [] then [] else Put(P, t, vs[0]) + PutItems(P, t, vs[1..])
  }

  ghost function PutFields(P: Program, ts: seq<Type>, vs: seq<Value>): Bytes
    decreases vs, 1
  {
    if ts == [] || vs == [] then [] else Put(P, ts[0], vs[0]) + PutFields(P, ts[1..], vs[1..])
  }

  // ----- reading -----

  /** Reading terminates: pointers, slices and maps consume a byte before
      anything nested is read, and structs nest by value only finitely deep. */
  ghost function Get(P: Program, t: Type, data: Bytes): (r: Option<Read<Value>>)
    requires ProgramOk(P)
    ensures r.Some? ==> |r.value.rest| <= |data|
    decreases |data|, Rank(P, t), 0, 0
  {
    match t
    case Scalar(k) => GetScalar(k, data)
    case Str => GetBytes(data)
    case Slice(e) =>
      if e == Scalar(Uint8) then GetBytes(data)
      else
        var c := CountOf(data, MinSize(P, e));
        if c.None? then None else
        var r := GetItems(P, e, c.value.value, c.value.rest);
        if r.None? then None else Some(Read(VSeq(r.value.value), r.value.rest))
    case Array(n, e) =>
      if !e.Scalar? then None else
      var r := GetScalars(e.kind, n, data);
      if r.None? then None else Some(Read(VSeq(r.value.value), r.value.rest))
    case Map(k, e) =>
      var c := CountOf(data, MinSize(P, k) + MinSize(P, e));
      if c.None? then None else
      var r := GetEntries(P, k, e, c.value.value, c.value.rest);
      if r.None? then None else Some(Read(VMap(r.value.value), r.value.rest))
    case Struct(s) =>
      if s !in P.structs then None else
      var r := GetFields(P, P.structs[s], P.rank[s], data);
      if r.None? then None else Some(Read(VStruct(r.value.value), r.value.rest))
    case Pointer(e) =>
      if data == [] then None
      else if data[0] == 0 then Some(Read(VNil, data[1..]))
      else if data[0] == 1 then
        var r := Get(P, e, data[1..]);
        if r.None? then None else Some(Read(VRef(r.value.value), r.value.rest))
      else None
    case Unsupported => None
  }

  function GetBytes(data: Bytes): (r: Option<Read<Value>>)
    ensures r.Some? ==> |r.value.rest| < |data|
  {
    var r := ReadRaw(data);
    if r.None? then None else Some(Read(VBytes(r.value.value), r.value.rest))
  }

  /** A count; only counts of elements that take no bytes are limited. */
  function CountOf(data: Bytes, min: nat): (r: Option<Read<nat>>)
    ensures r.Some? ==> |r.value.rest| < |data|
  {
    var c := Uvarint(data);
    if c.None? || (min == 0 && c.value.value > MaxZeroSizeCount) then None else c
  }

  function GetScalars(k: Kind, n: nat, data: Bytes): (r: Option<Read<seq<Value>>>)
    ensures r.Some? ==> |r.value.rest| <= |data|
  {
    if n == 0 then Some(Read([], data))
    else
      var x := GetScalar(k, data);
      if x.None? then None else
      var r := GetScalars(k, n - 1, x.value.rest);
      if r.None? then None else Some(Read([x.value.value] + r.value.value, r.value.rest))
  }

  ghost function GetItems(P: Program, t: Type, n: nat, data: Bytes): (r: Option<Read<seq<Value>>>)
    requires ProgramOk(P)
    ensures r.Some? ==> |r.value.rest| <= |data|
    decreases |data|, Rank(P, t), 1, n
  {
    if n == 0 then Some(Read([], data))
    else
      var x := Get(P, t, data);
      if x.None? then None else
      var r := GetItems(P, t, n - 1, x.value.rest);
      if r.None? then None else Some(Read([x.value.value] + r.value.value, r.value.rest))
  }

  ghost function GetFields(P: Program, ts: seq<Type>, r: nat, data: Bytes): (o: Option<Read<seq<Value>>>)
    requires ProgramOk(P) && forall i | 0 <= i < |ts| :: Rank(P, ts[i]) <= r
    ensures o.Some? ==> |o.value.rest| <= |data|
    decreases |data|, r, 1, |ts|
  {
    if ts == [] then Some(Read([], data))
    else
      var x := Get(P, ts[0], data);
      if x.None? then None else
      var o := GetFields(P, ts[1..], r, x.value.rest);
      if o.None? then None else Some(Read([x.value.value] + o.value.value, o.value.rest))
  }

  /** One entry before the others: a repeated key takes the last of its values. */
  function AddEntry(x: Value, y: Value, others: Option<Read<map<Value, Value>>>): (r: Option<Read<map<Value, Value>>>)
    ensures r.Some? <==> others.Some?
    ensures r.Some? ==> r.value.rest == others.value.rest
  {
    if others.None? then None else Some(Read(map[x := y] + others.value.value, others.value.rest))
  }

  ghost function GetEntries(P: Program, k: Type, e: Type, n: nat, data: Bytes): (r: Option<Read<map<Value, Value>>>)
    requires ProgramOk(P)
    ensures r.Some? ==> |r.value.rest| <= |data|
    decreases |data|, Rank(P, k) + Rank(P, e), 1, n
  {
    if n == 0 then Some(Read(map[], data))
    else
      var x := Get(P, k, data);
      if x.None? then None else
      var y := Get(P, e, x.value.rest);
      if y.None? then None else
      var r := GetEntries(P, k, e, n - 1, y.value.rest);
      AddEntry(x.value.value, y.value.value, r)
  }
}
