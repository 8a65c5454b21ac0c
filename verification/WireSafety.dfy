/** The promises of WireCodec, over every program of struct declarations, every
    supported type, every value and every byte string. */
module WireSafety {
  import opened Foundation
  import opened WireFormat
  import opened WireTypes
  import opened WireRoundTrip
  import opened WirePlan
  import opened WireCorrect

  lemma NothingOpen(P: Program, t: Type)
    requires ProgramOk(P)
    ensures EnvOk(P, []) && Names([]) == {} && OpenOk(P, {}, t)
  {
  }

  lemma TopCompiled(P: Program, t: Type, p: Plan)
    requires ProgramOk(P) && Compile(P, t, {}) == Some(p)
    ensures Compiled(P, [], t, p) && OpenOk(P, Names([]), t)
  {
    NothingOpen(P, t);
  }

  // ----- compiling preserves meaning -----

  /** The compiled codec of a type writes and reads exactly what the type
      prescribes: back-references, fast paths and length checks are invisible. */
  lemma CompileCorrect(P: Program, t: Type, p: Plan, v: Value, data: Bytes)
    requires ProgramOk(P) && Compile(P, t, {}) == Some(p)
    ensures Encode([], p, v) == Put(P, t, v)
    ensures Compiled(P, [], t, p) && Decode(P, [], t, p, data) == Get(P, t, data)
  {
    hide Compiled, OpenOk;
    TopCompiled(P, t, p);
    EncodeSame(P, [], t, p, v);
    DecodeSame(P, [], t, p, data);
  }

  // ----- round trip -----

  /** Decoding an encoding followed by any bytes gives back the value and
      exactly those bytes, if and only if no slice of zero-size elements in the
      value exceeds the decoder's cap. */
  lemma CodecRoundTrip(P: Program, t: Type, p: Plan, v: Value, tail: Bytes)
    requires ProgramOk(P) && ContentKeys(P) && TypeOk(P, t) && HasType(P, t, v) && Compile(P, t, {}) == Some(p)
    ensures Compiled(P, [], t, p)
    ensures Decode(P, [], t, p, Encode([], p, v) + tail) == Some(Read(v, tail)) <==> Capped(P, t, v)
    ensures !Capped(P, t, v) ==> Decode(P, [], t, p, Encode([], p, v) + tail) == None
  {
    hide Encode, Decode, Compiled, Put, Get, Capped, HasType;
    CompileCorrect(P, t, p, v, Encode([], p, v) + tail);
    RoundTrip(P, t, v, tail);
  }

  /** Marshal of a pointer to struct s. */
  ghost function Marshal(P: Program, s: Name, v: Value): Option<Bytes> {
    var p := Compile(P, Struct(s), {});
    if p.None? then None else Some(Encode([], p.value, v))
  }

  /** Unmarshal: the whole input must be one value. */
  ghost function Unmarshal(P: Program, s: Name, data: Bytes): Option<Value>
    requires ProgramOk(P)
  {
    var p := Compile(P, Struct(s), {});
    if p.None? then None
    else
      TopCompiled(P, Struct(s), p.value);
      var r := Decode(P, [], Struct(s), p.value, data);
      if r.None? || r.value.rest != [] then None else Some(r.value.value)
  }

  /** Messages survive the wire; trailing bytes are refused. */
  lemma MessageRoundTrip(P: Program, s: Name, v: Value, tail: Bytes)
    requires ProgramOk(P) && ContentKeys(P) && s in P.structs && HasType(P, Struct(s), v) && Marshal(P, s, v).Some?
    ensures Unmarshal(P, s, Marshal(P, s, v).value) == if Capped(P, Struct(s), v) then Some(v) else None
    ensures tail != [] ==> Unmarshal(P, s, Marshal(P, s, v).value + tail) == None
  {
    hide Encode, Decode, Compiled, Capped, HasType, Compile;
    var p := Compile(P, Struct(s), {}).value;
    var b := Encode([], p, v);
    CodecRoundTrip(P, Struct(s), p, v, []);
    assert b + [] == b;
    CodecRoundTrip(P, Struct(s), p, v, tail);
  }

  /** Different messages have different encodings. */
  lemma MarshalInjective(P: Program, s: Name, v: Value, w: Value)
    requires ProgramOk(P) && ContentKeys(P) && s in P.structs && HasType(P, Struct(s), v) && HasType(P, Struct(s), w)
    requires Capped(P, Struct(s), v) && Marshal(P, s, v).Some? && Marshal(P, s, v) == Marshal(P, s, w)
    ensures v == w
  {
    hide Capped, HasType, Marshal, Unmarshal;
    MessageRoundTrip(P, s, v, []);
    MessageRoundTrip(P, s, w, []);
  }

  /** The limit is real: a slice of 2^20 + 1 empty structs is written and
      cannot be read back. */
  lemma ZeroSizeSliceIsLost(e: Name, s: Name)
    requires e != s
    ensures var P := Program(map[e := [], s := [Slice(Struct(e))]], map[e := 0, s := 0]);
            var v := VStruct([VSeq(seq(MaxZeroSizeCount + 1, _ => VStruct([])))]);
            ProgramOk(P) && ContentKeys(P) && HasType(P, Struct(s), v) && Marshal(P, s, v).Some?
            && Unmarshal(P, s, Marshal(P, s, v).value) == None
  {
    var P := Program(map[e := [], s := [Slice(Struct(e))]], map[e := 0, s := 0]);
    var items := seq(MaxZeroSizeCount + 1, _ => VStruct([]));
    var v := VStruct([VSeq(items)]);
    assert P.structs[s][0] == Slice(Struct(e)) && P.structs[e] == [];
    assert TypeOk(P, Struct(e));
    assert FieldOk(P, s, P.structs[s][0]);
    assert ProgramOk(P) && ContentKeys(P);
    assert MinSize(P, Struct(e)) == 0;
    LostIsTyped(P, e, s, items);
    hide Encode, Decode, Compiled, Capped, HasType;
    LostCompiles(P, e, s);
    MessageRoundTrip(P, s, v, []);
  }

  lemma LostIsTyped(P: Program, e: Name, s: Name, items: seq<Value>)
    requires ProgramOk(P) && e in P.structs && P.structs[e] == [] && s in P.structs && P.structs[s] == [Slice(Struct(e))]
    requires MaxZeroSizeCount < |items| <= MaxLen && forall i | 0 <= i < |items| :: items[i] == VStruct([])
    requires MinSize(P, Struct(e)) == 0
    ensures HasType(P, Struct(s), VStruct([VSeq(items)])) && !Capped(P, Struct(s), VStruct([VSeq(items)]))
  {
    hide ProgramOk, MinSize;
    forall i | 0 <= i < |items| ensures HasType(P, Struct(e), items[i]) {
      assert HaveTypes(P, [], []);
    }
    var ts, vs := P.structs[s], [VSeq(items)];
    assert HasType(P, ts[0], vs[0]);
    assert HaveTypes(P, ts[1..], vs[1..]);
    assert HaveTypes(P, ts, vs);
    assert !Capped(P, ts[0], vs[0]);
    assert !AllCapped(P, ts, vs);
  }

  lemma LostCompiles(P: Program, e: Name, s: Name)
    requires e != s && e in P.structs && P.structs[e] == [] && s in P.structs && P.structs[s] == [Slice(Struct(e))]
    ensures Compile(P, Struct(s), {}).Some?
  {
    var ts := P.structs[s];
    assert CompileFields(P, P.structs[e], {s} + {e}) == Some([]);
    assert Compile(P, Struct(e), {s}) == Some(PStruct(e, []));
    assert {} + {s} == {s};
    assert Compile(P, ts[0], {s}).Some?;
    assert CompileFields(P, ts[1..], {s}) == Some([]);
    assert CompileFields(P, ts, {s}).Some?;
  }

  // ----- decoding is total -----

  /** On every byte string decoding ends, in an error or with a suffix of the
      input after at least the plan's minimum of bytes. */
  lemma DecodeTotal(P: Program, t: Type, p: Plan, data: Bytes)
    requires ProgramOk(P) && Compile(P, t, {}) == Some(p)
    ensures Compiled(P, [], t, p)
    ensures var r := Decode(P, [], t, p, data); r.Some? ==> Consumed(data, r.value.rest, PlanMin(p))
  {
    hide Encode, Decode, Compiled, Get, OpenOk, MinSize, PlanMin;
    CompileCorrect(P, t, p, VNil, data);
    TopCompiled(P, t, p);
    NothingOpen(P, t);
    if Get(P, t, data).Some? {
      GetConsumes(P, t, data);
      PlanMinIs(P, t, p, {});
    }
  }

  /** A value takes at least the minimum of its type. */
  lemma {:induction false} PutReachesMin(P: Program, t: Type, v: Value)
    requires ProgramOk(P) && HasType(P, t, v)
    ensures |Put(P, t, v)| >= MinSize(P, t)
    decreases v, 2
  {
    hide AppendUvarint, SortKeys, PutEntries, AnyOrder;
    match t
    case Scalar(k) => ScalarRoundTrip(k, v, []);
    case Array(n, e) => ScalarsReachMin(e.kind, v.items);
    case Struct(s) => FieldsReachMin(P, P.structs[s], P.rank[s], v.fields);
    case _ =>
  }

  lemma {:induction false} ScalarsReachMin(k: Kind, vs: seq<Value>)
    requires forall i | 0 <= i < |vs| :: ScalarValue(k, vs[i])
    ensures |PutScalars(k, vs)| == |vs| * Size(k)
  {
    hide ScalarValue, PutScalar;
    if vs != [] {
      ScalarRoundTrip(k, vs[0], []);
      ScalarsReachMin(k, vs[1..]);
      assert |vs| * Size(k) == Size(k) + |vs[1..]| * Size(k);
    }
  }

  lemma {:induction false} FieldsReachMin(P: Program, ts: seq<Type>, r: nat, vs: seq<Value>)
    requires ProgramOk(P) && HaveTypes(P, ts, vs) && forall i | 0 <= i < |ts| :: Rank(P, ts[i]) <= r
    ensures |PutFields(P, ts, vs)| >= MinSizes(P, ts, r)
    decreases vs, 1
  {
    hide ProgramOk, HasType, Put, MinSize, Rank;
    if ts != [] {
      PutReachesMin(P, ts[0], vs[0]);
      FieldsReachMin(P, ts[1..], r, vs[1..]);
    }
  }

  /** Every encoding is at least as long as the plan's minimum, so a length
      check never refuses a genuine encoding. */
  lemma EncodingReachesMin(P: Program, t: Type, p: Plan, v: Value)
    requires ProgramOk(P) && HasType(P, t, v) && Compile(P, t, {}) == Some(p)
    ensures |Encode([], p, v)| >= PlanMin(p)
  {
    hide Encode, Decode, Compiled, Get, Put, OpenOk, MinSize, PlanMin, HasType;
    CompileCorrect(P, t, p, v, []);
    PutReachesMin(P, t, v);
    NothingOpen(P, t);
    PlanMinIs(P, t, p, {});
  }

  // ----- what decoding produces -----

  /** Whatever bytes come in, what decoding returns is a value of the type,
      within the cap: it can be encoded and decoded again. */
  lemma {:induction false} GetIsTyped(P: Program, t: Type, data: Bytes)
    requires ProgramOk(P) && |data| <= MaxLen && Get(P, t, data).Some?
    ensures HasType(P, t, Get(P, t, data).value.value) && Capped(P, t, Get(P, t, data).value.value)
    decreases |data|, Rank(P, t), 0, 1
  {
    hide GetItems, GetEntries, GetScalars, GetScalar, Uvarint, CountOf, MinSize;
    match t
    case Scalar(k) => ScalarIsTyped(k, data);
    case Array(n, e) => ScalarsAreTyped(e.kind, n, data);
    case Slice(e) => if e == Scalar(Uint8) { } else { SliceIsTyped(P, e, data); }
    case Map(k, e) => MapIsTyped(P, k, e, data);
    case Struct(s) => FieldsAreTyped(P, P.structs[s], P.rank[s], data);
    case Pointer(e) => if data[0] == 1 { GetIsTyped(P, e, data[1..]); }
    case Str =>
  }

  lemma ScalarIsTyped(k: Kind, data: Bytes)
    requires GetScalar(k, data).Some?
    ensures ScalarValue(k, GetScalar(k, data).value.value)
  {
    WordBound(data[..Size(k)]);
    SpanEven(Size(k));
  }

  lemma {:induction false} ScalarsAreTyped(k: Kind, n: nat, data: Bytes)
    requires GetScalars(k, n, data).Some?
    ensures var vs := GetScalars(k, n, data).value.value; |vs| == n && forall i | 0 <= i < n :: ScalarValue(k, vs[i])
  {
    hide ScalarValue, GetScalar;
    if n > 0 {
      ScalarIsTyped(k, data);
      ScalarsAreTyped(k, n - 1, GetScalar(k, data).value.rest);
    }
  }

  lemma {:induction false} ItemsAreTyped(P: Program, t: Type, n: nat, data: Bytes)
    requires ProgramOk(P) && |data| <= MaxLen && GetItems(P, t, n, data).Some?
    ensures var vs := GetItems(P, t, n, data).value.value;
            |vs| == n && forall i | 0 <= i < n :: HasType(P, t, vs[i]) && Capped(P, t, vs[i])
    decreases |data|, Rank(P, t), 1, n
  {
    hide ProgramOk, Get, HasType, Capped, Rank;
    if n > 0 {
      GetIsTyped(P, t, data);
      ItemsAreTyped(P, t, n - 1, Get(P, t, data).value.rest);
    }
  }

  lemma CountBound(data: Bytes, rest: Bytes, n: nat, min: nat)
    requires Consumed(data, rest, n * min) && |data| <= MaxLen && (min == 0 ==> n <= MaxZeroSizeCount)
    ensures n <= MaxLen
  {
    if min > 0 { CountFits(n, min, 1, |data|); }
  }

  lemma {:induction false} SliceIsTyped(P: Program, e: Type, data: Bytes)
    requires ProgramOk(P) && |data| <= MaxLen && e != Scalar(Uint8) && Get(P, Slice(e), data).Some?
    ensures HasType(P, Slice(e), Get(P, Slice(e), data).value.value) && Capped(P, Slice(e), Get(P, Slice(e), data).value.value)
    decreases |data|, 0, 0, 0
  {
    hide ProgramOk, GetItems, MinSize, Uvarint, Consumed;
    var c := CountOf(data, MinSize(P, e)).value;
    ItemsAreTyped(P, e, c.value, c.rest);
    ItemsConsume(P, e, c.value, c.rest);
    CountBound(c.rest, GetItems(P, e, c.value, c.rest).value.rest, c.value, MinSize(P, e));
  }

  lemma {:induction false} FieldsAreTyped(P: Program, ts: seq<Type>, r: nat, data: Bytes)
    requires ProgramOk(P) && |data| <= MaxLen && forall i | 0 <= i < |ts| :: Rank(P, ts[i]) <= r
    requires GetFields(P, ts, r, data).Some?
    ensures var vs := GetFields(P, ts, r, data).value.value; HaveTypes(P, ts, vs) && AllCapped(P, ts, vs)
    decreases |data|, r, 1, |ts|
  {
    hide ProgramOk, Get, HasType, Capped, Rank;
    if ts != [] {
      GetIsTyped(P, ts[0], data);
      var x := Get(P, ts[0], data).value;
      FieldsAreTyped(P, ts[1..], r, x.rest);
      var vs := GetFields(P, ts, r, data).value.value;
      assert vs[1..] == GetFields(P, ts[1..], r, x.rest).value.value;
    }
  }

  ghost predicate EntriesTyped(P: Program, k: Type, e: Type, m: map<Value, Value>)
    requires ProgramOk(P)
  {
    forall x | x in m :: HasType(P, k, x) && HasType(P, e, m[x]) && Capped(P, e, m[x])
  }

  lemma AddedTyped(P: Program, k: Type, e: Type, x: Value, y: Value, others: Option<Read<map<Value, Value>>>, n: nat)
    requires ProgramOk(P) && HasType(P, k, x) && HasType(P, e, y) && Capped(P, e, y) && others.Some?
    requires EntriesTyped(P, k, e, others.value.value) && |others.value.value| <= n
    ensures EntriesTyped(P, k, e, AddEntry(x, y, others).value.value) && |AddEntry(x, y, others).value.value| <= n + 1
  {
    hide ProgramOk, HasType, Capped;
    var m, m2 := others.value.value, AddEntry(x, y, others).value.value;
    assert m2.Keys == {x} + m.Keys;
    assert |m2| == |m2.Keys| && |m| == |m.Keys|;
    assert |{x} + m.Keys| <= 1 + |m.Keys|;
  }

  lemma NoneTyped(P: Program, k: Type, e: Type)
    requires ProgramOk(P)
    ensures EntriesTyped(P, k, e, map[])
  {
  }

  lemma {:induction false} EntriesAreTyped(P: Program, k: Type, e: Type, n: nat, data: Bytes)
    requires ProgramOk(P) && |data| <= MaxLen && GetEntries(P, k, e, n, data).Some?
    ensures var m := GetEntries(P, k, e, n, data).value.value; EntriesTyped(P, k, e, m) && |m| <= n
    decreases |data|, Rank(P, k) + Rank(P, e), 1, n
  {
    hide ProgramOk, Get, HasType, Capped, Rank, GetEntries, AddEntry, EntriesTyped;
    GetEntriesStep(P, k, e, n, data);
    if n == 0 {
      NoneTyped(P, k, e);
    } else {
      var x := Get(P, k, data).value;
      var y := Get(P, e, x.rest).value;
      GetIsTyped(P, k, data);
      GetIsTyped(P, e, x.rest);
      EntriesAreTyped(P, k, e, n - 1, y.rest);
      AddedTyped(P, k, e, x.value, y.value, GetEntries(P, k, e, n - 1, y.rest), n - 1);
    }
  }

  lemma {:induction false} MapIsTyped(P: Program, k: Type, e: Type, data: Bytes)
    requires ProgramOk(P) && |data| <= MaxLen && Get(P, Map(k, e), data).Some?
    ensures HasType(P, Map(k, e), Get(P, Map(k, e), data).value.value) && Capped(P, Map(k, e), Get(P, Map(k, e), data).value.value)
    decreases |data|, 0, 0, 0
  {
    hide ProgramOk, GetEntries, MinSize, Uvarint, Consumed;
    var min := MinSize(P, k) + MinSize(P, e);
    var c := CountOf(data, min).value;
    EntriesAreTyped(P, k, e, c.value, c.rest);
    EntriesConsume(P, k, e, c.value, c.rest);
    CountBound(c.rest, GetEntries(P, k, e, c.value, c.rest).value.rest, c.value, min);
  }

  /** What came off the wire goes back onto it: a decoded message re-encodes
      to bytes that decode to the same message. */
  lemma DecodedSurvives(P: Program, s: Name, data: Bytes)
    requires ProgramOk(P) && ContentKeys(P) && s in P.structs && |data| <= MaxLen && Unmarshal(P, s, data).Some?
    ensures var v := Unmarshal(P, s, data).value;
            HasType(P, Struct(s), v) && Marshal(P, s, v).Some? && Unmarshal(P, s, Marshal(P, s, v).value) == Some(v)
  {
    hide Encode, Decode, Compiled, Capped, HasType, Get, Compile;
    var p := Compile(P, Struct(s), {}).value;
    CompileCorrect(P, Struct(s), p, VNil, data);
    GetIsTyped(P, Struct(s), data);
    MessageRoundTrip(P, s, Unmarshal(P, s, data).value, []);
  }

  // ----- maps are canonical -----

  /** What encodeMap writes when the runtime iterates the keys in `order`. */
  ghost function EncodedInOrder(P: Program, t: Type, m: map<Value, Value>, order: seq<Value>): Bytes
    requires t.Map?
  {
    var kb, vb := KeyBytes(P, t.key, m), ValueBytes(P, t.elem, m);
    AppendUvarint(|order|) + PutEntries(SortKeys(order, kb), kb, vb)
  }

  /** The bytes of a map do not depend on the iteration order. */
  lemma MapEncodingCanonical(P: Program, t: Type, m: map<Value, Value>, order: seq<Value>)
    requires ProgramOk(P) && ContentKeys(P) && t.Map? && TypeOk(P, t) && HasType(P, t, VMap(m))
    requires NoDuplicates(order) && Elements(order) == m.Keys
    ensures EncodedInOrder(P, t, m, order) == Put(P, t, VMap(m))
  {
    hide Put, AppendUvarint, PutEntries, SortKeys, Injective, IsKey, Rank, ProgramOk;
    var kb := KeyBytes(P, t.key, m);
    KeysInjective(P, t.key, VMap(m));
    AnyOrderIs(m.Keys);
    assert kb.Keys == m.Keys;
    SortKeysCanonical(order, AnyOrder(m.Keys), kb);
    PutMapIs(P, t.key, t.elem, VMap(m));
    ElementsSize(order);
    assert |m| == |m.Keys|;
  }
}
