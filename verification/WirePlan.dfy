/** The plan compiler and the plans it produces. A struct met again while it is
    being compiled becomes a Forward, resolved through the placeholder of the
    enclosing struct: `env` is the stack of enclosing struct plans. */
module WirePlan {
  import opened Foundation
  import opened WireFormat
  import opened WireTypes

  datatype Plan =
    | PScalar(kind: Kind)
    | PBytes
    | PSlice(elem: Plan)
    | PArray(len: nat, kind: Kind)
    | PMap(key: Plan, elem: Plan)
    | PStruct(name: Name, fields: seq<Plan>)
    | PPointer(elem: Plan)
    | PForward(name: Name)

  // ----- compiling -----

  function TypeSize(t: Type): nat {
    match t
    case Slice(e) => 1 + TypeSize(e)
    case Array(_, e) => 1 + TypeSize(e)
    case Map(k, e) => 1 + TypeSize(k) + TypeSize(e)
    case Pointer(e) => 1 + TypeSize(e)
    case _ => 0
  }

  function TypeSizes(ts: seq<Type>): nat {
    if ts == [] then 0 else 1 + TypeSize(ts[0]) + TypeSizes(ts[1..])
  }

  /** Compiling t while the structs of `open` are in progress; None is a
      rejected type. */
  function Compile(P: Program, t: Type, open: set<Name>): Option<Plan>
    decreases P.structs.Keys - open, TypeSize(t)
  {
    match t
    case Scalar(k) => Some(PScalar(k))
    case Str => Some(PBytes)
    case Slice(e) =>
      if e == Scalar(Uint8) then Some(PBytes)
      else
        var p := Compile(P, e, open);
        if p.None? then None else Some(PSlice(p.value))
    case Array(n, e) => if e.Scalar? then Some(PArray(n, e.kind)) else None
    case Map(k, e) =>
      var p := Compile(P, k, open);
      if p.None? then None else
      var q := Compile(P, e, open);
      if q.None? then None else Some(PMap(p.value, q.value))
    case Struct(s) =>
      if s in open then Some(PForward(s))
      else if s !in P.structs then None
      else
        var fs := CompileFields(P, P.structs[s], open + {s});
        if fs.None? then None else Some(PStruct(s, fs.value))
    case Pointer(e) =>
      if !e.Struct? then None
      else
        var p := Compile(P, e, open);
        if p.None? then None else Some(PPointer(p.value))
    case Unsupported => None
  }

  function CompileFields(P: Program, ts: seq<Type>, open: set<Name>): (r: Option<seq<Plan>>)
    ensures r.Some? ==> |r.value| == |ts|
    decreases P.structs.Keys - open, TypeSizes(ts)
  {
    if ts == [] then Some([])
    else
      var p := Compile(P, ts[0], open);
      if p.None? then None else
      var ps := CompileFields(P, ts[1..], open);
      if ps.None? then None else Some([p.value] + ps.value)
  }

  /** The fewest bytes a plan expects; a back-reference counts as one. */
  function PlanMin(p: Plan): nat {
    match p
    case PScalar(k) => Size(k)
    case PArray(n, k) => n * Size(k)
    case PStruct(_, fs) => PlanMins(fs)
    case _ => 1
  }

  function PlanMins(ps: seq<Plan>): nat {
    if ps == [] then 0 else PlanMin(ps[0]) + PlanMins(ps[1..])
  }

  // ----- environments -----

  ghost function Names(env: seq<Plan>): set<Name> {
    set i | 0 <= i < |env| && env[i].PStruct? :: env[i].name
  }

  /** Where the placeholder of struct s is, or |env|. */
  function Lookup(env: seq<Plan>, s: Name): (i: nat)
    ensures i <= |env|
    ensures i < |env| ==> env[i].PStruct? && env[i].name == s
    ensures i == |env| ==> forall j | 0 <= j < |env| :: !(env[j].PStruct? && env[j].name == s)
  {
    if env == [] then 0
    else if env[0].PStruct? && env[0].name == s then 0
    else 1 + Lookup(env[1..], s)
  }

  /** Every placeholder holds the plan its struct was compiled to. */
  ghost predicate EnvOk(P: Program, env: seq<Plan>) {
    forall i | 0 <= i < |env| :: SlotOk(P, env, i)
  }

  ghost predicate SlotOk(P: Program, env: seq<Plan>, i: nat)
    requires i < |env|
  {
    && env[i].PStruct?
    && env[i].name !in Names(env[..i])
    && Compile(P, Struct(env[i].name), Names(env[..i])) == Some(env[i])
  }

  /** p is what t compiled to inside env. */
  ghost predicate Compiled(P: Program, env: seq<Plan>, t: Type, p: Plan) {
    ProgramOk(P) && EnvOk(P, env) && Compile(P, t, Names(env)) == Some(p)
  }

  lemma EnvPrefix(P: Program, env: seq<Plan>, i: nat)
    requires EnvOk(P, env) && i <= |env|
    ensures EnvOk(P, env[..i])
  {
    forall j | 0 <= j < i ensures SlotOk(P, env[..i], j) {
      assert SlotOk(P, env, j);
      assert env[..i][..j] == env[..j];
    }
  }

  lemma EnvPush(P: Program, env: seq<Plan>, s: Name, p: Plan)
    requires EnvOk(P, env) && s !in Names(env) && p.PStruct? && p.name == s
    requires Compile(P, Struct(s), Names(env)) == Some(p)
    ensures EnvOk(P, env + [p]) && Names(env + [p]) == Names(env) + {s}
  {
    var env2 := env + [p];
    forall j | 0 <= j < |env2| ensures SlotOk(P, env2, j) {
      if j < |env| {
        assert SlotOk(P, env, j);
        assert env2[..j] == env[..j];
      } else {
        assert env2[..j] == env;
      }
    }
    forall n | n in Names(env) + {s} ensures n in Names(env2) {
      if n == s { assert env2[|env|].name == n; }
      else {
        var i :| 0 <= i < |env| && env[i].PStruct? && env[i].name == n;
        assert env2[i].name == n;
      }
    }
  }

  /** A back-reference resolves to the plan of the struct it names. */
  lemma ForwardResolves(P: Program, env: seq<Plan>, s: Name)
    requires EnvOk(P, env) && s in Names(env)
    ensures Lookup(env, s) < |env| && EnvOk(P, env[..Lookup(env, s)])
    ensures Compile(P, Struct(s), Names(env[..Lookup(env, s)])) == Some(env[Lookup(env, s)])
  {
    var i := Lookup(env, s);
    EnvPrefix(P, env, i);
    assert SlotOk(P, env, i);
  }

  // ----- running a plan -----

  ghost function Encode(env: seq<Plan>, p: Plan, v: Value): Bytes
    decreases v, 0, |env|
  {
    match p
    case PScalar(k) => PutScalar(k, v)
    case PBytes => if v.VBytes? then PutRaw(v.bytes) else []
    case PSlice(e) => if v.VSeq? then AppendUvarint(|v.items|) + EncodeItems(env, e, v.items) else []
    case PArray(_, k) => if v.VSeq? then PutScalars(k, v.items) else []
    case PMap(k, e) =>
      if v.VMap? then
        PutMap(map x | x in v.entries :: Encode(env, k, x), map x | x in v.entries :: Encode(env, e, v.entries[x]))
      else []
    case PStruct(_, fs) => if v.VStruct? then EncodeFields(env + [p], fs, v.fields) else []
    case PPointer(e) => if v.VRef? then [1] + Encode(env, e, v.target) else [0]
    case PForward(s) =>
      var i := Lookup(env, s);
      if i < |env| then Encode(env[..i], env[i], v) else []
  }

  ghost function EncodeItems(env: seq<Plan>, p: Plan, vs: seq<Value>): Bytes
    decreases vs, 1
  {
    if vs == [] then [] else Encode(env, p, vs[0]) + EncodeItems(env, p, vs[1..])
  }

  ghost function EncodeFields(env: seq<Plan>, ps: seq<Plan>, vs: seq<Value>): Bytes
    decreases vs, 1
  {
    if ps == [] || vs == [] then [] else Encode(env, ps[0], vs[0]) + EncodeFields(env, ps[1..], vs[1..])
  }

  /** Running the decoder of a compiled plan; t is the type it came from. */
  ghost function Decode(P: Program, env: seq<Plan>, t: Type, p: Plan, data: Bytes): (r: Option<Read<Value>>)
    requires Compiled(P, env, t, p)
    ensures r.Some? ==> |r.value.rest| <= |data|
    decreases |data|, Rank(P, t), 0, |env|
  {
    match p
    case PScalar(k) => GetScalar(k, data)
    case PBytes => GetBytes(data)
    case PSlice(e) =>
      var c := ReadCount(data, PlanMin(e));
      if c.None? then None else
      var r := DecodeItems(P, env, t.elem, e, c.value.value, c.value.rest);
      if r.None? then None else Some(Read(VSeq(r.value.value), r.value.rest))
    case PArray(n, k) =>
      var r := GetScalars(k, n, data);
      if r.None? then None else Some(Read(VSeq(r.value.value), r.value.rest))
    case PMap(k, e) =>
      var c := ReadCount(data, PlanMin(k) + PlanMin(e));
      if c.None? then None else
      var r := DecodeEntries(P, env, t.key, t.elem, k, e, c.value.value, c.value.rest);
      if r.None? then None else Some(Read(VMap(r.value.value), r.value.rest))
    case PStruct(s, fs) =>
      EnvPush(P, env, s, p);
      var r := DecodeFields(P, env + [p], P.structs[s], P.rank[s], fs, data);
      if r.None? then None else Some(Read(VStruct(r.value.value), r.value.rest))
    case PPointer(e) =>
      if data == [] then None
      else if data[0] == 0 then Some(Read(VNil, data[1..]))
      else if data[0] == 1 then
        var r := Decode(P, env, t.elem, e, data[1..]);
        if r.None? then None else Some(Read(VRef(r.value.value), r.value.rest))
      else None
    case PForward(s) =>
      ForwardResolves(P, env, s);
      var i := Lookup(env, s);
      Decode(P, env[..i], t, env[i], data)
  }

  ghost function DecodeItems(P: Program, env: seq<Plan>, t: Type, p: Plan, n: nat, data: Bytes): (r: Option<Read<seq<Value>>>)
    requires Compiled(P, env, t, p)
    ensures r.Some? ==> |r.value.rest| <= |data|
    decreases |data|, Rank(P, t), 1, n
  {
    if n == 0 then Some(Read([], data))
    else
      var x := Decode(P, env, t, p, data);
      if x.None? then None else
      var r := DecodeItems(P, env, t, p, n - 1, x.value.rest);
      if r.None? then None else Some(Read([x.value.value] + r.value.value, r.value.rest))
  }

  ghost predicate FieldsCompiled(P: Program, env: seq<Plan>, ts: seq<Type>, r: nat, ps: seq<Plan>) {
    && ProgramOk(P) && EnvOk(P, env) && CompileFields(P, ts, Names(env)) == Some(ps)
    && forall i | 0 <= i < |ts| :: Rank(P, ts[i]) <= r
  }

  ghost function DecodeFields(P: Program, env: seq<Plan>, ts: seq<Type>, r: nat, ps: seq<Plan>, data: Bytes): (o: Option<Read<seq<Value>>>)
    requires FieldsCompiled(P, env, ts, r, ps)
    ensures o.Some? ==> |o.value.rest| <= |data|
    decreases |data|, r, 1, |ts|
  {
    if ts == [] then Some(Read([], data))
    else
      var x := Decode(P, env, ts[0], ps[0], data);
      if x.None? then None else
      var o := DecodeFields(P, env, ts[1..], r, ps[1..], x.value.rest);
      if o.None? then None else Some(Read([x.value.value] + o.value.value, o.value.rest))
  }

  ghost function DecodeEntries(P: Program, env: seq<Plan>, k: Type, e: Type, p: Plan, q: Plan, n: nat, data: Bytes): (r: Option<Read<map<Value, Value>>>)
    requires Compiled(P, env, k, p) && Compiled(P, env, e, q)
    ensures r.Some? ==> |r.value.rest| <= |data|
    decreases |data|, Rank(P, k) + Rank(P, e), 1, n
  {
    if n == 0 then Some(Read(map[], data))
    else
      var x := Decode(P, env, k, p, data);
      if x.None? then None else
      var y := Decode(P, env, e, q, x.value.rest);
      if y.None? then None else
      var r := DecodeEntries(P, env, k, e, p, q, n - 1, y.value.rest);
      AddEntry(x.value.value, y.value.value, r)
  }
}
