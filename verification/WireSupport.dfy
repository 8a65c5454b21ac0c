/** Exactly which types have a wire form: those none of whose parts, however deep
    and through whatever recursion, is of a kind the codec rejects. */
module WireSupport {
  import opened Foundation
  import opened WireTypes
  import opened WirePlan
  import opened WireCorrect
  import opened WireSafety

  /** The types t is directly made of. */
  function Parts(P: Program, t: Type): seq<Type> {
    match t
    case Slice(e) => [e]
    case Array(_, e) => [e]
    case Map(k, e) => [k, e]
    case Struct(s) => if s in P.structs then P.structs[s] else []
    case Pointer(e) => [e]
    case _ => []
  }

  /** Each type is a part of the one before. */
  predicate IsPath(P: Program, path: seq<Type>) {
    path != [] && forall i | 0 <= i < |path| - 1 :: path[i + 1] in Parts(P, path[i])
  }

  ghost predicate Reaches(P: Program, t: Type, u: Type) {
    exists path :: IsPath(P, path) && path[0] == t && path[|path| - 1] == u
  }

  /** A kind with a wire form: arrays of scalars, pointers to structs, declared
      structs, and every kind that has one by itself. */
  predicate Acceptable(P: Program, t: Type) {
    match t
    case Array(_, e) => e.Scalar?
    case Pointer(e) => e.Struct?
    case Struct(s) => s in P.structs
    case Unsupported => false
    case _ => true
  }

  ghost predicate Supported(P: Program, t: Type) {
    forall u | Reaches(P, t, u) :: Acceptable(P, u)
  }

  // ----- supported types compile -----

  lemma PartReaches(P: Program, t: Type, u: Type, w: Type)
    requires u in Parts(P, t) && Reaches(P, u, w)
    ensures Reaches(P, t, w)
  {
    var path :| IsPath(P, path) && path[0] == u && path[|path| - 1] == w;
    var longer := [t] + path;
    assert forall i | 0 < i < |longer| :: longer[i] == path[i - 1];
    assert IsPath(P, longer);
  }

  lemma PartSupported(P: Program, t: Type, u: Type)
    requires Supported(P, t) && u in Parts(P, t)
    ensures Supported(P, u)
  {
    forall w | Reaches(P, u, w) ensures Acceptable(P, w) { PartReaches(P, t, u, w); }
  }

  lemma SelfAcceptable(P: Program, t: Type)
    requires Supported(P, t)
    ensures Acceptable(P, t)
  {
    assert IsPath(P, [t]);
    assert Reaches(P, t, t);
  }

  lemma {:induction false} SupportedCompiles(P: Program, t: Type, open: set<Name>)
    requires Supported(P, t)
    ensures Compile(P, t, open).Some?
    decreases P.structs.Keys - open, TypeSize(t)
  {
    hide Supported;
    SelfAcceptable(P, t);
    match t
    case Slice(e) =>
      PartSupported(P, t, e);
      SupportedCompiles(P, e, open);
    case Map(k, e) =>
      assert Parts(P, t) == [k, e];
      PartSupported(P, t, k);
      PartSupported(P, t, e);
      SupportedCompiles(P, k, open);
      SupportedCompiles(P, e, open);
    case Pointer(e) =>
      PartSupported(P, t, e);
      SupportedCompiles(P, e, open);
    case Struct(s) =>
      if s !in open {
        forall u | u in P.structs[s] ensures Supported(P, u) { PartSupported(P, t, u); }
        FieldsCompile(P, P.structs[s], open + {s});
      }
    case _ =>
  }

  lemma {:induction false} FieldsCompile(P: Program, ts: seq<Type>, open: set<Name>)
    requires forall u | u in ts :: Supported(P, u)
    ensures CompileFields(P, ts, open).Some?
    decreases P.structs.Keys - open, TypeSizes(ts)
  {
    hide Supported;
    if ts != [] {
      SupportedCompiles(P, ts[0], open);
      FieldsCompile(P, ts[1..], open);
    }
  }

  // ----- whatever compiles is supported -----

  /** The structs being compiled, outermost first, each with fields that compile
      inside those before it. */
  ghost predicate StackOk(P: Program, st: seq<Name>) {
    forall i | 0 <= i < |st| :: InnerOk(P, st, i)
  }

  ghost predicate InnerOk(P: Program, st: seq<Name>, i: nat)
    requires i < |st|
  {
    st[i] in P.structs && CompileFields(P, P.structs[st[i]], Elements(st[..i + 1])).Some?
  }

  lemma {:induction false} FieldCompiles(P: Program, ts: seq<Type>, open: set<Name>, u: Type)
    requires CompileFields(P, ts, open).Some? && u in ts
    ensures Compile(P, u, open).Some?
  {
    if u != ts[0] { FieldCompiles(P, ts[1..], open, u); }
  }

  /** From a type that compiles to a part of it, the stack follows. */
  lemma PartCompiles(P: Program, t: Type, st: seq<Name>, u: Type) returns (st2: seq<Name>)
    requires StackOk(P, st) && Compile(P, t, Elements(st)).Some? && u in Parts(P, t) && !t.Array?
    ensures StackOk(P, st2) && Compile(P, u, Elements(st2)).Some?
  {
    hide CompileFields;
    st2 := st;
    if t.Struct? {
      if t.name in st {
        var i :| 0 <= i < |st| && st[i] == t.name;
        st2 := st[..i + 1];
        assert InnerOk(P, st, i);
        forall j | 0 <= j < |st2| ensures InnerOk(P, st2, j) {
          assert InnerOk(P, st, j) && st2[..j + 1] == st[..j + 1];
        }
      } else {
        st2 := st + [t.name];
        assert Elements(st2) == Elements(st) + {t.name};
        forall j | 0 <= j < |st2| ensures InnerOk(P, st2, j) {
          if j < |st| { assert InnerOk(P, st, j) && st2[..j + 1] == st[..j + 1]; } else { assert st2[..j + 1] == st2; }
        }
      }
      FieldCompiles(P, P.structs[t.name], Elements(st2), u);
    }
  }

  lemma CompilesAcceptable(P: Program, t: Type, st: seq<Name>)
    requires StackOk(P, st) && Compile(P, t, Elements(st)).Some?
    ensures Acceptable(P, t)
  {
    hide CompileFields;
    if t.Struct? && t.name in st {
      var i :| 0 <= i < |st| && st[i] == t.name;
      assert InnerOk(P, st, i);
    }
  }

  lemma {:induction false} PathAcceptable(P: Program, path: seq<Type>, st: seq<Name>)
    requires IsPath(P, path) && StackOk(P, st) && Compile(P, path[0], Elements(st)).Some?
    ensures Acceptable(P, path[|path| - 1])
  {
    hide StackOk, Compile, Acceptable;
    CompilesAcceptable(P, path[0], st);
    if |path| > 1 {
      var rest := path[1..];
      assert path[0 + 1] in Parts(P, path[0]);
      assert IsPath(P, rest) by {
        forall i | 0 <= i < |rest| - 1 ensures rest[i + 1] in Parts(P, rest[i]) {
          assert path[(i + 1) + 1] in Parts(P, path[i + 1]);
        }
      }
      if path[0].Array? {
        ArrayOfScalars(P, path[0], st);
        assert |path| == 2 by { ScalarEnds(P, path); }
        ScalarAcceptable(P, path[1]);
      } else {
        var st2 := PartCompiles(P, path[0], st, path[1]);
        PathAcceptable(P, rest, st2);
      }
    }
  }

  lemma ArrayOfScalars(P: Program, t: Type, st: seq<Name>)
    requires t.Array? && Compile(P, t, Elements(st)).Some?
    ensures t.elem.Scalar?
  {
  }

  /** Nothing is part of a scalar. */
  lemma ScalarEnds(P: Program, path: seq<Type>)
    requires IsPath(P, path) && |path| >= 2 && path[0].Array? && path[0].elem.Scalar?
    ensures |path| == 2
  {
    assert path[0 + 1] in Parts(P, path[0]);
    assert |path| > 2 ==> path[1 + 1] in Parts(P, path[1]);
  }

  lemma ScalarAcceptable(P: Program, t: Type)
    ensures t.Scalar? ==> Acceptable(P, t)
  {
  }

  /** A type compiles if and only if every type it is made of has a wire form. */
  lemma CompilesIffSupported(P: Program, t: Type)
    ensures Compile(P, t, {}).Some? <==> Supported(P, t)
  {
    hide Compile, Acceptable;
    if Supported(P, t) { SupportedCompiles(P, t, {}); }
    if Compile(P, t, {}).Some? {
      assert Elements<Name>([]) == {};
      forall u | Reaches(P, t, u) ensures Acceptable(P, u) {
        var path :| IsPath(P, path) && path[0] == t && path[|path| - 1] == u;
        PathAcceptable(P, path, []);
      }
    }
  }

  /** So a message has a wire form, and can be read back, exactly then. */
  lemma MarshalsIffSupported(P: Program, s: Name, v: Value)
    requires ProgramOk(P)
    ensures Marshal(P, s, v).Some? <==> Supported(P, Struct(s))
  {
    hide Supported, Compile, Encode;
    CompilesIffSupported(P, Struct(s));
  }
}
