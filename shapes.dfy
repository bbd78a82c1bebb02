/**
 * The extractor's pure helpers over signatures: how a package is qualified
 * when a type is printed, the name-independent signature key, the emitter
 * and iterator shape recognisers, and the canonical type names used in
 * generated identifiers.
 */
module Shapes {
  import opened Wrappers
  import opened Text
  import opened GoTypes

  /**
   * shimx.Name and shimx.FuncName, the shim package's identifier builders.
   * The shim package is not part of this model: they are left uninterpreted.
   */
  datatype ShimNames = ShimNames(name: string -> string, funcName: (seq<string>, seq<string>) -> string)

  /**
   * What one Extractor works with: Package, the name of the package under
   * analysis; the method names graph.IsLifecycleMethod accepts (the graph
   * package is not part of this model); and the shim naming helpers.
   */
  datatype Env = Env(package: string, lifecycle: set<string>, shimx: ShimNames)

  /** shimx.TypexImport: the import path of Beam's universal type package, whose types are never registered. */
  const TypexImport := "github.com/apache/beam/sdks/v2/go/pkg/beam/core/typex"

  /**
   * tail as written: it asks for the last index of path inside "/", so it
   * finds nothing for any path longer than one character and returns it
   * whole; for "" that index is 1 and the slice path[1:] panics.
   */
  function TailAsWritten(path: string): (r: Result<string>)
  {
    var i := LastIndex("/", path);
    if i >= 0 then (if i <= |path| then Ok(path[i..]) else Panicked("slice bounds out of range"))
    else Ok(path)
  }

  /** tail as intended: the last segment of a slash-separated path. */
  function Tail(path: string): (r: string)
    ensures '/' !in r
    ensures |r| <= |path| && path[|path| - |r|..] == r
    ensures r == path || path[|path| - |r| - 1] == '/'
  {
    var i := LastIndex(path, "/");
    assert forall j | i < j < |path| :: path[j] != '/' by {
      forall j | i < j < |path| ensures path[j] != '/' {
        NotOccursAtChar(path, '/', j);
      }
    }
    if i >= 0 then
      assert path[i..i + 1] == [path[i]];
      path[i + 1..]
    else
      path
  }

  lemma TailAsWrittenKeepsPath(path: string)
    ensures path != "" ==> TailAsWritten(path) == Ok(path)
    ensures path == "" ==> TailAsWritten(path).Panicked?
  {
    var i := LastIndex("/", path);
    if path == "" {
      assert OccursAt("/", path, 1);
      assert i == 1;
    } else if path == "/" {
      assert OccursAt("/", path, 0);
    }
  }

  /** On a path with a separator the two differ: the written tail keeps the whole path. */
  lemma TailAsWrittenMissesSegment()
    ensures TailAsWritten("a/b") == Ok("a/b")
    ensures Tail("a/b") == "b"
  {
    TailAsWrittenKeepsPath("a/b");
    var r := Tail("a/b");
    assert "a/b"[1] == '/';
  }

  /** Package names never hold a separator, so the qualifier sees no difference between the two. */
  lemma TailAgreesOnPackageNames(name: string)
    requires name != "" && '/' !in name
    ensures TailAsWritten(name) == Ok(Tail(name)) == Ok(name)
  {
    TailAsWrittenKeepsPath(name);
  }

  /** qualifier: the prefix printed before a type of package p; "" for the package under analysis. */
  function Qualifier(p: Pkg, local: string): (r: string)
    ensures r == "" || r == Tail(p.name)
    ensures Tail(p.name) == local ==> r == ""
    ensures Tail(p.name) != local ==> r == Tail(p.name)
  {
    var n := Tail(p.name);
    if n == local then "" else n
  }

  function Qualify(env: Env): Pkg -> string
  {
    p => Qualifier(p, env.package)
  }

  /** A type of the package under analysis is printed without a package prefix. */
  lemma LocalTypePrintsBare(env: Env, p: Pkg, n: string)
    requires p.name == env.package && '/' !in env.package
    ensures Render(env, Named(TypeObj(Some(p), n))) == n
  {
    assert Tail(p.name) == p.name by { TailOfName(p.name); }
  }

  /** A type of any other package is printed as that package's name, ".", then the type's name. */
  lemma ForeignTypeQualified(env: Env, p: Pkg, n: string)
    requires p.name != env.package && p.name != "" && '/' !in p.name
    ensures Render(env, Named(TypeObj(Some(p), n))) == p.name + "." + n
  {
    TailAgreesOnPackageNames(p.name);
  }

  lemma TailOfName(name: string)
    requires '/' !in name
    ensures Tail(name) == name
  {
  }

  /** types.TypeString(t, e.qualifier). */
  function Render(env: Env, t: GoType): string
  {
    TypeString(t, Qualify(env))
  }

  /** varString: the printed type of a parameter or result. */
  function VarString(env: Env, v: Var): string
  {
    Render(env, v.typ)
  }

  /** tupleStrings: the printed types of a tuple's entries, in order, names dropped. */
  function TupleStrings(env: Env, vs: seq<Var>): (r: seq<string>)
    ensures |r| == |vs|
    ensures forall i :: 0 <= i < |vs| ==> r[i] == VarString(env, vs[i])
  {
    if |vs| == 0 then [] else [VarString(env, vs[0])] + TupleStrings(env, vs[1..])
  }

  /** sigKey: "func(" + parameter types + ") (" + result types + ")", each list joined by ",". */
  function SigKey(env: Env, sig: Sig): string
  {
    "func(" + Join(TupleStrings(env, sig.params), ",") + ") (" + Join(TupleStrings(env, sig.results), ",") + ")"
  }

  predicate SameTypes(a: seq<Var>, b: seq<Var>)
  {
    |a| == |b| && forall i :: 0 <= i < |a| ==> a[i].typ == b[i].typ
  }

  /** Two signatures whose parameters and results have the same types in the same order share a key, whatever the names. */
  lemma SigKeyIgnoresNames(env: Env, s1: Sig, s2: Sig)
    requires SameTypes(s1.params, s2.params) && SameTypes(s1.results, s2.results)
    ensures SigKey(env, s1) == SigKey(env, s2)
  {
    assert TupleStrings(env, s1.params) == TupleStrings(env, s2.params);
    assert TupleStrings(env, s1.results) == TupleStrings(env, s2.results);
  }

  /** A method and the function with its parameters and results share a key: the receiver is not part of it. */
  lemma SigKeyIgnoresReceiver(env: Env, recv: Var, ps: seq<Var>, rs: seq<Var>)
    ensures SigKey(env, Signature(Some(recv), ps, rs)) == SigKey(env, Signature(None, ps, rs))
  {
  }

  lemma SigKeyExample(env: Env)
    ensures SigKey(env, Signature(None, [Var("x", Basic("int"))], [Var("", Basic("string"))])) == "func(int) (string)"
  {
    assert TupleStrings(env, [Var("x", Basic("int"))]) == ["int"];
    assert TupleStrings(env, [Var("", Basic("string"))]) == ["string"];
  }

  /**
   * shimx.Emitter and shimx.Input carry the same fields: the shape's name,
   * its signature key, whether it is timestamped, and the printed key
   * (the empty string when there is none) and value types.
   */
  datatype Shape = Shape(name: string, typ: string, time: bool, key: string, val: string)

  function ShapeName(env: Env, time: bool, key: string, val: string): string
  {
    (if time then "ET" else "") + env.shimx.name(key) + env.shimx.name(val)
  }

  /**
   * makeEmitter: a signature without results and with 1, 2 or 3 parameters
   * is an emitter. The value is the last parameter and the key the one
   * before it when there are two or three; with three, the first parameter
   * is taken to be the event time and is not examined.
   */
  function MakeEmitter(env: Env, sig: Sig): (r: Option<Shape>)
    ensures r.Some? <==> |sig.results| == 0 && 1 <= |sig.params| <= 3
    ensures r.Some? ==>
      var n := |sig.params|;
      && r.value.time == (n == 3)
      && r.value.typ == SigKey(env, sig)
      && r.value.val == VarString(env, sig.params[n - 1])
      && r.value.key == (if n == 1 then "" else VarString(env, sig.params[n - 2]))
      && r.value.name == ShapeName(env, r.value.time, r.value.key, r.value.val)
  {
    if |sig.results| != 0 then None
    else
      var p := sig.params;
      if |p| == 1 then
        var val := VarString(env, p[0]);
        Some(Shape(ShapeName(env, false, "", val), SigKey(env, sig), false, "", val))
      else if |p| == 2 then
        var key, val := VarString(env, p[0]), VarString(env, p[1]);
        Some(Shape(ShapeName(env, false, key, val), SigKey(env, sig), false, key, val))
      else if |p| == 3 then
        var key, val := VarString(env, p[1]), VarString(env, p[2]);
        Some(Shape(ShapeName(env, true, key, val), SigKey(env, sig), true, key, val))
      else None
  }

  /** With three parameters, the first one changes the emitter's key string and nothing else. */
  lemma EmitterIgnoresTimeParameter(env: Env, sig: Sig, t0: Var)
    requires |sig.results| == 0 && |sig.params| == 3
    ensures var sig' := Signature(sig.recv, [t0] + sig.params[1..], sig.results);
      var e, e' := MakeEmitter(env, sig), MakeEmitter(env, sig');
      e.Some? && e'.Some? && e.value.(typ := "") == e'.value.(typ := "")
  {
    var sig' := Signature(sig.recv, [t0] + sig.params[1..], sig.results);
    assert sig'.params[1..] == sig.params[1..];
  }

  predicate AllPointers(vs: seq<Var>)
  {
    forall i :: 0 <= i < |vs| ==> Unalias(vs[i].typ).Pointer?
  }

  /** deref: the printed element type of a pointer-typed parameter, looking through aliases. */
  function Deref(env: Env, v: Var): string
    requires Unalias(v.typ).Pointer?
  {
    Render(env, Unalias(v.typ).elem)
  }

  /** deref as written: the type assertion to *types.Pointer does not look through aliases, and panics on one. */
  function DerefAsWritten(env: Env, v: Var): (r: Result<string>)
  {
    if v.typ.Pointer? then Ok(Render(env, v.typ.elem)) else Panicked("interface conversion: types.Type is not *types.Pointer")
  }

  /**
   * The written deref panics exactly on a type that is not itself a
   * pointer, and otherwise agrees with the corrected one; an alias of a
   * pointer is the one case the corrected deref accepts and it does not.
   */
  lemma DerefAsWrittenAgrees(env: Env, v: Var)
    ensures DerefAsWritten(env, v).Panicked? <==> !v.typ.Pointer?
    ensures v.typ.Pointer? ==> DerefAsWritten(env, v) == Ok(Deref(env, v))
    ensures Unalias(v.typ).Pointer? && !v.typ.Pointer? ==> v.typ.Alias?
  {
  }

  /**
   * makeInput: a signature returning exactly one bool, all of whose
   * parameters are pointers, and with 1, 2 or 3 of them, is an iterator.
   * Key and value are the pointed-to types, laid out as for emitters.
   */
  function MakeInput(env: Env, sig: Sig): (r: Option<Shape>)
    ensures r.Some? <==>
      && |sig.results| == 1
      && Unalias(sig.results[0].typ) == Basic("bool")
      && AllPointers(sig.params)
      && 1 <= |sig.params| <= 3
    ensures r.Some? ==>
      var n := |sig.params|;
      && r.value.time == (n == 3)
      && r.value.typ == SigKey(env, sig)
      && r.value.val == Deref(env, sig.params[n - 1])
      && r.value.key == (if n == 1 then "" else Deref(env, sig.params[n - 2]))
      && r.value.name == ShapeName(env, r.value.time, r.value.key, r.value.val)
  {
    if |sig.results| != 1 then None
    else if Unalias(sig.results[0].typ) != Basic("bool") then None
    else if !AllPointers(sig.params) then None
    else
      var p := sig.params;
      if |p| == 1 then
        var val := Deref(env, p[0]);
        Some(Shape(ShapeName(env, false, "", val), SigKey(env, sig), false, "", val))
      else if |p| == 2 then
        var key, val := Deref(env, p[0]), Deref(env, p[1]);
        Some(Shape(ShapeName(env, false, key, val), SigKey(env, sig), false, key, val))
      else if |p| == 3 then
        var key, val := Deref(env, p[1]), Deref(env, p[2]);
        Some(Shape(ShapeName(env, true, key, val), SigKey(env, sig), true, key, val))
      else None
  }

  /** makeInput as written, with deref's unchecked assertion. */
  function MakeInputAsWritten(env: Env, sig: Sig): (r: Result<Option<Shape>>)
  {
    if |sig.results| != 1 then Ok(None)
    else if Unalias(sig.results[0].typ) != Basic("bool") then Ok(None)
    else if !AllPointers(sig.params) then Ok(None)
    else
      var p := sig.params;
      if |p| == 1 then
        var val := DerefAsWritten(env, p[0]);
        if val.Panicked? then Panicked(val.reason)
        else Ok(Some(Shape(ShapeName(env, false, "", val.value), SigKey(env, sig), false, "", val.value)))
      else if |p| == 2 || |p| == 3 then
        var key, val := DerefAsWritten(env, p[|p| - 2]), DerefAsWritten(env, p[|p| - 1]);
        if key.Panicked? then Panicked(key.reason)
        else if val.Panicked? then Panicked(val.reason)
        else
          var time := |p| == 3;
          Ok(Some(Shape(ShapeName(env, time, key.value, val.value), SigKey(env, sig), time, key.value, val.value)))
      else Ok(None)
  }

  /** An iterator over an alias of a pointer type passes every check of makeInput and then panics in deref. */
  lemma AliasedPointerIteratorPanics(env: Env)
    ensures var p := Alias(TypeObj(None, "P"), Pointer(Basic("int")));
      var sig := Signature(None, [Var("", p)], [Var("", Basic("bool"))]);
      && MakeInputAsWritten(env, sig).Panicked?
      && MakeInput(env, sig).Some?
      && MakeInput(env, sig).value.val == "int"
  {
  }

  /** Where no parameter is an alias, the written makeInput and the corrected one agree. */
  lemma MakeInputAsWrittenAgrees(env: Env, sig: Sig)
    requires forall i :: 0 <= i < |sig.params| ==> !sig.params[i].typ.Alias?
    ensures MakeInputAsWritten(env, sig) == Ok(MakeInput(env, sig))
  {
  }

  /** No signature is both an emitter (no results) and an iterator (one result). */
  lemma EmitterIteratorDisjoint(env: Env, sig: Sig)
    ensures !(MakeEmitter(env, sig).Some? && MakeInput(env, sig).Some?)
  {
  }

  /**
   * NameType: the canonical name of a type in generated identifiers. It
   * recurses through slices, maps and arrays; signatures are named after
   * their emitter or iterator shape, or else their key; everything else
   * (aliases included, unexpanded) after its printed form.
   */
  function NameType(env: Env, t: GoType): string
  {
    match t
    case Signature(_, _, _) =>
      var e := MakeEmitter(env, t);
      if e.Some? then "Emit" + e.value.name
      else
        var i := MakeInput(env, t);
        if i.Some? then "Iter" + i.value.name else env.shimx.name(SigKey(env, t))
    case Slice(e) => "SliceOf" + NameType(env, e)
    case Map(k, v) => "MapOf" + NameType(env, k) + "_" + NameType(env, v)
    case Array(n, e) => "ArrayOf" + NatString(n) + NameType(env, e)
    case _ => env.shimx.name(Render(env, t))
  }

  function Slices(n: nat, t: GoType): GoType
  {
    if n == 0 then t else Slice(Slices(n - 1, t))
  }

  function Repeat(s: string, n: nat): string
  {
    if n == 0 then "" else s + Repeat(s, n - 1)
  }

  /** Names are built outside in: n nested slices of t are named n times "SliceOf" before t's name. */
  lemma {:induction false} NameTypeNestedSlices(env: Env, n: nat, t: GoType)
    ensures NameType(env, Slices(n, t)) == Repeat("SliceOf", n) + NameType(env, t)
  {
    if n > 0 {
      NameTypeNestedSlices(env, n - 1, t);
    }
  }

  /** A map is named after its key and value, an array of length n after n in decimal and its element. */
  lemma NameTypeContainers(env: Env, k: GoType, v: GoType, n: nat)
    ensures NameType(env, Map(k, v)) == "MapOf" + NameType(env, k) + "_" + NameType(env, v)
    ensures NameType(env, Array(n, v)) == "ArrayOf" + NatString(n) + NameType(env, v)
    ensures NameType(env, Array(5, v)) == "ArrayOf5" + NameType(env, v)
  {
    assert NatString(5) == "5";
  }

  /** Every type that is not a slice, map, array or signature is named after its printed form. */
  lemma NameTypeDefault(env: Env, t: GoType)
    requires !t.Slice? && !t.Map? && !t.Array? && !t.Signature?
    ensures NameType(env, t) == env.shimx.name(Render(env, t))
  {
  }

  /**
   * A function type is named after its emitter shape, or else its iterator
   * shape, or else its signature key; the first two never compete.
   */
  lemma NameTypeCallback(env: Env, sig: Sig)
    ensures MakeEmitter(env, sig).Some? ==> NameType(env, sig) == "Emit" + MakeEmitter(env, sig).value.name
    ensures MakeInput(env, sig).Some? ==> NameType(env, sig) == "Iter" + MakeInput(env, sig).value.name
    ensures MakeEmitter(env, sig).None? && MakeInput(env, sig).None? ==> NameType(env, sig) == env.shimx.name(SigKey(env, sig))
  {
    EmitterIteratorDisjoint(env, sig);
  }

  /** An alias is not looked through: an alias of a slice is named after its printed alias name. */
  lemma NameTypeSeesNoAlias(env: Env, o: TypeObj, e: GoType)
    ensures NameType(env, Alias(o, Slice(e))) == env.shimx.name(ObjString(o, Qualify(env)))
  {
  }
}
