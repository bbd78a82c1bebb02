/**
 * What one step of the extractor does to its tables, stated as functions:
 * the container unwrapping of extractFromContainer, the receiver
 * dereference, what extractType and the signature walk of
 * extractFromSignature add, the allow-list filter of isRequired, and the
 * effect of fromObj. The Extractor class is proved to follow these.
 */
module Classify {
  import opened Wrappers
  import opened GoTypes
  import opened Shapes

  /** The extractor's accumulated sets and maps. */
  datatype Tables = Tables(
    functions: set<string>,
    types: set<string>,
    wraps: map<string, map<string, Sig>>,
    funcs: map<string, Sig>,
    emits: map<string, Shape>,
    iters: map<string, Shape>,
    imports: set<string>)

  const NoTables := Tables({}, {}, map[], map[], map[], map[], {})

  /** Each table of a contains only what b contains, and every wrap bucket of a only what b's does. */
  predicate Grows(a: Tables, b: Tables)
  {
    && a.functions <= b.functions
    && a.types <= b.types
    && a.imports <= b.imports
    && a.funcs.Keys <= b.funcs.Keys
    && a.emits.Keys <= b.emits.Keys
    && a.iters.Keys <= b.iters.Keys
    && a.wraps.Keys <= b.wraps.Keys
    && forall k :: k in a.wraps ==> a.wraps[k].Keys <= b.wraps[k].Keys
  }

  function Names(xs: seq<Shape>): set<string>
  {
    set x | x in xs :: x.name
  }

  predicate LastWithName(xs: seq<Shape>, i: int)
    requires 0 <= i < |xs|
  {
    forall j :: i < j < |xs| ==> xs[j].name != xs[i].name
  }

  /** The map after `m[x.Name] = x` for each shape x of xs in turn. */
  function Put(m: map<string, Shape>, xs: seq<Shape>): (r: map<string, Shape>)
    ensures r.Keys == m.Keys + Names(xs)
  {
    if xs == [] then m
    else
      var init, last := xs[..|xs| - 1], xs[|xs| - 1];
      assert forall x :: x in xs <==> x in init || x == last;
      Put(m, init)[last.name := last]
  }

  /** The last shape of each name wins. */
  lemma {:induction false} PutLastWins(m: map<string, Shape>, xs: seq<Shape>, i: nat)
    requires i < |xs| && LastWithName(xs, i)
    ensures Put(m, xs)[xs[i].name] == xs[i]
    decreases |xs|
  {
    var init, last := xs[..|xs| - 1], xs[|xs| - 1];
    if i < |init| {
      assert xs[i] == init[i];
      assert LastWithName(init, i) by {
        forall j | i < j < |init| ensures init[j].name != init[i].name {
          assert init[j] == xs[j];
        }
      }
      assert xs[i].name != last.name;
      PutLastWins(m, init, i);
    }
  }

  /** Entries under names no shape carries are left alone. */
  lemma {:induction false} PutKeepsOthers(m: map<string, Shape>, xs: seq<Shape>, k: string)
    requires k in m && k !in Names(xs)
    ensures Put(m, xs)[k] == m[k]
    decreases |xs|
  {
    if xs != [] {
      var init, last := xs[..|xs| - 1], xs[|xs| - 1];
      assert last in xs;
      assert forall x :: x in init ==> x in xs;
      PutKeepsOthers(m, init, k);
    }
  }

  lemma {:induction false} PutConcat(m: map<string, Shape>, a: seq<Shape>, b: seq<Shape>)
    ensures Put(m, a + b) == Put(Put(m, a), b)
    decreases |b|
  {
    if b == [] {
      assert a + b == a;
    } else {
      assert (a + b)[..|a + b| - 1] == a + b[..|b| - 1];
      PutConcat(m, a, b[..|b| - 1]);
    }
  }

  /** What a walk over types adds: imports and types to register, and the emitters and iterators met, in order. */
  datatype Harvest = Harvest(imports: set<string>, types: set<string>, emits: seq<Shape>, iters: seq<Shape>)

  const Nothing := Harvest({}, {}, [], [])

  function Then(a: Harvest, b: Harvest): Harvest
  {
    Harvest(a.imports + b.imports, a.types + b.types, a.emits + b.emits, a.iters + b.iters)
  }

  function Apply(s: Tables, h: Harvest): Tables
  {
    s.(imports := s.imports + h.imports, types := s.types + h.types,
       emits := Put(s.emits, h.emits), iters := Put(s.iters, h.iters))
  }

  lemma ApplyNothing(s: Tables)
    ensures Apply(s, Nothing) == s
  {
    assert Put(s.emits, []) == s.emits;
    assert Put(s.iters, []) == s.iters;
  }

  lemma ApplyThen(s: Tables, a: Harvest, b: Harvest)
    ensures Apply(Apply(s, a), b) == Apply(s, Then(a, b))
  {
    PutConcat(s.emits, a.emits, b.emits);
    PutConcat(s.iters, a.iters, b.iters);
    var l, r := Apply(Apply(s, a), b), Apply(s, Then(a, b));
    assert l.imports == r.imports;
    assert l.types == r.types;
    assert l.emits == r.emits;
    assert l.iters == r.iters;
  }

  lemma GrowsTrans(a: Tables, b: Tables, c: Tables)
    requires Grows(a, b) && Grows(b, c)
    ensures Grows(a, c)
  {
  }

  lemma ApplyGrows(s: Tables, h: Harvest)
    ensures Grows(s, Apply(s, h))
  {
  }

  predicate IsContainer(t: GoType)
  {
    t.Slice? || t.Pointer? || t.Array?
  }

  /** extractFromContainer's result: t with every slice, pointer and array wrapper stripped, looking through aliases. */
  function BaseOf(t: GoType): (b: GoType)
    ensures !IsContainer(Unalias(b))
  {
    match t
    case Slice(e) => BaseOf(e)
    case Pointer(e) => BaseOf(e)
    case Array(_, e) => BaseOf(e)
    case Alias(_, rhs) => if IsContainer(Unalias(rhs)) then BaseOf(rhs) else t
    case _ => t
  }

  /** One round of the unwrapping loop: a container (seen through aliases) gives way to its element type. */
  lemma {:induction false} BaseOfStep(t: GoType)
    ensures BaseOf(t) == if IsContainer(Unalias(t)) then BaseOf(Unalias(t).elem) else t
  {
    if t.Alias? && IsContainer(Unalias(t.rhs)) {
      BaseOfStep(t.rhs);
    }
  }

  /** Maps are returned as they are, and a map under containers is where the unwrapping stops. */
  lemma MapsNotUnwrapped(t: GoType, k: GoType, v: GoType)
    ensures Unalias(t).Map? ==> BaseOf(t) == t
    ensures BaseOf(Slice(Pointer(Map(k, v)))) == Map(k, v)
  {
    BaseOfStep(t);
    assert BaseOf(Map(k, v)) == Map(k, v);
    assert BaseOf(Pointer(Map(k, v))) == Map(k, v);
  }

  /** The receiver type with every pointer stripped (through aliases); the result itself may be an alias. */
  function StripPointers(t: GoType): (b: GoType)
    ensures !Unalias(b).Pointer?
  {
    match t
    case Pointer(e) => StripPointers(e)
    case Alias(_, rhs) => if Unalias(rhs).Pointer? then StripPointers(rhs) else t
    case _ => t
  }

  lemma {:induction false} StripPointersStep(t: GoType)
    ensures StripPointers(t) == if Unalias(t).Pointer? then StripPointers(Unalias(t).elem) else t
  {
    if t.Alias? && Unalias(t.rhs).Pointer? {
      StripPointersStep(t.rhs);
    }
  }

  function Pointers(n: nat, t: GoType): GoType
  {
    if n == 0 then t else Pointer(Pointers(n - 1, t))
  }

  /** The printed dereferenced receiver type: the key of a wrap bucket and what the filter looks up. */
  function ReceiverKey(env: Env, recv: GoType): string
  {
    Render(env, StripPointers(recv))
  }

  /** T, *T, **T, ... all key the same bucket. */
  lemma {:induction false} ReceiverKeyIgnoresPointers(env: Env, n: nat, t: GoType)
    ensures ReceiverKey(env, Pointers(n, t)) == ReceiverKey(env, t)
  {
    if n > 0 {
      ReceiverKeyIgnoresPointers(env, n - 1, t);
    }
  }

  /**
   * The registration of extractType: the type name after unwrapping one
   * alias level, with its printed form. The printed name is always that of
   * the declared type; what the unwrapping changes is the object, and so
   * the package, that decides the import and the universe exclusion.
   */
  function UnwrapAliasOnce(env: Env, tn: TypeName): (TypeName, string)
  {
    var first := if tn.isAlias && tn.typ.Alias? then TypeName(tn.typ.obj, tn.typ, true) else tn;
    if tn.isAlias && first.typ.Named? then (TypeName(first.typ.obj, first.typ, false), Render(env, first.typ))
    else (first, Render(env, tn.typ))
  }

  /** The printed name never changes; an alias declaration of an alias or named type takes that type's object. */
  lemma UnwrapAliasOnceKeepsName(env: Env, tn: TypeName)
    ensures var r := UnwrapAliasOnce(env, tn);
      && r.0.typ == tn.typ && r.1 == Render(env, tn.typ)
      && (!tn.isAlias ==> r.0 == tn)
      && (tn.isAlias && (tn.typ.Alias? || tn.typ.Named?) ==> r.0.obj == tn.typ.obj)
      && (tn.isAlias && !tn.typ.Alias? && !tn.typ.Named? ==> r.0 == tn)
  {
  }

  /** extractType: the package path is imported, and the name registered unless the package is the universal one. */
  function TypeHarvest(env: Env, tn: TypeName): (h: Harvest)
    ensures h.emits == [] && h.iters == []
    ensures h.types <= {UnwrapAliasOnce(env, tn).1}
    ensures |h.imports| <= 1
  {
    var (ot, name) := UnwrapAliasOnce(env, tn);
    match ot.obj.pkg
    case None => Nothing
    case Some(p) => Harvest({p.path}, if p.path == TypexImport then {} else {name}, [], [])
  }

  /** Types of the universal module and package-less types are never registered. */
  lemma TypeRegistration(env: Env, tn: TypeName)
    ensures var (ot, name) := UnwrapAliasOnce(env, tn);
      && (ot.obj.pkg.None? ==> TypeHarvest(env, tn) == Nothing)
      && (ot.obj.pkg.Some? ==> TypeHarvest(env, tn).imports == {ot.obj.pkg.value.path})
      && (ot.obj.pkg.Some? && ot.obj.pkg.value.path == TypexImport ==> TypeHarvest(env, tn).types == {})
      && (ot.obj.pkg.Some? && ot.obj.pkg.value.path != TypexImport ==> TypeHarvest(env, tn).types == {name})
  {
  }

  /**
   * One level of alias only: an alias whose type is the named target is
   * registered as that target, and an alias whose type is an Alias node is
   * registered as itself, whatever the alias's right-hand side is.
   */
  lemma AliasUnwrappedOneLevel(env: Env, a: TypeObj, o: TypeObj, r1: GoType, r2: GoType)
    ensures UnwrapAliasOnce(env, TypeName(a, Named(o), true)) == (TypeName(o, Named(o), false), Render(env, Named(o)))
    ensures TypeHarvest(env, TypeName(a, Alias(o, r1), true)) == TypeHarvest(env, TypeName(a, Alias(o, r2), true))
  {
  }

  function PkgImport(p: Option<Pkg>): Harvest
  {
    if p.Some? then Harvest({p.value.path}, {}, [], []) else Nothing
  }

  function AsSeq(o: Option<Shape>): seq<Shape>
  {
    if o.Some? then [o.value] else []
  }

  /** The base type of an entry: an alias or a named type is imported and registered. */
  function BaseHarvest(env: Env, t: GoType): Harvest
  {
    var fromAlias := if t.Alias? then Then(PkgImport(t.obj.pkg), TypeHarvest(env, TypeName(t.obj, t, true))) else Nothing;
    var fromNamed := if t.Named? then Then(PkgImport(t.obj.pkg), TypeHarvest(env, TypeName(t.obj, t, false))) else Nothing;
    Then(fromAlias, fromNamed)
  }

  /** A function-typed entry: its emitter or iterator shape, then the walk of its own signature. */
  function CallbackHarvest(env: Env, sig: Sig): Harvest
    decreases sig, 1
  {
    Then(Harvest({}, {}, AsSeq(MakeEmitter(env, sig)), AsSeq(MakeInput(env, sig))), SigHarvest(env, sig))
  }

  /** One round of extractFromTuple's loop, for one parameter or result. */
  function VarHarvest(env: Env, v: Var): Harvest
    decreases v
  {
    Then(BaseHarvest(env, BaseOf(v.typ)), if v.typ.Signature? then CallbackHarvest(env, v.typ) else Nothing)
  }

  /** extractFromTuple: the rounds for each entry, in order. */
  function TupleHarvest(env: Env, vs: seq<Var>): Harvest
    decreases vs
  {
    if vs == [] then Nothing else Then(TupleHarvest(env, vs[..|vs| - 1]), VarHarvest(env, vs[|vs| - 1]))
  }

  /** extractFromSignature: parameters, then results. */
  function SigHarvest(env: Env, sig: Sig): Harvest
    decreases sig, 0
  {
    Then(TupleHarvest(env, sig.params), TupleHarvest(env, sig.results))
  }

  predicate Within(a: Harvest, b: Harvest)
  {
    && a.imports <= b.imports
    && a.types <= b.types
    && (forall x :: x in a.emits ==> x in b.emits)
    && (forall x :: x in a.iters ==> x in b.iters)
  }

  /** Every entry of a tuple contributes all it finds to the tuple's harvest. */
  lemma {:induction false} TupleHarvestCovers(env: Env, vs: seq<Var>, i: nat)
    requires i < |vs|
    ensures Within(VarHarvest(env, vs[i]), TupleHarvest(env, vs))
    decreases |vs|
  {
    var init := vs[..|vs| - 1];
    WithinThen(TupleHarvest(env, init), VarHarvest(env, vs[|vs| - 1]));
    if i < |vs| - 1 {
      TupleHarvestCovers(env, init, i);
      WithinTrans(VarHarvest(env, vs[i]), TupleHarvest(env, init), TupleHarvest(env, vs));
    }
  }

  /**
   * A function-typed parameter or result is recognised as an emitter or an
   * iterator, and its own signature is walked, so callbacks of callbacks
   * are found too.
   */
  lemma CallbacksHarvested(env: Env, sig: Sig, i: nat)
    requires i < |sig.params| && sig.params[i].typ.Signature?
    ensures var cb: Sig := sig.params[i].typ;
      && (MakeEmitter(env, cb).Some? ==> MakeEmitter(env, cb).value in SigHarvest(env, sig).emits)
      && (MakeInput(env, cb).Some? ==> MakeInput(env, cb).value in SigHarvest(env, sig).iters)
      && Within(SigHarvest(env, cb), SigHarvest(env, sig))
  {
    var v := sig.params[i];
    var cb: Sig := v.typ;
    TupleHarvestCovers(env, sig.params, i);
    var sh := Harvest({}, {}, AsSeq(MakeEmitter(env, cb)), AsSeq(MakeInput(env, cb)));
    WithinThen(sh, SigHarvest(env, cb));
    WithinThen(BaseHarvest(env, BaseOf(v.typ)), CallbackHarvest(env, cb));
    WithinThen(TupleHarvest(env, sig.params), TupleHarvest(env, sig.results));
    WithinTrans(SigHarvest(env, cb), CallbackHarvest(env, cb), VarHarvest(env, v));
    WithinTrans(SigHarvest(env, cb), VarHarvest(env, v), TupleHarvest(env, sig.params));
    WithinTrans(SigHarvest(env, cb), TupleHarvest(env, sig.params), SigHarvest(env, sig));
    WithinTrans(sh, CallbackHarvest(env, cb), VarHarvest(env, v));
    WithinTrans(sh, VarHarvest(env, v), TupleHarvest(env, sig.params));
    WithinTrans(sh, TupleHarvest(env, sig.params), SigHarvest(env, sig));
  }

  lemma WithinThen(a: Harvest, b: Harvest)
    ensures Within(a, Then(a, b)) && Within(b, Then(a, b))
  {
  }

  lemma WithinTrans(a: Harvest, b: Harvest, c: Harvest)
    requires Within(a, b) && Within(b, c)
    ensures Within(a, c)
  {
  }

  /** A named type under slices, pointers and arrays is imported from its package. */
  lemma NamedBaseImported(env: Env, v: Var)
    requires BaseOf(v.typ).Named? && BaseOf(v.typ).obj.pkg.Some?
    ensures BaseOf(v.typ).obj.pkg.value.path in VarHarvest(env, v).imports
  {
  }

  /** A type-checker result entry: an identifier's name and the object it resolves to (none for a package clause). */
  datatype Entry = Entry(ident: string, obj: Option<Object>)

  /** fromObj's identifier: the bare name inside the package under analysis, "pkg.Name" outside it. */
  function QualifiedName(env: Env, obj: Object): string
    requires obj.Owner().Some?
  {
    var p := obj.Owner().value;
    if p.name == env.package then obj.Name() else p.name + "." + obj.Name()
  }

  predicate IsMethod(obj: Object)
  {
    obj.Type().Signature? && obj.Type().recv.Some?
  }

  /**
   * isRequired under an allow-list: which identifier it marks found, or None
   * when it rejects. The identifier itself when listed; otherwise, for a
   * lifecycle method, its dereferenced receiver type when that is listed.
   */
  function Admit(env: Env, ident: string, obj: Object, required: set<string>): (r: Option<string>)
    ensures r.Some? ==> r.value in required
    ensures ident in required ==> r == Some(ident)
    ensures ident !in required ==>
      (r.Some? <==> IsMethod(obj) && ident in env.lifecycle && ReceiverKey(env, obj.Type().recv.value.typ) in required)
    ensures ident !in required && r.Some? ==> r.value == ReceiverKey(env, obj.Type().recv.value.typ)
  {
    if ident in required then Some(ident)
    else match obj.Type()
      case Signature(recv, _, _) =>
        if recv.Some? && ident in env.lifecycle then
          var ts := ReceiverKey(env, recv.value.typ);
          if ts in required then Some(ts) else None
        else None
      case _ => None
  }

  predicate Kept(env: Env, obj: Object, required: Option<set<string>>)
    requires obj.Owner().Some?
  {
    required.None? || Admit(env, QualifiedName(env, obj), obj, required.value).Some?
  }

  /** How fromObj changes the found set: the identifier isRequired admitted is added. */
  function FoundStep(env: Env, found: set<string>, obj: Option<Object>, required: Option<set<string>>): (r: set<string>)
    ensures found <= r
    ensures required.None? ==> r == found
    ensures required.Some? ==> r <= found + required.value
  {
    if obj.None? || obj.value.Owner().None? || required.None? then found
    else
      var a := Admit(env, QualifiedName(env, obj.value), obj.value, required.value);
      if a.Some? then found + {a.value} else found
  }

  /** mthdMap := wraps[ts] (made when missing); mthdMap[name] = sig. */
  function AddMethod(wraps: map<string, map<string, Sig>>, ts: string, name: string, sig: Sig): (r: map<string, map<string, Sig>>)
    ensures r.Keys == wraps.Keys + {ts}
    ensures r[ts] == (if ts in wraps then wraps[ts] else map[])[name := sig]
    ensures forall k :: k in wraps && k != ts ==> r[k] == wraps[k]
  {
    var bucket := if ts in wraps then wraps[ts] else map[];
    wraps[ts := bucket[name := sig]]
  }

  /** fromObj's effect on the tables, for an identifier named idName resolving to obj. */
  function FromObjStep(env: Env, s: Tables, idName: string, obj: Option<Object>, required: Option<set<string>>): Tables
  {
    if obj.None? || obj.value.Owner().None? || !Kept(env, obj.value, required) then s
    else match obj.value
      case FuncObj(p, _, sig) =>
        if sig.recv.Some? && idName !in env.lifecycle then s
        else Apply(FuncRecord(env, s, idName, p.value, obj.value.name, sig), SigHarvest(env, sig))
      case TypeNameObj(tn) => Apply(s, TypeHarvest(env, tn))
      case _ => s
  }

  /** The part of fromObj for a kept function or lifecycle method, before the signature walk. */
  function FuncRecord(env: Env, s: Tables, idName: string, p: Pkg, name: string, sig: Sig): Tables
  {
    var s1 :=
      if sig.recv.Some? then s.(wraps := AddMethod(s.wraps, ReceiverKey(env, sig.recv.value.typ), idName, sig))
      else if idName != "init" then s.(functions := s.functions + {QualifiedName(env, FuncObj(Some(p), name, sig))})
      else s;
    var s2 := if p.name != env.package then s1.(imports := s1.imports + {p.path}) else s1;
    s2.(funcs := s2.funcs[SigKey(env, sig) := sig])
  }

  lemma FuncRecordGrows(env: Env, s: Tables, idName: string, p: Pkg, name: string, sig: Sig)
    ensures Grows(s, FuncRecord(env, s, idName, p, name, sig))
  {
  }

  /** fromObj on a kept function or lifecycle method: record it, then walk its signature. */
  lemma FuncStep(env: Env, s: Tables, idName: string, p: Pkg, name: string, sig: Sig, required: Option<set<string>>)
    requires Kept(env, FuncObj(Some(p), name, sig), required)
    requires sig.recv.None? || idName in env.lifecycle
    ensures FromObjStep(env, s, idName, Some(FuncObj(Some(p), name, sig)), required)
      == Apply(FuncRecord(env, s, idName, p, name, sig), SigHarvest(env, sig))
  {
  }

  /** The extractor only ever adds: no step removes a function, type, import, shim, shape, bucket or method. */
  lemma FromObjStepGrows(env: Env, s: Tables, idName: string, obj: Option<Object>, required: Option<set<string>>)
    ensures Grows(s, FromObjStep(env, s, idName, obj, required))
  {
    if obj.Some? && obj.value.Owner().Some? && Kept(env, obj.value, required) {
      match obj.value
      case FuncObj(p, name, sig) =>
        if sig.recv.None? || idName in env.lifecycle {
          var s3 := FuncRecord(env, s, idName, p.value, name, sig);
          FuncRecordGrows(env, s, idName, p.value, name, sig);
          ApplyGrows(s3, SigHarvest(env, sig));
          GrowsTrans(s, s3, Apply(s3, SigHarvest(env, sig)));
        }
      case TypeNameObj(tn) =>
        ApplyGrows(s, TypeHarvest(env, tn));
      case _ =>
    }
  }

  /** Only lifecycle methods reach the wraps, and a non-method named init never reaches the functions. */
  lemma WrapsAndFunctionsGuarded(env: Env, s: Tables, idName: string, obj: Option<Object>, required: Option<set<string>>)
    ensures var r := FromObjStep(env, s, idName, obj, required);
      && (r.wraps != s.wraps ==> obj.Some? && obj.value.FuncObj? && obj.value.sig.recv.Some? && idName in env.lifecycle)
      && (obj.Some? && obj.value.FuncObj? && obj.value.sig.recv.None? && idName == "init" ==> r.functions == s.functions)
  {
    if obj.Some? && obj.value.Owner().Some? && Kept(env, obj.value, required) {
      match obj.value
      case FuncObj(p, name, sig) =>
        if sig.recv.None? || idName in env.lifecycle {
          var s3 := FuncRecord(env, s, idName, p.value, name, sig);
          var r := Apply(s3, SigHarvest(env, sig));
          assert r.functions == s3.functions && r.wraps == s3.wraps;
        }
      case TypeNameObj(tn) =>
        assert FromObjStep(env, s, idName, obj, required) == Apply(s, TypeHarvest(env, tn));
      case _ =>
    }
  }

  /** A lifecycle method's bucket is the existing one when there is one, extended by the method; no other bucket changes. */
  lemma BucketReused(env: Env, s: Tables, idName: string, p: Pkg, name: string, sig: Sig, required: Option<set<string>>)
    requires sig.recv.Some? && idName in env.lifecycle
    requires Kept(env, FuncObj(Some(p), name, sig), required)
    ensures var r := FromObjStep(env, s, idName, Some(FuncObj(Some(p), name, sig)), required);
      var ts := ReceiverKey(env, sig.recv.value.typ);
      && r.wraps.Keys == s.wraps.Keys + {ts}
      && (ts in s.wraps ==> r.wraps[ts] == s.wraps[ts][idName := sig])
      && (ts !in s.wraps ==> r.wraps[ts] == map[idName := sig])
      && (forall k :: k in s.wraps && k != ts ==> r.wraps[k] == s.wraps[k])
  {
    FuncStep(env, s, idName, p, name, sig, required);
    var s3 := FuncRecord(env, s, idName, p, name, sig);
    assert s3.wraps == AddMethod(s.wraps, ReceiverKey(env, sig.recv.value.typ), idName, sig);
    assert Apply(s3, SigHarvest(env, sig)).wraps == s3.wraps;
  }

  /** Every kept function or lifecycle method files its signature under its key, so equal shapes share one shim. */
  lemma ShimKeyedBySignature(env: Env, s: Tables, idName: string, p: Pkg, name: string, sig: Sig, required: Option<set<string>>)
    requires Kept(env, FuncObj(Some(p), name, sig), required)
    requires sig.recv.None? || idName in env.lifecycle
    ensures var r := FromObjStep(env, s, idName, Some(FuncObj(Some(p), name, sig)), required);
      && SigKey(env, sig) in r.funcs && r.funcs[SigKey(env, sig)] == sig
      && r.funcs.Keys == s.funcs.Keys + {SigKey(env, sig)}
  {
    FuncStep(env, s, idName, p, name, sig, required);
    var s3 := FuncRecord(env, s, idName, p, name, sig);
    assert s3.funcs == s.funcs[SigKey(env, sig) := sig];
    assert Apply(s3, SigHarvest(env, sig)).funcs == s3.funcs;
  }

  /** Two kept functions whose parameter and result types agree share one shim entry, holding the later signature. */
  lemma EqualShapesShareShim(env: Env, s: Tables, id1: string, f1: Object, id2: string, f2: Object, required: Option<set<string>>)
    requires f1.FuncObj? && f1.pkg.Some? && Kept(env, f1, required) && (f1.sig.recv.None? || id1 in env.lifecycle)
    requires f2.FuncObj? && f2.pkg.Some? && Kept(env, f2, required) && (f2.sig.recv.None? || id2 in env.lifecycle)
    requires SameTypes(f1.sig.params, f2.sig.params) && SameTypes(f1.sig.results, f2.sig.results)
    ensures var r := FromObjStep(env, FromObjStep(env, s, id1, Some(f1), required), id2, Some(f2), required);
      && r.funcs.Keys == s.funcs.Keys + {SigKey(env, f1.sig)}
      && r.funcs[SigKey(env, f1.sig)] == f2.sig
  {
    SigKeyIgnoresNames(env, f1.sig, f2.sig);
    var mid := FromObjStep(env, s, id1, Some(f1), required);
    ShimKeyedBySignature(env, s, id1, f1.pkg.value, f1.name, f1.sig, required);
    ShimKeyedBySignature(env, mid, id2, f2.pkg.value, f2.name, f2.sig, required);
  }

  /**
   * Under an allow-list, a function is registered only if its identifier is
   * listed, and a new wrap bucket is keyed by a listed receiver type or
   * comes from a listed method identifier.
   */
  lemma AllowListScopes(env: Env, s: Tables, idName: string, obj: Option<Object>, required: set<string>)
    ensures var r := FromObjStep(env, s, idName, obj, Some(required));
      && r.functions <= s.functions + required
      && (forall k :: k in r.wraps && k !in s.wraps ==>
            k in required || (obj.Some? && obj.value.Owner().Some? && QualifiedName(env, obj.value) in required))
  {
    if obj.Some? && obj.value.Owner().Some? && Kept(env, obj.value, Some(required)) {
      match obj.value
      case FuncObj(p, name, sig) =>
        if sig.recv.None? || idName in env.lifecycle {
          var s3 := FuncRecord(env, s, idName, p.value, name, sig);
          var r := Apply(s3, SigHarvest(env, sig));
          assert r.functions == s3.functions && r.wraps == s3.wraps;
        }
      case TypeNameObj(tn) =>
      case _ =>
    }
  }

  /** fromObj over a sequence of entries, in the order given. */
  function PassTables(env: Env, s: Tables, entries: seq<Entry>, required: Option<set<string>>): Tables
  {
    if entries == [] then s
    else
      var last := entries[|entries| - 1];
      FromObjStep(env, PassTables(env, s, entries[..|entries| - 1], required), last.ident, last.obj, required)
  }

  /** The found set after fromObj over a sequence of entries. */
  function PassFound(env: Env, found: set<string>, entries: seq<Entry>, required: Option<set<string>>): set<string>
  {
    if entries == [] then found
    else
      var last := entries[|entries| - 1];
      FoundStep(env, PassFound(env, found, entries[..|entries| - 1], required), last.obj, required)
  }

  lemma {:induction false} PassGrows(env: Env, s: Tables, entries: seq<Entry>, required: Option<set<string>>)
    ensures Grows(s, PassTables(env, s, entries, required))
  {
    if entries != [] {
      var last := entries[|entries| - 1];
      var mid := PassTables(env, s, entries[..|entries| - 1], required);
      PassGrows(env, s, entries[..|entries| - 1], required);
      FromObjStepGrows(env, mid, last.ident, last.obj, required);
    }
  }

  /** Only listed identifiers are ever found. */
  lemma {:induction false} PassFoundListed(env: Env, found: set<string>, entries: seq<Entry>, required: set<string>)
    ensures found <= PassFound(env, found, entries, Some(required)) <= found + required
  {
    if entries != [] {
      PassFoundListed(env, found, entries[..|entries| - 1], required);
    }
  }

  lemma {:induction false} PassConcat(env: Env, s: Tables, found: set<string>, a: seq<Entry>, b: seq<Entry>, required: Option<set<string>>)
    ensures PassTables(env, s, a + b, required) == PassTables(env, PassTables(env, s, a, required), b, required)
    ensures PassFound(env, found, a + b, required) == PassFound(env, PassFound(env, found, a, required), b, required)
    decreases |b|
  {
    if b == [] {
      assert a + b == a;
    } else {
      assert (a + b)[..|a + b| - 1] == a + b[..|b| - 1];
      PassConcat(env, s, found, a, b[..|b| - 1], required);
    }
  }

  /** The identifiers of ids not in found, in the order of ids. */
  function Missing(ids: seq<string>, found: set<string>): (r: seq<string>)
    ensures forall x :: x in r <==> x in ids && x !in found
    ensures |r| <= |ids|
  {
    if ids == [] then []
    else Missing(ids[..|ids| - 1], found) + (if ids[|ids| - 1] in found then [] else [ids[|ids| - 1]])
  }
  // A package declaring func Foo(x int) string, type Bar struct{} and
  // func (b *Bar) ProcessElement(x int) string, with Bar the only listed identifier.

  const MainPkg := Pkg("main", "main")
  const BarObj := TypeObj(Some(MainPkg), "Bar")
  const FooSig: Sig := Signature(None, [Var("x", Basic("int"))], [Var("", Basic("string"))])
  const PeSig: Sig := Signature(Some(Var("b", Pointer(Named(BarObj)))), [Var("x", Basic("int"))], [Var("", Basic("string"))])
  const FooEntry := Entry("Foo", Some(FuncObj(Some(MainPkg), "Foo", FooSig)))
  const BarEntry := Entry("Bar", Some(TypeNameObj(TypeName(BarObj, Named(BarObj), false))))
  const PeEntry := Entry("ProcessElement", Some(FuncObj(Some(MainPkg), "ProcessElement", PeSig)))
  const BarTables := NoTables.(types := {"Bar"}, imports := {"main"})
  /** Types {Bar}, wraps {Bar: {ProcessElement}}, one shim "func(int) (string)", no functions, the one import. */
  const PeTables := BarTables.(wraps := map["Bar" := map["ProcessElement" := PeSig]], funcs := map["func(int) (string)" := PeSig])

  function ScenarioEnv(shims: ShimNames): Env
  {
    Env("main", {"ProcessElement"}, shims)
  }

  lemma ScenarioRendering(shims: ShimNames)
    ensures Render(ScenarioEnv(shims), Named(BarObj)) == "Bar"
    ensures ReceiverKey(ScenarioEnv(shims), Pointer(Named(BarObj))) == "Bar"
    ensures SigKey(ScenarioEnv(shims), PeSig) == "func(int) (string)"
    ensures SigHarvest(ScenarioEnv(shims), PeSig) == Nothing
  {
    var env := ScenarioEnv(shims);
    TailAgreesOnPackageNames("main");
    SigKeyIgnoresReceiver(env, Var("b", Pointer(Named(BarObj))), [Var("x", Basic("int"))], [Var("", Basic("string"))]);
    SigKeyExample(env);
    assert TupleHarvest(env, PeSig.params) == Nothing;
    assert TupleHarvest(env, PeSig.results) == Nothing;
  }

  /** Foo is neither listed nor a method of a listed type: nothing happens. */
  lemma ScenarioFoo(shims: ShimNames)
    ensures FromObjStep(ScenarioEnv(shims), NoTables, FooEntry.ident, FooEntry.obj, Some({"Bar"})) == NoTables
    ensures FoundStep(ScenarioEnv(shims), {}, FooEntry.obj, Some({"Bar"})) == {}
  {
  }

  /** Bar is a listed type of the package under analysis, printed "Bar". */
  lemma ScenarioBarHarvest(shims: ShimNames)
    ensures var tn := TypeName(BarObj, Named(BarObj), false);
      && TypeNameObj(tn).Owner() == Some(MainPkg)
      && QualifiedName(ScenarioEnv(shims), TypeNameObj(tn)) == "Bar"
      && TypeHarvest(ScenarioEnv(shims), tn) == Harvest({"main"}, {"Bar"}, [], [])
  {
    var env := ScenarioEnv(shims);
    ScenarioRendering(shims);
    var tn := TypeName(BarObj, Named(BarObj), false);
    UnwrapAliasOnceKeepsName(env, tn);
  }

  /** Bar is listed: it is registered and its package imported. */
  lemma ScenarioBar(shims: ShimNames)
    ensures FromObjStep(ScenarioEnv(shims), NoTables, BarEntry.ident, BarEntry.obj, Some({"Bar"})) == BarTables
    ensures FoundStep(ScenarioEnv(shims), {}, BarEntry.obj, Some({"Bar"})) == {"Bar"}
  {
    var env := ScenarioEnv(shims);
    var tn := TypeName(BarObj, Named(BarObj), false);
    var bar := TypeNameObj(tn);
    ScenarioBarHarvest(shims);
    assert Admit(env, "Bar", bar, {"Bar"}) == Some("Bar");
    var h := Harvest({"main"}, {"Bar"}, [], []);
    assert FromObjStep(env, NoTables, "Bar", Some(bar), Some({"Bar"})) == Apply(NoTables, h);
    assert Put(NoTables.emits, []) == NoTables.emits;
    assert Put(NoTables.iters, []) == NoTables.iters;
  }

  /** ProcessElement is kept: its receiver type Bar is listed. */
  lemma ScenarioPeKept(shims: ShimNames)
    ensures Kept(ScenarioEnv(shims), PeEntry.obj.value, Some({"Bar"}))
    ensures FoundStep(ScenarioEnv(shims), {"Bar"}, PeEntry.obj, Some({"Bar"})) == {"Bar"}
  {
    var env := ScenarioEnv(shims);
    ScenarioRendering(shims);
    var pe := PeEntry.obj.value;
    assert pe.Owner() == Some(MainPkg);
    assert QualifiedName(env, pe) == "ProcessElement";
    assert pe.Type() == PeSig;
    assert IsMethod(pe);
    assert "ProcessElement" !in {"Bar"};
    var a := Admit(env, "ProcessElement", pe, {"Bar"});
    assert a == Some("Bar");
  }

  /** ProcessElement fills Bar's bucket and the one shim. */
  lemma ScenarioPeRecord(shims: ShimNames)
    ensures FuncRecord(ScenarioEnv(shims), BarTables, "ProcessElement", MainPkg, "ProcessElement", PeSig) == PeTables
  {
    ScenarioRendering(shims);
    var r := FuncRecord(ScenarioEnv(shims), BarTables, "ProcessElement", MainPkg, "ProcessElement", PeSig);
    assert r.wraps == map["Bar" := map["ProcessElement" := PeSig]];
    assert r.funcs == map["func(int) (string)" := PeSig];
  }

  /** ProcessElement is a lifecycle method of the listed Bar: it fills Bar's bucket and the one shim. */
  lemma ScenarioProcessElement(shims: ShimNames)
    ensures FromObjStep(ScenarioEnv(shims), BarTables, PeEntry.ident, PeEntry.obj, Some({"Bar"})) == PeTables
  {
    var env := ScenarioEnv(shims);
    ScenarioRendering(shims);
    ScenarioPeKept(shims);
    ScenarioPeRecord(shims);
    FuncStep(env, BarTables, "ProcessElement", MainPkg, "ProcessElement", PeSig, Some({"Bar"}));
    ApplyNothing(PeTables);
  }

  /**
   * The whole pass: Bar is a type and the bucket of its lifecycle method,
   * the one shim is keyed "func(int) (string)", Foo is left out, and Bar
   * is found.
   */
  lemma ScenarioOneStruct(shims: ShimNames)
    ensures PassTables(ScenarioEnv(shims), NoTables, [FooEntry, BarEntry, PeEntry], Some({"Bar"})) == PeTables
    ensures PassFound(ScenarioEnv(shims), {}, [FooEntry, BarEntry, PeEntry], Some({"Bar"})) == {"Bar"}
  {
    var env := ScenarioEnv(shims);
    var entries := [FooEntry, BarEntry, PeEntry];
    ScenarioFoo(shims);
    ScenarioBar(shims);
    ScenarioPeKept(shims);
    ScenarioProcessElement(shims);
    assert entries[..2] == [FooEntry, BarEntry];
    assert [FooEntry, BarEntry][..1] == [FooEntry];
    assert [FooEntry][..0] == [];
    assert PassTables(env, NoTables, [FooEntry], Some({"Bar"})) == NoTables;
    assert PassTables(env, NoTables, [FooEntry, BarEntry], Some({"Bar"})) == BarTables;
    assert PassFound(env, {}, [FooEntry], Some({"Bar"})) == {};
    assert PassFound(env, {}, [FooEntry, BarEntry], Some({"Bar"})) == {"Bar"};
  }

  /** Listing an identifier the package does not declare leaves exactly that one missing. */
  lemma ScenarioMissing()
    ensures Missing(["Bar", "Quux"], {"Bar"}) == ["Quux"]
  {
    assert ["Bar", "Quux"][..1] == ["Bar"];
    assert ["Bar"][..0] == [];
  }
}
