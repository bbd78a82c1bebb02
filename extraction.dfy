/**
 * The Extractor object: its accumulated tables are fields that its methods
 * update in place, and each method is proved to have the effect the
 * functions of module Classify describe.
 */
module Extraction {
  import opened Wrappers
  import opened GoTypes
  import opened Shapes
  import opened Classify
  import opened Scanner
  import opened Shims

  /** The type checker's settings that depend on the extractor: whether function bodies are skipped and uses recorded. */
  datatype CheckConfig = CheckConfig(ignoreFuncBodies: bool, recordUses: bool)

  /**
   * What type checking the package yields: an error, or the definitions and
   * uses (identifier name and object, in the order they are visited) and
   * the import renames among the definitions.
   */
  datatype CheckResult =
    | CheckFailed(message: string)
    | Checked(defs: seq<Entry>, uses: seq<Entry>, renames: map<string, string>)

  /** Why FromAsts fails. */
  datatype ExtractError =
    | TypeCheckFailed(pkg: string, message: string)
    | IdentifiersNotFound(missing: seq<string>)
    /** the scan for registration calls hit an unchecked type assertion */
    | ScanPanicked(reason: string)

  predicate AnyQualified(ids: seq<string>)
  {
    exists i :: 0 <= i < |ids| && '.' in ids[i]
  }

  /**
   * The type-checker settings: full checking by default; in legacy mode
   * without identifiers, bodies are skipped and uses not recorded; in
   * legacy mode with identifiers, bodies are checked only when some
   * identifier is package-qualified.
   */
  function ConfigFor(legacy: bool, ids: seq<string>): (c: CheckConfig)
    ensures !legacy ==> c == CheckConfig(false, true)
    ensures legacy && ids == [] ==> !c.recordUses && c.ignoreFuncBodies
    ensures legacy && ids != [] ==> c.recordUses && (c.ignoreFuncBodies <==> !AnyQualified(ids))
  {
    if !legacy then CheckConfig(false, true)
    else if ids == [] then CheckConfig(true, false)
    else CheckConfig(!AnyQualified(ids), true)
  }

  /** The allow-list: none when there are no identifiers, else the set of them. */
  function RequiredFor(ids: seq<string>): (r: Option<set<string>>)
    ensures r.None? <==> ids == []
    ensures r.Some? ==> forall x :: x in r.value <==> x in ids
  {
    if ids == [] then None else Some(set x | x in ids)
  }

  /** The identifiers that may be missing after a pass: those listed and not found. */
  function Outcome(ids: seq<string>, found: set<string>): (err: Option<ExtractError>)
    ensures err.None? <==> forall x :: x in ids ==> x in found
    ensures err.Some? ==> err.value.IdentifiersNotFound? && err.value.missing == Missing(ids, found)
  {
    var m := Missing(ids, found);
    if m == [] then None
    else
      assert m[0] in m;
      Some(IdentifiersNotFound(m))
  }

  /** Whether any identifier is package-qualified: the loop that decides whether bodies are checked. */
  method ChecksFuncBodies(ids: seq<string>) returns (b: bool)
    ensures b <==> AnyQualified(ids)
  {
    b := false;
    for i := 0 to |ids|
      invariant !b
      invariant forall j :: 0 <= j < i ==> '.' !in ids[j]
    {
      if '.' in ids[i] {
        b := true;
        break;
      }
    }
  }

  /** The listed identifiers not found, in the order listed. */
  method MissingIdentifiers(ids: seq<string>, found: set<string>) returns (notFound: seq<string>)
    ensures notFound == Missing(ids, found)
  {
    notFound := [];
    for i := 0 to |ids|
      invariant notFound == Missing(ids[..i], found)
    {
      assert ids[..i + 1][..i] == ids[..i];
      if ids[i] !in found {
        notFound := notFound + [ids[i]];
      }
    }
    assert ids[..|ids|] == ids;
  }

  /** The idsFound set, shared by reference between fromObj and isRequired. */
  class IdSet {
    var members: set<string>

    constructor ()
      ensures members == {}
    {
      members := {};
    }
  }

  class Extractor {
    const env: Env
    var legacyIdentifiers: bool
    var ids: seq<string>
    var functions: set<string>
    var types: set<string>
    var wraps: map<string, map<string, Sig>>
    var funcs: map<string, Sig>
    var emits: map<string, Shape>
    var iters: map<string, Shape>
    var imports: set<string>

    /** The tables as one value. */
    function State(): Tables
      reads this
    {
      Tables(functions, types, wraps, funcs, emits, iters, imports)
    }

    /** NewExtractor: empty tables for the package env.package. */
    constructor (env: Env)
      ensures this.env == env && State() == NoTables
      ensures ids == [] && !legacyIdentifiers
    {
      this.env := env;
      legacyIdentifiers := false;
      ids := [];
      functions, types, wraps, funcs, emits, iters, imports := {}, {}, map[], map[], map[], map[], {};
    }

    /**
     * isRequired: with no allow-list everything is kept; otherwise an
     * identifier is kept when listed, and a lifecycle method when its
     * dereferenced receiver type is listed; what is kept is marked found.
     * The nil-found panic of the source is excluded by the precondition,
     * as FromAsts always makes the two together.
     */
    method IsRequired(ident: string, obj: Object, required: Option<set<string>>, found: IdSet?) returns (keep: bool)
      requires required.Some? ==> found != null
      modifies found
      ensures keep <==> required.None? || Admit(env, ident, obj, required.value).Some?
      ensures required.None? && found != null ==> found.members == old(found.members)
      ensures required.Some? ==>
        found.members == old(found.members) + (if keep then {Admit(env, ident, obj, required.value).value} else {})
    {
      if required.None? {
        return true;
      }
      if ident in required.value {
        found.members := found.members + {ident};
        return true;
      }
      match obj.Type()
      case Signature(recv, _, _) =>
        if recv.Some? && ident in env.lifecycle {
          var ts := ReceiverTypeString(recv.value.typ);
          if ts !in required.value {
            return false;
          }
          found.members := found.members + {ts};
          return true;
        }
        return false;
      case _ =>
        return false;
    }

    /**
     * fromObj: for a kept function, register it (or, for a lifecycle method,
     * add it to its receiver's wrap bucket), import its package when
     * foreign, file its signature's shim and walk the signature; for a kept
     * type name, register the type.
     */
    method FromObj(idName: string, obj: Option<Object>, required: Option<set<string>>, found: IdSet?)
      requires required.Some? ==> found != null
      modifies this, found
      ensures State() == FromObjStep(env, old(State()), idName, obj, required)
      ensures found != null ==> found.members == FoundStep(env, old(found.members), obj, required)
      ensures ids == old(ids) && legacyIdentifiers == old(legacyIdentifiers)
    {
      if obj.None? {
        return;
      }
      var o := obj.value;
      var pkg := o.Owner();
      if pkg.None? {
        return;
      }
      var ident := pkg.value.name + "." + o.Name();
      if pkg.value.name == env.package {
        ident := o.Name();
      }
      var keep := IsRequired(ident, o, required, found);
      if !keep {
        return;
      }
      match o
      case FuncObj(p, name, sig) =>
        if sig.recv.Some? && idName !in env.lifecycle {
          return;
        }
        assert ident == QualifiedName(env, o);
        RecordFunc(idName, p.value, name, sig);
        ExtractFromSignature(sig);
        FuncStep(env, old(State()), idName, p.value, name, sig, required);
      case TypeNameObj(tn) =>
        ExtractType(tn);
      case _ =>
    }

    /**
     * The bookkeeping of fromObj for a kept function or lifecycle method:
     * a method joins its receiver's wrap bucket (made when missing), a
     * function other than init is registered, a foreign package is
     * imported, and the signature is filed under its shim key.
     */
    method RecordFunc(idName: string, p: Pkg, name: string, sig: Sig)
      requires sig.recv.None? || idName in env.lifecycle
      modifies this
      ensures State() == FuncRecord(env, old(State()), idName, p, name, sig)
      ensures ids == old(ids) && legacyIdentifiers == old(legacyIdentifiers)
    {
      if sig.recv.Some? {
        var ts := ReceiverTypeString(sig.recv.value.typ);
        var mthdMap := if ts in wraps then wraps[ts] else map[];
        wraps := wraps[ts := mthdMap[idName := sig]];
      } else if idName != "init" {
        var ident := if p.name == env.package then name else p.name + "." + name;
        functions := functions + {ident};
      }
      if p.name != env.package {
        imports := imports + {p.path};
      }
      funcs := funcs[SigKey(env, sig) := sig];
    }

    /**
     * FromAsts: type check the package, scan for registration calls and
     * add what they register to the identifiers, then run fromObj over the
     * definitions and (when recorded) the uses, and fail when a listed
     * identifier was never found.
     */
    method FromAsts(check: CheckConfig -> CheckResult, nodes: seq<Expr>) returns (err: Option<ExtractError>)
      modifies this
      ensures legacyIdentifiers == old(legacyIdentifiers)
      ensures check(ConfigFor(old(legacyIdentifiers), old(ids))).CheckFailed? ==>
        err == Some(TypeCheckFailed(env.package, check(ConfigFor(old(legacyIdentifiers), old(ids))).message))
        && State() == old(State()) && ids == old(ids)
      ensures check(ConfigFor(old(legacyIdentifiers), old(ids))).Checked? ==>
        var res := check(ConfigFor(old(legacyIdentifiers), old(ids)));
        if AnyPanic(nodes, res.renames) then
          err.Some? && err.value.ScanPanicked? && State() == old(State()) && ids == old(ids)
        else
          && |old(ids)| <= |ids| && ids[..|old(ids)|] == old(ids)
          && Lists(ids[|old(ids)|..], Registrations(nodes, res.renames))
          && var entries := res.defs + (if ConfigFor(old(legacyIdentifiers), old(ids)).recordUses then res.uses else []);
             State() == PassTables(env, old(State()), entries, RequiredFor(ids))
             && err == Outcome(ids, PassFound(env, {}, entries, RequiredFor(ids)))
    {
      var cfg := Configure();
      var res := check(cfg);
      if res.CheckFailed? {
        return Some(TypeCheckFailed(env.package, res.message));
      }
      var idsToFind := ScanRegistrations(nodes, res.renames);
      if idsToFind.None? {
        return Some(ScanPanicked("unchecked type assertion in a registration call"));
      }
      AppendIds(idsToFind.value);

      var required: Option<set<string>> := None;
      var found: IdSet? := null;
      if |ids| > 0 {
        required := Some(set x | x in ids);
        found := new IdSet();
      }
      var uses := if cfg.recordUses then res.uses else [];
      RunPass(res.defs, uses, required, found);
      var foundIds: set<string> := {};
      if found != null {
        foundIds := found.members;
      } else {
        PassFoundUnfiltered(env, res.defs + uses);
      }
      var notFound := MissingIdentifiers(ids, foundIds);
      if |notFound| > 0 {
        return Some(IdentifiersNotFound(notFound));
      }
      return None;
    }

    /** The type-checker settings FromAsts chooses. */
    method Configure() returns (cfg: CheckConfig)
      ensures cfg == ConfigFor(legacyIdentifiers, ids)
    {
      cfg := CheckConfig(false, true);
      if legacyIdentifiers {
        cfg := CheckConfig(true, false);
        if |ids| != 0 {
          var checkFuncBodies := ChecksFuncBodies(ids);
          cfg := CheckConfig(!checkFuncBodies, true);
        }
      }
    }

    /** fromObj over the definitions, then over the uses. */
    method RunPass(defs: seq<Entry>, uses: seq<Entry>, required: Option<set<string>>, found: IdSet?)
      requires required.Some? ==> found != null
      modifies this, found
      ensures State() == PassTables(env, old(State()), defs + uses, required)
      ensures found != null ==> found.members == PassFound(env, old(found.members), defs + uses, required)
      ensures ids == old(ids) && legacyIdentifiers == old(legacyIdentifiers)
    {
      ghost var f0 := if found != null then found.members else {};
      FromEntries(defs, required, found);
      FromEntries(uses, required, found);
      PassConcat(env, old(State()), f0, defs, uses, required);
    }

    /** One of FromAsts' loops: fromObj on each entry in turn. */
    method FromEntries(entries: seq<Entry>, required: Option<set<string>>, found: IdSet?)
      requires required.Some? ==> found != null
      modifies this, found
      ensures State() == PassTables(env, old(State()), entries, required)
      ensures found != null ==> found.members == PassFound(env, old(found.members), entries, required)
      ensures ids == old(ids) && legacyIdentifiers == old(legacyIdentifiers)
    {
      for i := 0 to |entries|
        invariant State() == PassTables(env, old(State()), entries[..i], required)
        invariant found != null ==> found.members == PassFound(env, old(found.members), entries[..i], required)
        invariant ids == old(ids) && legacyIdentifiers == old(legacyIdentifiers)
      {
        FromObj(entries[i].ident, entries[i].obj, required, found);
        assert entries[..i + 1][..i] == entries[..i];
      }
      assert entries[..|entries|] == entries;
    }

    /** Walk the registration-call scanner over the nodes; None when a visit panics. */
    method ScanRegistrations(nodes: seq<Expr>, renames: map<string, string>) returns (r: Option<set<string>>)
      ensures r.None? <==> AnyPanic(nodes, renames)
      ensures r.Some? ==> r.value == Registrations(nodes, renames)
    {
      var visitor := new RegisterDoFnFinder(renames);
      for i := 0 to |nodes|
        invariant visitor.idsToFind == Registrations(nodes[..i], renames)
        invariant forall j :: 0 <= j < i ==> !VisitSpec(nodes[j], renames).Panic?
      {
        var ok := visitor.Visit(nodes[i]);
        assert nodes[..i + 1][..i] == nodes[..i];
        if !ok {
          return None;
        }
      }
      assert nodes[..|nodes|] == nodes;
      return Some(visitor.idsToFind);
    }

    /** Append the scanned identifiers to ids, in map order (any order, each once). */
    method AppendIds(found: set<string>)
      modifies this
      ensures |old(ids)| <= |ids| && ids[..|old(ids)|] == old(ids)
      ensures Lists(ids[|old(ids)|..], found)
      ensures State() == old(State()) && legacyIdentifiers == old(legacyIdentifiers)
    {
      var rest := found;
      ghost var added: seq<string> := [];
      while rest != {}
        invariant ids == old(ids) + added
        invariant forall x :: x in found <==> x in added || x in rest
        invariant forall x :: x in added ==> x !in rest
        invariant forall i, j :: 0 <= i < j < |added| ==> added[i] != added[j]
        invariant State() == old(State()) && legacyIdentifiers == old(legacyIdentifiers)
        decreases |rest|
      {
        var id :| id in rest;
        ids := ids + [id];
        added := added + [id];
        rest := rest - {id};
      }
      assert ids[|old(ids)|..] == added;
    }

    /** makeFunc: the printed types of the parameters and results, and the shim name from their NameType names. */
    method MakeFunc(t: Sig) returns (shim: Func)
      ensures shim == FuncFor(env, t)
    {
      var ins: seq<string> := [];
      var inNames: seq<string> := [];
      for i := 0 to |t.params|
        invariant |ins| == |inNames| == i
        invariant forall j :: 0 <= j < i ==> ins[j] == VarString(env, t.params[j]) && inNames[j] == NameType(env, t.params[j].typ)
      {
        ins := ins + [Render(env, t.params[i].typ)];
        inNames := inNames + [NameType(env, t.params[i].typ)];
      }
      var outs: seq<string> := [];
      var outNames: seq<string> := [];
      for i := 0 to |t.results|
        invariant |outs| == |outNames| == i
        invariant forall j :: 0 <= j < i ==> outs[j] == VarString(env, t.results[j]) && outNames[j] == NameType(env, t.results[j].typ)
      {
        outs := outs + [Render(env, t.results[i].typ)];
        outNames := outNames + [NameType(env, t.results[i].typ)];
      }
      assert ins == TupleStrings(env, t.params) && outs == TupleStrings(env, t.results);
      assert inNames == TypeNames(env, t.params) && outNames == TypeNames(env, t.results);
      shim := Func(env.shimx.funcName(inNames, outNames), "", ins, outs);
    }

    /**
     * Generate: the description of the generated file, listing every
     * registered function and type, one wrapper per receiver type with one
     * shim per lifecycle method, one shim per signature key, every emitter
     * and iterator, and every import except "" and the package itself.
     * Rendering it through the template is not modelled.
     */
    method Generate(filename: string) returns (top: Top)
      ensures top.fileName == filename && top.toolName == ToolName && top.package == env.package
      ensures Lists(top.functions, functions) && Lists(top.types, types)
      ensures Lists(top.imports, imports - {"", env.package})
      ensures Lists(WrapTypes(top.wraps), wraps.Keys)
      ensures forall i :: 0 <= i < |top.wraps| ==> WrapFor(top.wraps[i])
      ensures Lists(FuncTypes(top.shims), funcs.Keys)
      ensures forall i :: 0 <= i < |top.shims| ==> ShimFor(top.shims[i])
      ensures |top.emitters| == |emits.Keys| && forall x :: x in top.emitters <==> x in emits.Values
      ensures |top.inputs| == |iters.Keys| && forall x :: x in top.inputs <==> x in iters.Values
    {
      var fs := Enumerate(functions);
      var typs := Enumerate(types);
      var ws := WrapList();
      var shims := ShimList();
      var emitters := ValuesOf(emits);
      var inputs := ValuesOf(iters);
      var imps := ImportList();
      top := Top(filename, ToolName, env.package, imps, fs, typs, ws, shims, emitters, inputs);
    }

    /** A wrapper for one of the receiver types, named by shimx.Name, with a shim per method of its bucket. */
    ghost predicate WrapFor(w: Wrap)
      reads this
    {
      w.typ in wraps && w.name == env.shimx.name(w.typ) && MethodShims(env, w.methods, wraps[w.typ])
    }

    /** A shim for one of the signature keys: makeFunc of the filed signature, with the key as its type. */
    ghost predicate ShimFor(f: Func)
      reads this
    {
      f.typ in funcs && f == FuncFor(env, funcs[f.typ]).(typ := f.typ)
    }

    /** The imports loop: every import path except "" and the package itself. */
    method ImportList() returns (xs: seq<string>)
      ensures Lists(xs, imports - {"", env.package})
    {
      xs := [];
      var rest := imports;
      while rest != {}
        invariant rest <= imports
        invariant forall x :: x in xs <==> x in imports - {"", env.package} && x !in rest
        invariant forall i, j :: 0 <= i < j < |xs| ==> xs[i] != xs[j]
        decreases |rest|
      {
        var k :| k in rest;
        rest := rest - {k};
        if k == "" || k == env.package {
          continue;
        }
        xs := xs + [k];
      }
    }

    /** The wraps loop: one wrapper per receiver type. */
    method WrapList() returns (ws: seq<Wrap>)
      ensures Lists(WrapTypes(ws), wraps.Keys)
      ensures forall i :: 0 <= i < |ws| ==> WrapFor(ws[i])
    {
      var keys := Enumerate(wraps.Keys);
      ws := [];
      for i := 0 to |keys|
        invariant |ws| == i
        invariant forall j :: 0 <= j < i ==> ws[j].typ == keys[j] && WrapFor(ws[j])
      {
        var typ := keys[i];
        var mthdMap := wraps[typ];
        var mNames := Enumerate(mthdMap.Keys);
        var methods: seq<Func> := [];
        for j := 0 to |mNames|
          invariant |methods| == j
          invariant forall k :: 0 <= k < j ==> methods[k] == FuncFor(env, mthdMap[mNames[k]]).(name := mNames[k])
        {
          var shim := MakeFunc(mthdMap[mNames[j]]);
          shim := shim.(name := mNames[j]);
          methods := methods + [shim];
        }
        assert FuncNames(methods) == mNames;
        ws := ws + [Wrap(env.shimx.name(typ), typ, methods)];
      }
      assert WrapTypes(ws) == keys;
    }

    /** The shims loop: one shim per signature key. */
    method ShimList() returns (ss: seq<Func>)
      ensures Lists(FuncTypes(ss), funcs.Keys)
      ensures forall i :: 0 <= i < |ss| ==> ShimFor(ss[i])
    {
      var keys := Enumerate(funcs.Keys);
      ss := [];
      for i := 0 to |keys|
        invariant |ss| == i
        invariant forall j :: 0 <= j < i ==> ss[j].typ == keys[j] && ShimFor(ss[j])
      {
        var shim := MakeFunc(funcs[keys[i]]);
        shim := shim.(typ := keys[i]);
        ss := ss + [shim];
      }
      assert FuncTypes(ss) == keys;
    }

    /** The loop that dereferences a receiver type, printed: the key of the receiver's wrap bucket. */
    method ReceiverTypeString(recv: GoType) returns (ts: string)
      ensures ts == ReceiverKey(env, recv)
    {
      var t := recv;
      while Unalias(t).Pointer?
        invariant StripPointers(t) == StripPointers(recv)
        decreases WrapperDepth(t)
      {
        StripPointersStep(t);
        UnaliasDepth(t);
        t := Unalias(t).elem;
      }
      StripPointersStep(t);
      ts := Render(env, t);
    }

    /** extractFromContainer: strip slices, pointers and arrays, looking through aliases, down to the base type. */
    method ExtractFromContainer(t0: GoType) returns (t: GoType)
      ensures t == BaseOf(t0)
      ensures !IsContainer(Unalias(t))
    {
      t := t0;
      while true
        invariant BaseOf(t) == BaseOf(t0)
        decreases WrapperDepth(t)
      {
        BaseOfStep(t);
        UnaliasDepth(t);
        if Unalias(t).Slice? {
          t := Unalias(t).elem;
          continue;
        }
        if Unalias(t).Pointer? {
          t := Unalias(t).elem;
          continue;
        }
        if Unalias(t).Array? {
          t := Unalias(t).elem;
          continue;
        }
        return;
      }
    }

    /** extractType: import the type's package and register it, after unwrapping one alias level. */
    method ExtractType(tn: TypeName)
      modifies this
      ensures State() == Apply(old(State()), TypeHarvest(env, tn))
      ensures ids == old(ids) && legacyIdentifiers == old(legacyIdentifiers)
    {
      var name := Render(env, tn.typ);
      var ot := tn;
      if ot.isAlias {
        if ot.typ.Alias? {
          name := Render(env, ot.typ);
          ot := TypeName(ot.typ.obj, ot.typ, true);
        }
        if ot.typ.Named? {
          name := Render(env, ot.typ);
          ot := TypeName(ot.typ.obj, ot.typ, false);
        }
      }
      assert (ot, name) == UnwrapAliasOnce(env, tn);
      ghost var s0 := State();
      if ot.obj.pkg.Some? {
        var path := ot.obj.pkg.value.path;
        imports := imports + {path};
        if path == TypexImport {
          ApplyHarvestParts(s0, {path}, {});
          return;
        }
        types := types + {name};
        ApplyHarvestParts(s0, {path}, {name});
      } else {
        ApplyNothing(s0);
      }
    }

    /** extractFromSignature: parameters, then results. */
    method ExtractFromSignature(sig: Sig)
      modifies this
      ensures State() == Apply(old(State()), SigHarvest(env, sig))
      ensures ids == old(ids) && legacyIdentifiers == old(legacyIdentifiers)
      decreases sig, 0
    {
      ExtractFromTuple(sig.params);
      ExtractFromTuple(sig.results);
      ApplyThen(old(State()), TupleHarvest(env, sig.params), TupleHarvest(env, sig.results));
    }

    /** extractFromTuple: one round of its loop per entry, in order. */
    method ExtractFromTuple(vs: seq<Var>)
      modifies this
      ensures State() == Apply(old(State()), TupleHarvest(env, vs))
      ensures ids == old(ids) && legacyIdentifiers == old(legacyIdentifiers)
      decreases vs, 3
    {
      ghost var s0 := State();
      assert vs[..0] == [];
      ApplyNothing(s0);
      for i := 0 to |vs|
        invariant State() == Apply(s0, TupleHarvest(env, vs[..i]))
        invariant ids == old(ids) && legacyIdentifiers == old(legacyIdentifiers)
      {
        ExtractFromVar(vs[i]);
        assert vs[..i + 1][..i] == vs[..i];
        ApplyThen(s0, TupleHarvest(env, vs[..i]), VarHarvest(env, vs[i]));
      }
      assert vs[..|vs|] == vs;
    }

    /** One round of extractFromTuple's loop. */
    method ExtractFromVar(s: Var)
      modifies this
      ensures State() == Apply(old(State()), VarHarvest(env, s))
      ensures ids == old(ids) && legacyIdentifiers == old(legacyIdentifiers)
      decreases s, 2
    {
      var t := ExtractFromContainer(s.typ);
      RegisterBase(t);
      ghost var mid := State();
      if s.typ.Signature? {
        ExtractCallback(s.typ);
      } else {
        ApplyNothing(mid);
      }
      ApplyThen(old(State()), BaseHarvest(env, t), if s.typ.Signature? then CallbackHarvest(env, s.typ) else Nothing);
    }

    /** Import and register the base type of an entry when it is an alias or a named type. */
    method RegisterBase(t: GoType)
      modifies this
      ensures State() == Apply(old(State()), BaseHarvest(env, t))
      ensures ids == old(ids) && legacyIdentifiers == old(legacyIdentifiers)
    {
      ghost var pre := State();
      ghost var fromAlias := if t.Alias? then Then(PkgImport(t.obj.pkg), TypeHarvest(env, TypeName(t.obj, t, true))) else Nothing;
      ghost var fromNamed := if t.Named? then Then(PkgImport(t.obj.pkg), TypeHarvest(env, TypeName(t.obj, t, false))) else Nothing;
      if t.Alias? {
        if t.obj.pkg.Some? {
          imports := imports + {t.obj.pkg.value.path};
        }
        ApplyImport(pre, t.obj.pkg);
        ExtractType(TypeName(t.obj, t, true));
        ApplyThen(pre, PkgImport(t.obj.pkg), TypeHarvest(env, TypeName(t.obj, t, true)));
      } else {
        ApplyNothing(pre);
      }
      ghost var mid := State();
      if t.Named? {
        if t.obj.pkg.Some? {
          imports := imports + {t.obj.pkg.value.path};
        }
        ApplyImport(mid, t.obj.pkg);
        ExtractType(TypeName(t.obj, t, false));
        ApplyThen(mid, PkgImport(t.obj.pkg), TypeHarvest(env, TypeName(t.obj, t, false)));
      } else {
        ApplyNothing(mid);
      }
      ApplyThen(pre, fromAlias, fromNamed);
    }

    /** A function-typed entry: record it as an emitter or an iterator when it is one, then walk its signature. */
    method ExtractCallback(a: Sig)
      modifies this
      ensures State() == Apply(old(State()), CallbackHarvest(env, a))
      ensures ids == old(ids) && legacyIdentifiers == old(legacyIdentifiers)
      decreases a, 1
    {
      ghost var pre := State();
      var emt := MakeEmitter(env, a);
      if emt.Some? {
        emits := emits[emt.value.name := emt.value];
      }
      var ipt := MakeInput(env, a);
      if ipt.Some? {
        iters := iters[ipt.value.name := ipt.value];
      }
      ApplyShapes(pre, emt, ipt);
      ExtractFromSignature(a);
      ApplyThen(pre, Harvest({}, {}, AsSeq(emt), AsSeq(ipt)), SigHarvest(env, a));
    }
  }

  /** Ranging over a Go set (a map to struct{}): every member once, in an order the model leaves open. */
  method Enumerate<T(==,!new)>(s: set<T>) returns (xs: seq<T>)
    ensures Lists(xs, s)
  {
    xs := [];
    var rest := s;
    while rest != {}
      invariant rest <= s
      invariant forall x :: x in xs <==> x in s && x !in rest
      invariant forall i, j :: 0 <= i < j < |xs| ==> xs[i] != xs[j]
      decreases |rest|
    {
      var x :| x in rest;
      xs := xs + [x];
      rest := rest - {x};
    }
  }

  /** The values of a shape map, one per key, in key order. */
  method ValuesOf(m: map<string, Shape>) returns (xs: seq<Shape>)
    ensures |xs| == |m.Keys|
    ensures forall x :: x in xs <==> x in m.Values
  {
    var keys := Enumerate(m.Keys);
    xs := [];
    for i := 0 to |keys|
      invariant |xs| == i
      invariant forall j :: 0 <= j < i ==> xs[j] == m[keys[j]]
    {
      xs := xs + [m[keys[i]]];
    }
    DistinctCard(keys, m.Keys);
    forall x | x in m.Values ensures x in xs {
      var k :| k in m && m[k] == x;
      var j :| 0 <= j < |keys| && keys[j] == k;
      assert xs[j] == x;
    }
  }

  /** A duplicate-free listing of a set is as long as the set is large. */
  lemma {:induction false} DistinctCard<T(!new)>(xs: seq<T>, s: set<T>)
    requires Lists(xs, s)
    ensures |xs| == |s|
    decreases |xs|
  {
    if xs != [] {
      var init := xs[..|xs| - 1];
      var last := xs[|xs| - 1];
      assert last !in init;
      assert forall x :: x in xs <==> x in init || x == last;
      DistinctCard(init, s - {last});
    }
  }

  lemma {:induction false} PassFoundUnfiltered(env: Env, entries: seq<Entry>)
    ensures PassFound(env, {}, entries, None) == {}
  {
    if entries != [] {
      PassFoundUnfiltered(env, entries[..|entries| - 1]);
    }
  }

  lemma ApplyHarvestParts(s: Tables, imports: set<string>, types: set<string>)
    ensures Apply(s, Harvest(imports, types, [], [])) == s.(imports := s.imports + imports, types := s.types + types)
  {
    assert Put(s.emits, []) == s.emits;
    assert Put(s.iters, []) == s.iters;
  }

  lemma ApplyImport(s: Tables, p: Option<Pkg>)
    ensures Apply(s, PkgImport(p)) == if p.Some? then s.(imports := s.imports + {p.value.path}) else s
  {
    ApplyNothing(s);
    if p.Some? {
      ApplyHarvestParts(s, {p.value.path}, {});
    }
  }

  lemma ApplyShapes(s: Tables, emt: Option<Shape>, ipt: Option<Shape>)
    ensures Apply(s, Harvest({}, {}, AsSeq(emt), AsSeq(ipt))) ==
      s.(emits := if emt.Some? then s.emits[emt.value.name := emt.value] else s.emits,
         iters := if ipt.Some? then s.iters[ipt.value.name := ipt.value] else s.iters)
  {
    PutOne(s.emits, emt);
    PutOne(s.iters, ipt);
  }

  lemma PutOne(m: map<string, Shape>, x: Option<Shape>)
    ensures Put(m, AsSeq(x)) == if x.Some? then m[x.value.name := x.value] else m
  {
    if x.Some? {
      assert [x.value][..0] == [];
    }
  }

  /**
   * A registration call and fromObj agree on identifiers: beam.RegisterDoFn(F)
   * records the name a function F of the package under analysis is looked up
   * by, and beam.RegisterDoFn(alias.F), with alias an import of package p,
   * records p's qualified name for F; either way the function is kept.
   */
  lemma RegistrationMatchesQualifiedName(env: Env, renames: map<string, string>, alias: string, p: Pkg, f: string, sig: Sig)
    requires alias in renames && renames[alias] == p.name
    ensures var local := FuncObj(Some(Pkg(env.package, env.package)), f, sig);
      && VisitSpec(BeamRegister(Ident(f)), renames) == Register(QualifiedName(env, local))
      && Kept(env, local, Some(Recorded(VisitSpec(BeamRegister(Ident(f)), renames))))
    ensures var foreign := FuncObj(Some(p), f, sig);
      p.name != env.package ==>
      && VisitSpec(BeamRegister(Selector(Ident(alias), f)), renames) == Register(QualifiedName(env, foreign))
      && Kept(env, foreign, Some(Recorded(VisitSpec(BeamRegister(Selector(Ident(alias), f)), renames))))
  {
    TypeArgumentsRecordTheirName(f, renames);
    SelectorRecordsResolvedPackage(alias, f, renames);
  }
}
