/**
 * The registration-call scanner (findRegisterDoFnCalls): it looks for calls
 * of RegisterDoFn on the beam or genx package and takes from their argument
 * the identifier of the DoFn being registered. Its result scopes the
 * extraction to those identifiers.
 */
module Scanner {
  import opened Wrappers

  /** The go/ast expression shapes the scanner tells apart; every other expression is OtherExpr. */
  datatype Expr =
    | Ident(name: string)
    | Selector(x: Expr, sel: string)
    | Call(fun: Expr, args: seq<Expr>)
    | Paren(x: Expr)
    | Star(x: Expr)
    | Unary(op: string, x: Expr)
    /** a composite literal; its type is absent when elided */
    | Composite(typ: Option<Expr>)
    | OtherExpr(text: string)

  /** What visiting one node does: nothing, record an identifier, or panic on an unchecked type assertion. */
  datatype VisitOutcome = Skip | Register(id: string) | Panic(reason: string)

  /** The package names a RegisterDoFn receiver must denote. */
  const RegisteringPackages: set<string> := {"beam", "genx"}

  /**
   * findPackageRename: the name of the package an import alias stands for.
   * The type checker's definitions are given as a map from alias to package
   * name; the scan of info.Defs in map order is not modelled.
   */
  function FindPackageRename(renames: map<string, string>, alias: string): (r: Option<string>)
    ensures r.Some? <==> alias in renames
    ensures r.Some? ==> r.value == renames[alias]
  {
    if alias in renames then Some(renames[alias]) else None
  }

  /** isReflectTypeOf: the callee is literally `reflect.TypeOf`; the identifier `reflect` is not resolved. */
  function IsReflectTypeOf(call: Expr): (r: bool)
    requires call.Call?
    ensures r <==> call.fun == Selector(Ident("reflect"), "TypeOf")
  {
    match call.fun
    case Selector(x, sel) => sel == "TypeOf" && x.Ident? && x.name == "reflect"
    case _ => false
  }

  /**
   * isRegisterDoFnCall as written: when the receiver of a RegisterDoFn
   * selector is not an identifier, the "fail" diagnostic prints the nil
   * *ast.Ident left by the failed type assertion, and types.ExprString
   * dereferences it. The argument is evaluated whether or not debugging is on.
   */
  function IsRegisterDoFnCallAsWritten(call: Expr, renames: map<string, string>): (r: Result<bool>)
    requires call.Call?
  {
    match call.fun
    case Selector(x, sel) =>
      if sel != "RegisterDoFn" then Ok(false)
      else if !x.Ident? then Panicked("invalid memory address or nil pointer dereference")
      else if x.name in RegisteringPackages then Ok(true)
      else
        var pkgName := FindPackageRename(renames, x.name);
        Ok(pkgName.Some? && pkgName.value in RegisteringPackages)
    case _ => Ok(false)
  }

  /**
   * isRegisterDoFnCall as intended: a call of RegisterDoFn selected from an
   * identifier that is beam or genx, or an import alias of one of them.
   */
  function IsRegisterDoFnCall(call: Expr, renames: map<string, string>): (r: bool)
    requires call.Call?
    ensures r <==>
      && call.fun.Selector?
      && call.fun.sel == "RegisterDoFn"
      && call.fun.x.Ident?
      && (call.fun.x.name in RegisteringPackages
          || (call.fun.x.name in renames && renames[call.fun.x.name] in RegisteringPackages))
  {
    match call.fun
    case Selector(x, sel) =>
      if sel != "RegisterDoFn" || !x.Ident? then false
      else if x.name in RegisteringPackages then true
      else
        var pkgName := FindPackageRename(renames, x.name);
        pkgName.Some? && pkgName.value in RegisteringPackages
    case _ => false
  }

  /** `s.beam.RegisterDoFn(F)`, a RegisterDoFn selected from a field, panics the written check. */
  lemma RegisterDoFnOnFieldPanics(renames: map<string, string>)
    ensures IsRegisterDoFnCallAsWritten(Call(Selector(Selector(Ident("s"), "beam"), "RegisterDoFn"), [Ident("F")]), renames).Panicked?
    ensures !IsRegisterDoFnCall(Call(Selector(Selector(Ident("s"), "beam"), "RegisterDoFn"), [Ident("F")]), renames)
  {
  }

  /** Wherever the written check does not panic, it gives the intended answer. */
  lemma IsRegisterDoFnCallAgrees(call: Expr, renames: map<string, string>)
    requires call.Call?
    ensures IsRegisterDoFnCallAsWritten(call, renames).Panicked? || IsRegisterDoFnCallAsWritten(call, renames) == Ok(IsRegisterDoFnCall(call, renames))
    ensures IsRegisterDoFnCallAsWritten(call, renames).Panicked? <==>
      call.fun.Selector? && call.fun.sel == "RegisterDoFn" && !call.fun.x.Ident?
  {
  }

  /** One link of the unwrapping chain: go on with an expression, or stop with an outcome. */
  datatype Stage = Continue(e: Expr) | Stop(outcome: VisitOutcome)

  /** Step 1: a call argument must be reflect.TypeOf(x) and is replaced by x; any other call is skipped. */
  function StripTypeOf(e: Expr): Stage
  {
    if !e.Call? then Continue(e)
    else if !IsReflectTypeOf(e) then Stop(Skip)
    else if |e.args| == 0 then Stop(Panic("index out of range"))
    else Continue(e.args[0])
  }

  /** Steps 2 and 3: (*T)(nil) becomes T (any other call panics); &x, or any unary x, becomes x. */
  function StripIndirection(e: Expr): Stage
  {
    if e.Call? then
      if e.fun.Paren? && e.fun.x.Star? then Continue(e.fun.x.x)
      else Stop(Panic("interface conversion: ast.Expr is not *ast.ParenExpr of *ast.StarExpr"))
    else if e.Unary? then Continue(e.x)
    else Continue(e)
  }

  /**
   * Steps 4 and 5: T{} is named by its type, which must be an identifier;
   * pkg.F is named "pkg.F", with pkg replaced by the package it is an alias
   * of; an identifier names itself; anything else is skipped.
   */
  function IdentifierOf(e: Expr, renames: map<string, string>): VisitOutcome
  {
    match e
    case Composite(t) =>
      if t.Some? && t.value.Ident? then Register(t.value.name)
      else Panic("interface conversion: ast.Expr is not *ast.Ident")
    case Selector(x, sel) =>
      if !x.Ident? then Panic("interface conversion: ast.Expr is not *ast.Ident")
      else
        var pkgName := FindPackageRename(renames, x.name);
        Register((if pkgName.Some? then pkgName.value else x.name) + "." + sel)
    case Ident(n) => Register(n)
    case _ => Skip
  }

  function AndThen(s: Stage, step: Expr -> Stage): Stage
  {
    if s.Stop? then s else step(s.e)
  }

  /** The unwrapping chain applied to a RegisterDoFn argument, the steps in order. */
  function Unwrap(arg: Expr, renames: map<string, string>): VisitOutcome
  {
    var s := AndThen(StripTypeOf(arg), StripIndirection);
    if s.Stop? then s.outcome else IdentifierOf(s.e, renames)
  }

  /** What Visit does with one node of the syntax tree. */
  function VisitSpec(node: Expr, renames: map<string, string>): VisitOutcome
  {
    if !node.Call? || !IsRegisterDoFnCall(node, renames) then Skip
    else if |node.args| == 0 then Panic("index out of range")
    else Unwrap(node.args[0], renames)
  }

  function Recorded(o: VisitOutcome): set<string>
  {
    if o.Register? then {o.id} else {}
  }

  /** The identifiers that visiting the nodes, in order, records. */
  function Registrations(nodes: seq<Expr>, renames: map<string, string>): set<string>
  {
    if nodes == [] then {}
    else Registrations(nodes[..|nodes| - 1], renames) + Recorded(VisitSpec(nodes[|nodes| - 1], renames))
  }

  predicate AnyPanic(nodes: seq<Expr>, renames: map<string, string>)
  {
    exists i :: 0 <= i < |nodes| && VisitSpec(nodes[i], renames).Panic?
  }

  function BeamRegister(arg: Expr): Expr
  {
    Call(Selector(Ident("beam"), "RegisterDoFn"), [arg])
  }

  /** The argument forms that name a DoFn type T all record "T". */
  lemma TypeArgumentsRecordTheirName(n: string, renames: map<string, string>)
    ensures VisitSpec(BeamRegister(Ident(n)), renames) == Register(n)
    ensures VisitSpec(BeamRegister(Composite(Some(Ident(n)))), renames) == Register(n)
    ensures VisitSpec(BeamRegister(Unary("&", Composite(Some(Ident(n))))), renames) == Register(n)
    ensures VisitSpec(BeamRegister(Call(Selector(Ident("reflect"), "TypeOf"), [Call(Paren(Star(Ident(n))), [Ident("nil")])])), renames) == Register(n)
    ensures VisitSpec(BeamRegister(Call(Selector(Ident("reflect"), "TypeOf"), [Unary("&", Composite(Some(Ident(n))))])), renames) == Register(n)
  {
  }

  /** A function of another package is recorded under the name of the package its alias stands for. */
  lemma SelectorRecordsResolvedPackage(alias: string, f: string, renames: map<string, string>)
    ensures alias in renames ==> VisitSpec(BeamRegister(Selector(Ident(alias), f)), renames) == Register(renames[alias] + "." + f)
    ensures alias !in renames ==> VisitSpec(BeamRegister(Selector(Ident(alias), f)), renames) == Register(alias + "." + f)
  {
  }

  /**
   * A call argument other than reflect.TypeOf(...) is skipped silently: so
   * are `r.TypeOf(x)` for an alias r of reflect, and a bare (*T)(nil).
   */
  lemma OtherCallsSkipped(call: Expr, renames: map<string, string>)
    requires call.Call? && !IsReflectTypeOf(call)
    ensures VisitSpec(BeamRegister(call), renames) == Skip
  {
  }

  lemma BareNilConversionSkipped(n: string, renames: map<string, string>)
    ensures VisitSpec(BeamRegister(Call(Paren(Star(Ident(n))), [Ident("nil")])), renames) == Skip
  {
    OtherCallsSkipped(Call(Paren(Star(Ident(n))), [Ident("nil")]), renames);
  }

  /** The unchecked assertions: a composite literal of another package's type, and reflect.TypeOf of a plain call. */
  lemma UncheckedAssertionsPanic(renames: map<string, string>)
    ensures VisitSpec(BeamRegister(Unary("&", Composite(Some(Selector(Ident("pkg"), "DoFn"))))), renames).Panic?
    ensures VisitSpec(BeamRegister(Call(Selector(Ident("reflect"), "TypeOf"), [Call(Ident("NewDoFn"), [])])), renames).Panic?
  {
  }

  /** Only RegisterDoFn calls of beam or genx record anything. */
  lemma OnlyRegisterCallsRecord(node: Expr, renames: map<string, string>)
    requires VisitSpec(node, renames).Register?
    ensures node.Call? && node.fun.Selector? && node.fun.sel == "RegisterDoFn"
  {
  }

  /** The state of findRegisterDoFnCalls: the identifiers found so far, and the import aliases of the checked package. */
  class RegisterDoFnFinder {
    const renames: map<string, string>
    var idsToFind: set<string>

    constructor (renames: map<string, string>)
      ensures this.renames == renames && idsToFind == {}
    {
      this.renames := renames;
      idsToFind := {};
    }

    /** Visit: handles one node; ok is false where the source panics. */
    method Visit(node: Expr) returns (ok: bool)
      modifies this
      ensures ok <==> !VisitSpec(node, renames).Panic?
      ensures idsToFind == old(idsToFind) + Recorded(VisitSpec(node, renames))
    {
      ok := true;
      if !node.Call? || !IsRegisterDoFnCall(node, renames) {
        return;
      }
      if |node.args| == 0 {
        return false;
      }
      var param := node.args[0];
      if param.Call? {
        if !IsReflectTypeOf(param) {
          return;
        }
        if |param.args| == 0 {
          return false;
        }
        param := param.args[0];
      }
      if param.Call? {
        if !(param.fun.Paren? && param.fun.x.Star?) {
          return false;
        }
        param := param.fun.x.x;
      } else if param.Unary? {
        param := param.x;
      }
      if param.Composite? {
        if param.typ.None? {
          return false;
        }
        param := param.typ.value;
      } else if param.Selector? {
        if !param.x.Ident? {
          return false;
        }
        var str := param.x.name + "." + param.sel;
        var pkgName := FindPackageRename(renames, param.x.name);
        if pkgName.Some? {
          str := pkgName.value + "." + param.sel;
        }
        idsToFind := idsToFind + {str};
        return;
      } else if !param.Ident? {
        return;
      }
      if !param.Ident? {
        return false;
      }
      idsToFind := idsToFind + {param.name};
    }
  }
}
