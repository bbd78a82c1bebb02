/**
 * The part of go/types the extractor reads, as a closed set of values: the
 * type-checker's output is input data here. Types are the kinds the
 * extractor distinguishes (basic, named, alias, pointer, slice, array, map,
 * signature); every other type literal (struct, interface, channel) is kept
 * as the text go/types prints for it.
 */
module GoTypes {
  import opened Wrappers
  import opened Text

  /** A package: its name (types.Package.Name) and its import path (Path). */
  datatype Pkg = Pkg(name: string, path: string)

  /** The type-name object behind a named or alias type; the package is None for universe types such as `error`. */
  datatype TypeObj = TypeObj(pkg: Option<Pkg>, name: string)

  /** A parameter or result of a signature; the name is "" when it is unnamed. */
  datatype Var = Var(name: string, typ: GoType)

  datatype GoType =
    | Basic(name: string)
    | Named(obj: TypeObj)
    | Alias(obj: TypeObj, rhs: GoType)
    | Pointer(elem: GoType)
    | Slice(elem: GoType)
    | Array(len: nat, elem: GoType)
    | Map(key: GoType, elem: GoType)
    | Signature(recv: Option<Var>, params: seq<Var>, results: seq<Var>)
    | Other(text: string)

  type Sig = t: GoType | t.Signature? witness Signature(None, [], [])

  /** A types.TypeName: the object, the type it denotes (Type()) and IsAlias(). */
  datatype TypeName = TypeName(obj: TypeObj, typ: GoType, isAlias: bool)

  /** The objects the type checker attaches to identifiers. */
  datatype Object =
    | VarObj(pkg: Option<Pkg>, name: string, typ: GoType)
    | FuncObj(pkg: Option<Pkg>, name: string, sig: Sig)
    | TypeNameObj(tn: TypeName)
    /** constants, labels, package names, builtins and nil */
    | OtherObj(pkg: Option<Pkg>, name: string, typ: GoType)
  {
    function Owner(): Option<Pkg>
    {
      if TypeNameObj? then tn.obj.pkg else pkg
    }

    function Name(): string
    {
      if TypeNameObj? then tn.obj.name else name
    }

    function Type(): GoType
    {
      match this
      case VarObj(_, _, t) => t
      case FuncObj(_, _, s) => s
      case TypeNameObj(n) => n.typ
      case OtherObj(_, _, t) => t
    }
  }

  /** u is t or is reached from t by following alias links. */
  predicate AliasReaches(t: GoType, u: GoType)
  {
    t == u || (t.Alias? && AliasReaches(t.rhs, u))
  }

  /** types.Unalias: follows alias links to the first type that is not an alias. */
  function Unalias(t: GoType): (u: GoType)
    ensures !u.Alias? && AliasReaches(t, u)
    ensures !t.Alias? ==> u == t
  {
    if t.Alias? then Unalias(t.rhs) else t
  }

  /** The chain of alias links from t ends in exactly one non-alias type, and Unalias gives it. */
  lemma {:induction false} UnaliasIsChainEnd(t: GoType, u: GoType)
    requires AliasReaches(t, u) && !u.Alias?
    ensures u == Unalias(t)
  {
    if t != u {
      UnaliasIsChainEnd(t.rhs, u);
    }
  }

  /** The number of alias, pointer, slice and array links on top of a type; it bounds every unwrapping loop. */
  function WrapperDepth(t: GoType): nat
  {
    match t
    case Alias(_, rhs) => 1 + WrapperDepth(rhs)
    case Pointer(e) => 1 + WrapperDepth(e)
    case Slice(e) => 1 + WrapperDepth(e)
    case Array(_, e) => 1 + WrapperDepth(e)
    case _ => 0
  }

  lemma {:induction false} UnaliasDepth(t: GoType)
    ensures WrapperDepth(Unalias(t)) <= WrapperDepth(t)
  {
    if t.Alias? {
      UnaliasDepth(t.rhs);
    }
  }

  /**
   * types.TypeString(t, qf): how go/types prints a type, qualifying a
   * package-level type name with qf(pkg) followed by "." unless qf gives "".
   */
  function TypeString(t: GoType, qf: Pkg -> string): string
    decreases t
  {
    match t
    case Basic(n) => n
    case Named(o) => ObjString(o, qf)
    case Alias(o, _) => ObjString(o, qf)
    case Pointer(e) => "*" + TypeString(e, qf)
    case Slice(e) => "[]" + TypeString(e, qf)
    case Array(n, e) => "[" + NatString(n) + "]" + TypeString(e, qf)
    case Map(k, v) => "map[" + TypeString(k, qf) + "]" + TypeString(v, qf)
    case Signature(_, ps, rs) => "func(" + TupleString(ps, qf) + ")" + ResultString(rs, qf)
    case Other(s) => s
  }

  function ObjString(o: TypeObj, qf: Pkg -> string): string
  {
    if o.pkg.Some? && qf(o.pkg.value) != "" then qf(o.pkg.value) + "." + o.name else o.name
  }

  /** The entries of a parameter or result list, separated by ", ", each named when it has a name. */
  function TupleString(vs: seq<Var>, qf: Pkg -> string): string
    decreases vs, 0
  {
    if |vs| == 0 then ""
    else
      var head := (if vs[0].name != "" then vs[0].name + " " else "") + TypeString(vs[0].typ, qf);
      if |vs| == 1 then head else head + ", " + TupleString(vs[1..], qf)
  }

  /** Nothing for no results, the bare type for one unnamed result, a parenthesised list otherwise. */
  function ResultString(rs: seq<Var>, qf: Pkg -> string): string
    decreases rs, 1
  {
    if |rs| == 0 then ""
    else if |rs| == 1 && rs[0].name == "" then " " + TypeString(rs[0].typ, qf)
    else " (" + TupleString(rs, qf) + ")"
  }
}
