/**
 * The records handed to the shim template: a function shim, a structural
 * DoFn wrapper, and the top-level description of the generated file. Only
 * the fields the extractor fills are modelled.
 */
module Shims {
  import opened Text
  import opened GoTypes
  import opened Shapes

  /** shimx.Func: the shim's name, the signature key it serves, and the printed parameter and result types. */
  datatype Func = Func(name: string, typ: string, ins: seq<string>, outs: seq<string>)

  /** shimx.Wrap: a receiver type, the name derived from it, and one shim per lifecycle method. */
  datatype Wrap = Wrap(name: string, typ: string, methods: seq<Func>)

  /** shimx.Top: everything the generated file is rendered from. */
  datatype Top = Top(
    fileName: string,
    toolName: string,
    package: string,
    imports: seq<string>,
    functions: seq<string>,
    types: seq<string>,
    wraps: seq<Wrap>,
    shims: seq<Func>,
    emitters: seq<Shape>,
    inputs: seq<Shape>)

  const ToolName := "starcgen"

  /** xs lists the members of s, each once, in some order. */
  ghost predicate Lists<T(!new)>(xs: seq<T>, s: set<T>)
  {
    && (forall x :: x in xs <==> x in s)
    && (forall i, j :: 0 <= i < j < |xs| ==> xs[i] != xs[j])
  }

  /** The receiver types of a list of wrappers, in order. */
  function WrapTypes(ws: seq<Wrap>): (r: seq<string>)
    ensures |r| == |ws| && forall i :: 0 <= i < |ws| ==> r[i] == ws[i].typ
  {
    seq(|ws|, i requires 0 <= i < |ws| => ws[i].typ)
  }

  /** The signature keys of a list of shims, in order. */
  function FuncTypes(fs: seq<Func>): (r: seq<string>)
    ensures |r| == |fs| && forall i :: 0 <= i < |fs| ==> r[i] == fs[i].typ
  {
    seq(|fs|, i requires 0 <= i < |fs| => fs[i].typ)
  }

  /** The names of a list of shims, in order. */
  function FuncNames(fs: seq<Func>): (r: seq<string>)
    ensures |r| == |fs| && forall i :: 0 <= i < |fs| ==> r[i] == fs[i].name
  {
    seq(|fs|, i requires 0 <= i < |fs| => fs[i].name)
  }

  /** NameType of each entry's type, in order. */
  function TypeNames(env: Env, vs: seq<Var>): (r: seq<string>)
    ensures |r| == |vs|
    ensures forall i :: 0 <= i < |vs| ==> r[i] == NameType(env, vs[i].typ)
  {
    if vs == [] then [] else [NameType(env, vs[0].typ)] + TypeNames(env, vs[1..])
  }

  /** makeFunc's shim for a signature, before its name or key is overwritten by the caller. */
  function FuncFor(env: Env, sig: Sig): Func
  {
    Func(env.shimx.funcName(TypeNames(env, sig.params), TypeNames(env, sig.results)), "",
         TupleStrings(env, sig.params), TupleStrings(env, sig.results))
  }

  /** The key a shim is filed under is spelt from the shim's own parameter and result lists. */
  lemma ShimKeyMatchesLists(env: Env, sig: Sig)
    ensures SigKey(env, sig) == "func(" + Join(FuncFor(env, sig).ins, ",") + ") (" + Join(FuncFor(env, sig).outs, ",") + ")"
    ensures |FuncFor(env, sig).ins| == |sig.params| && |FuncFor(env, sig).outs| == |sig.results|
  {
  }

  /** Parameter and result names, and the receiver, make no difference to a shim. */
  lemma {:induction false} ShimIgnoresNames(env: Env, s1: Sig, s2: Sig)
    requires SameTypes(s1.params, s2.params) && SameTypes(s1.results, s2.results)
    ensures FuncFor(env, s1) == FuncFor(env, s2)
  {
    TypeNamesSameTypes(env, s1.params, s2.params);
    TypeNamesSameTypes(env, s1.results, s2.results);
    SigKeyIgnoresNames(env, s1, s2);
    assert TupleStrings(env, s1.params) == TupleStrings(env, s2.params);
    assert TupleStrings(env, s1.results) == TupleStrings(env, s2.results);
  }

  lemma TypeNamesSameTypes(env: Env, a: seq<Var>, b: seq<Var>)
    requires SameTypes(a, b)
    ensures TypeNames(env, a) == TypeNames(env, b)
  {
  }

  /** A lifecycle method's shim: makeFunc's, renamed to the method. */
  ghost predicate MethodShims(env: Env, ms: seq<Func>, bucket: map<string, Sig>)
  {
    && Lists(FuncNames(ms), bucket.Keys)
    && forall i :: 0 <= i < |ms| ==> ms[i].name in bucket && ms[i] == FuncFor(env, bucket[ms[i].name]).(name := ms[i].name)
  }
}
