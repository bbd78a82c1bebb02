/** The few pieces of Go's strings and strconv packages the extractor relies on. */
module Text {

  /** strings.Join: the elements of xs separated by sep. */
  function Join(xs: seq<string>, sep: string): (r: string)
    ensures |xs| == 1 ==> r == xs[0]
    ensures xs == [] ==> r == ""
    ensures |r| == SumLengths(xs) + (if |xs| == 0 then 0 else (|xs| - 1) * |sep|)
  {
    if |xs| == 0 then ""
    else if |xs| == 1 then xs[0]
    else xs[0] + sep + Join(xs[1..], sep)
  }

  function SumLengths(xs: seq<string>): nat
  {
    if |xs| == 0 then 0 else |xs[0]| + SumLengths(xs[1..])
  }

  /** Appending an element to a non-empty list puts one separator before it. */
  lemma {:induction false} JoinSnoc(xs: seq<string>, y: string, sep: string)
    requires xs != []
    ensures Join(xs + [y], sep) == Join(xs, sep) + sep + y
  {
    if |xs| > 1 {
      assert (xs + [y])[1..] == xs[1..] + [y];
      JoinSnoc(xs[1..], y, sep);
    } else {
      assert (xs + [y])[1..] == [y];
    }
  }

  predicate OccursAt(s: string, sub: string, i: int)
  {
    0 <= i && i + |sub| <= |s| && s[i..i + |sub|] == sub
  }

  /** A one-character separator that does not occur at an index is not the character there. */
  lemma NotOccursAtChar(s: string, c: char, j: int)
    requires 0 <= j < |s|
    requires !OccursAt(s, [c], j)
    ensures s[j] != c
  {
    assert s[j..j + 1] == [s[j]];
  }

  /** strings.LastIndex(s, sub): the index of the last occurrence of sub in s, or -1. */
  function LastIndex(s: string, sub: string): (i: int)
    ensures i == -1 || OccursAt(s, sub, i)
    ensures forall j :: i < j <= |s| - |sub| ==> !OccursAt(s, sub, j)
  {
    LastIndexBelow(s, sub, |s| - |sub|)
  }

  function LastIndexBelow(s: string, sub: string, k: int): (i: int)
    requires k <= |s| - |sub|
    ensures i == -1 || (OccursAt(s, sub, i) && i <= k)
    ensures forall j :: i < j <= k ==> !OccursAt(s, sub, j)
    decreases k + 1
  {
    if k < 0 then -1
    else if s[k..k + |sub|] == sub then k
    else LastIndexBelow(s, sub, k - 1)
  }

  predicate IsDigits(s: string)
  {
    forall i :: 0 <= i < |s| ==> '0' <= s[i] <= '9'
  }

  /** The number a string of decimal digits spells, most significant first. */
  function DecimalValue(s: string): nat
    requires IsDigits(s)
  {
    if |s| == 0 then 0 else 10 * DecimalValue(s[..|s| - 1]) + (s[|s| - 1] as int - '0' as int)
  }

  /**
   * strconv.Itoa on a non-negative value: the decimal digits that spell n,
   * most significant first, with no leading zero.
   */
  function NatString(n: nat): (r: string)
    ensures |r| >= 1 && IsDigits(r)
    ensures DecimalValue(r) == n
    ensures |r| > 1 ==> r[0] != '0'
  {
    if n < 10 then [Digit(n)]
    else
      var r := NatString(n / 10) + [Digit(n % 10)];
      assert r[..|r| - 1] == NatString(n / 10);
      r
  }

  function Digit(d: nat): (c: char)
    requires d < 10
    ensures '0' <= c <= '9' && c as int - '0' as int == d
  {
    ('0' as int + d) as char
  }
}
