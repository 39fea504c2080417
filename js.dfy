/**
 * The few JavaScript built-ins the plugin relies on, stated in Dafny terms:
 * optional values (`null`/`undefined`), `Array.prototype.some`,
 * `String.prototype.indexOf`, `substring`, `replace`
 * with a string pattern, and the decimal text of an integer.
 */
module Js {

  /** A value that may be `null`/`undefined` (None). */
  datatype Option<+T> = None | Some(value: T)

  /** `xs.some(p)`: true iff some element satisfies `p`; false on `[]`. */
  function AnyOf<T>(xs: seq<T>, p: T -> bool): (r: bool)
    ensures r <==> exists x :: x in xs && p(x)
  {
    if xs == [] then false
    else p(xs[0]) || AnyOf(xs[1..], p)
  }

  /** `xs.flatMap(f)`, or a loop of `acc = acc.concat(f(x))`: the results of `f` concatenated in order. */
  function FlatMap<T, U>(f: T -> seq<U>, xs: seq<T>): seq<U>
  {
    if xs == [] then [] else FlatMap(f, xs[..|xs| - 1]) + f(xs[|xs| - 1])
  }

  /** Appending one element appends its results. */
  lemma FlatMapSnoc<T, U>(f: T -> seq<U>, xs: seq<T>, x: T)
    ensures FlatMap(f, xs + [x]) == FlatMap(f, xs) + f(x)
  {
    assert (xs + [x])[..|xs|] == xs;
  }

  /** A prefix one longer is the prefix with the next element appended. */
  lemma PrefixSnoc<T>(xs: seq<T>, i: nat)
    requires i < |xs|
    ensures xs[..i + 1] == xs[..i] + [xs[i]]
  {
  }

  /** Appending to a concatenation appends to its second part. */
  lemma AppendAssoc<T>(a: seq<T>, b: seq<T>, c: seq<T>)
    ensures a + b + c == a + (b + c)
  {
  }

  /** An element is in the result iff it is in the result of some input element. */
  /** A slice of a prefix is the same slice of the whole. */
  lemma SliceOfPrefix<T>(xs: seq<T>, n: nat, i: nat, j: nat)
    requires i <= j <= n <= |xs|
    ensures xs[..n][i..j] == xs[i..j]
  {
  }

  /** A slice of the second part of a concatenation is a slice of that part. */
  lemma SliceOfSuffix<T>(xs: seq<T>, ys: seq<T>, i: nat, j: nat)
    requires |xs| <= i <= j <= |xs| + |ys|
    ensures (xs + ys)[i..j] == ys[i - |xs|..j - |xs|]
  {
  }

  lemma {:induction false} InFlatMap<T, U>(f: T -> seq<U>, xs: seq<T>, u: U)
    ensures u in FlatMap(f, xs) <==> exists x :: x in xs && u in f(x)
  {
    if xs != [] {
      var prefix := xs[..|xs| - 1];
      var last := xs[|xs| - 1];
      InFlatMap(f, prefix, u);
      assert xs == prefix + [last];
      assert forall x :: x in xs <==> x in prefix || x == last;
    }
  }

  /** The results for a concatenation are the results for its parts, concatenated: nothing merged, nothing reordered. */
  lemma {:induction false} FlatMapConcat<T, U>(f: T -> seq<U>, a: seq<T>, b: seq<T>)
    ensures FlatMap(f, a + b) == FlatMap(f, a) + FlatMap(f, b)
  {
    if b == [] {
      assert a + b == a;
    } else {
      var b', x := b[..|b| - 1], b[|b| - 1];
      assert b == b' + [x];
      AppendAssoc(a, b', [x]);
      FlatMapSnoc(f, a + b', x);
      FlatMapSnoc(f, b', x);
      FlatMapConcat(f, a, b');
    }
  }

  /** `pat` occurs in `s` starting at offset `i`. */
  predicate OccursAt(s: string, pat: string, i: int)
  {
    0 <= i && i + |pat| <= |s| && s[i..i + |pat|] == pat
  }

  /** `s.indexOf(pat)`: the first offset at which `pat` occurs, or -1. */
  function IndexOf(s: string, pat: string): (r: int)
    ensures -1 <= r <= |s|
    ensures r == -1 <==> forall i :: !OccursAt(s, pat, i)
    ensures r >= 0 ==> OccursAt(s, pat, r) && forall i :: 0 <= i < r ==> !OccursAt(s, pat, i)
  {
    IndexFrom(s, pat, 0)
  }

  /** The first occurrence determines `indexOf`. */
  lemma IndexOfFirst(s: string, pat: string, p: int)
    requires OccursAt(s, pat, p)
    requires forall i :: 0 <= i < p ==> !OccursAt(s, pat, i)
    ensures IndexOf(s, pat) == p
  {
    var r := IndexOf(s, pat);
    assert r != -1;
    assert !(r < p) && !(p < r);
  }

  /** Two strings that share the text up to the end of the first occurrence in one share its offset. */
  lemma IndexOfSharedPrefix(s: string, t: string, pat: string, n: nat)
    requires n <= |s| && n <= |t| && s[..n] == t[..n]
    requires 0 <= IndexOf(t, pat) && IndexOf(t, pat) + |pat| <= n
    ensures IndexOf(s, pat) == IndexOf(t, pat)
  {
    var p := IndexOf(t, pat);
    forall i | 0 <= i <= p
      ensures OccursAt(s, pat, i) == OccursAt(t, pat, i)
    {
      SliceOfPrefix(s, n, i, i + |pat|);
      SliceOfPrefix(t, n, i, i + |pat|);
    }
    IndexOfFirst(s, pat, p);
  }

  /** Where `pat` occurs at `i`, its `k`-th character is at `i + k`. */
  lemma CharOfOccurrence(s: string, pat: string, i: int, k: nat)
    requires OccursAt(s, pat, i) && k < |pat|
    ensures s[i + k] == pat[k]
  {
    assert s[i..i + |pat|][k] == s[i + k];
  }

  /** `pat` does not occur at `i` when one of its characters differs there. */
  lemma NotOccursAt(s: string, pat: string, i: int, k: int)
    requires 0 <= k < |pat| && 0 <= i + k < |s| && s[i + k] != pat[k]
    ensures !OccursAt(s, pat, i)
  {
  }

  function IndexFrom(s: string, pat: string, from: nat): (r: int)
    requires from <= |s|
    ensures r == -1 || from <= r <= |s|
    ensures r == -1 <==> forall i :: from <= i ==> !OccursAt(s, pat, i)
    ensures r >= 0 ==> OccursAt(s, pat, r) && forall i :: from <= i < r ==> !OccursAt(s, pat, i)
    decreases |s| - from
  {
    if from + |pat| > |s| then -1
    else if s[from..from + |pat|] == pat then assert OccursAt(s, pat, from); from
    else IndexFrom(s, pat, from + 1)
  }

  /** Clamps an index argument of `substring` into `[0, len]`. */
  function Clamp(n: int, len: nat): (r: nat)
    ensures r <= len
  {
    if n < 0 then 0 else if n > len then len else n
  }

  /** `s.substring(start, end)`: both bounds clamped, swapped when start > end. */
  function Substring(s: string, start: int, end: int): string
  {
    var a := Clamp(start, |s|);
    var b := Clamp(end, |s|);
    if a <= b then s[a..b] else s[b..a]
  }

  /** `s.replace(pat, rep)` with a string pattern: only the first occurrence is replaced. */
  function ReplaceFirst(s: string, pat: string, rep: string): string
  {
    var p := IndexOf(s, pat);
    if p < 0 then s else s[..p] + rep + s[p + |pat|..]
  }

  function DigitChar(d: nat): (c: char)
    requires d < 10
    ensures '0' <= c <= '9'
  {
    "0123456789"[d]
  }

  function NatToString(n: nat): string
  {
    if n < 10 then [DigitChar(n)] else NatToString(n / 10) + [DigitChar(n % 10)]
  }

  /** `String(n)` for an integer `n`. */
  function IntToString(n: int): string
  {
    if n < 0 then "-" + NatToString(-n) else NatToString(n)
  }

  /** Text made only of a minus sign and decimal digits. */
  predicate IsNumeral(s: string)
  {
    forall k :: 0 <= k < |s| ==> s[k] == '-' || '0' <= s[k] <= '9'
  }

  lemma {:induction false} NatToStringIsNumeral(n: nat)
    ensures |NatToString(n)| >= 1 && IsNumeral(NatToString(n))
    decreases n
  {
    if n >= 10 {
      NatToStringIsNumeral(n / 10);
    }
  }

  /** `String(n)` is never empty and holds only a sign and digits. */
  lemma IntToStringIsNumeral(n: int)
    ensures |IntToString(n)| >= 1 && IsNumeral(IntToString(n))
  {
    if n < 0 {
      NatToStringIsNumeral(-n);
    } else {
      NatToStringIsNumeral(n);
    }
  }
}
