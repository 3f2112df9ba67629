/**
 * The few JavaScript built-ins the pages' state logic relies on, as pure functions:
 * `undefined`-or-value, `String.prototype.trim`, `Array.prototype.find`,
 * `Array.prototype.filter` and `Array.prototype.slice(0, n)`.
 * A string is truthy in JavaScript exactly when it is not the empty string.
 */
module Js {

  /** A value or `undefined` (what `find` and optional fields give back). */
  datatype Option<+T> = None | Some(value: T)

  /** JavaScript truthiness of a string that may be `null`: present and non-empty. */
  predicate IsTruthy(o: Option<string>) {
    o.Some? && o.value != ""
  }

  /** The code points `trim` removes: ECMAScript WhiteSpace (TAB, VT, FF, SPACE, NBSP,
      ZWNBSP and the other Zs spaces) and LineTerminator (LF, CR, LS, PS). */
  predicate IsWhiteSpace(c: char) {
    var n := c as int;
    n == 0x09 || n == 0x0A || n == 0x0B || n == 0x0C || n == 0x0D || n == 0x20
    || n == 0xA0 || n == 0x1680 || (0x2000 <= n <= 0x200A) || n == 0x2028 || n == 0x2029
    || n == 0x202F || n == 0x205F || n == 0x3000 || n == 0xFEFF
  }

  /** Every character of `s` is white space (the empty string included). */
  predicate IsBlank(s: string) {
    forall k | 0 <= k < |s| :: IsWhiteSpace(s[k])
  }

  /** The index of the first character at or after `i` that is not white space (`|s|` if none). */
  function SkipBlank(s: string, i: nat): (k: nat)
    requires i <= |s|
    ensures i <= k <= |s|
    ensures forall j | i <= j < k :: IsWhiteSpace(s[j])
    ensures k < |s| ==> !IsWhiteSpace(s[k])
    decreases |s| - i
  {
    if i < |s| && IsWhiteSpace(s[i]) then SkipBlank(s, i + 1) else i
  }

  /** The end of `s[lo..hi]` once its trailing white space is dropped. */
  function SkipBlankBack(s: string, lo: nat, hi: nat): (k: nat)
    requires lo <= hi <= |s|
    ensures lo <= k <= hi
    ensures forall j | k <= j < hi :: IsWhiteSpace(s[j])
    ensures k > lo ==> !IsWhiteSpace(s[k - 1])
  {
    if hi > lo && IsWhiteSpace(s[hi - 1]) then SkipBlankBack(s, lo, hi - 1) else hi
  }

  /** `r` is `s[i..i + |r|]`, and what lies before and after it in `s` is white space. */
  predicate StripsTo(s: string, i: int, r: string) {
    && 0 <= i <= |s| - |r| && r == s[i..i + |r|]
    && (forall j | 0 <= j < i :: IsWhiteSpace(s[j]))
    && (forall j | i + |r| <= j < |s| :: IsWhiteSpace(s[j]))
  }

  /** Neither starts nor ends with white space. */
  predicate IsTrimmed(s: string) {
    s != [] ==> !IsWhiteSpace(s[0]) && !IsWhiteSpace(s[|s| - 1])
  }

  /** `s.trim()`: the infix of `s` left after dropping white space on either side;
      it neither starts nor ends with white space, and it is empty exactly when `s` is blank. */
  function Trim(s: string): (r: string)
    ensures exists i :: StripsTo(s, i, r)
    ensures IsTrimmed(r)
    ensures r == [] <==> IsBlank(s)
  {
    var a := SkipBlank(s, 0);
    var b := SkipBlankBack(s, a, |s|);
    assert StripsTo(s, a, s[a..b]);
    s[a..b]
  }

  /** The strings `trim` leaves alone are exactly those without white space at either end. */
  lemma TrimKeeps(s: string)
    ensures Trim(s) == s <==> IsTrimmed(s)
  {
    if IsTrimmed(s) && s != [] {
      assert SkipBlank(s, 0) == 0;
      assert SkipBlankBack(s, 0, |s|) == |s|;
    }
  }

  /** Trimming twice is trimming once. */
  lemma TrimIdempotent(s: string)
    ensures Trim(Trim(s)) == Trim(s)
  {
    TrimKeeps(Trim(s));
  }

  /** `s.find(p)`: the first element of `s` that satisfies `p`, or `undefined`. */
  function Find<T(==)>(s: seq<T>, p: T -> bool): (r: Option<T>)
    ensures r.None? <==> forall i | 0 <= i < |s| :: !p(s[i])
    ensures r.Some? ==>
      exists i | 0 <= i < |s| :: s[i] == r.value && p(s[i]) && forall j | 0 <= j < i :: !p(s[j])
  {
    if s == [] then None
    else if p(s[0]) then Some(s[0])
    else
      var r := Find(s[1..], p);
      assert forall i | 0 < i < |s| :: s[i] == s[1..][i - 1];
      if r.Some? then
        var i :| 0 <= i < |s[1..]| && s[1..][i] == r.value && p(s[1..][i])
                 && forall j | 0 <= j < i :: !p(s[1..][j]);
        assert s[i + 1] == r.value && forall j | 0 <= j < i + 1 :: !p(s[j]);
        r
      else r
  }

  /** When exactly one element of `s` satisfies `p`, `find` gives that element. */
  lemma FindUnique<T>(s: seq<T>, p: T -> bool, k: nat)
    requires k < |s| && p(s[k])
    requires forall i | 0 <= i < |s| && i != k :: !p(s[i])
    ensures Find(s, p) == Some(s[k])
  {
    var r := Find(s, p);
    var i :| 0 <= i < |s| && s[i] == r.value && p(s[i]) && forall j | 0 <= j < i :: !p(s[j]);
    assert i == k;
  }

  /** `s.filter(p)`: the elements of `s` that satisfy `p`, each as often as in `s`. */
  function Filter<T(!new)>(s: seq<T>, p: T -> bool): (r: seq<T>)
    ensures |r| <= |s|
    ensures forall x :: multiset(r)[x] == if p(x) then multiset(s)[x] else 0
    ensures forall x :: x in r <==> x in s && p(x)
  {
    if s == [] then []
    else
      assert s == [s[0]] + s[1..];
      if p(s[0]) then [s[0]] + Filter(s[1..], p) else Filter(s[1..], p)
  }

  /** `a` is `b` with some elements left out, the rest kept in order. */
  predicate IsSubsequence<T(==)>(a: seq<T>, b: seq<T>)
    decreases |b|
  {
    a == [] || (b != [] && ((a[0] == b[0] && IsSubsequence(a[1..], b[1..])) || IsSubsequence(a, b[1..])))
  }

  /** `filter` keeps the order of what it keeps. */
  lemma {:induction false} FilterIsSubsequence<T(!new)>(s: seq<T>, p: T -> bool)
    ensures IsSubsequence(Filter(s, p), s)
  {
    if s != [] {
      FilterIsSubsequence(s[1..], p);
      var r := Filter(s, p);
      if p(s[0]) {
        assert r[0] == s[0] && r[1..] == Filter(s[1..], p);
      }
    }
  }

  /** `s.slice(0, n)` for `n >= 0`: the first `n` elements, or all of `s` when it is shorter. */
  function Take<T>(s: seq<T>, n: nat): (r: seq<T>)
    ensures |r| <= n && r <= s
    ensures |r| == n || r == s
  {
    if |s| <= n then s else s[..n]
  }
}
