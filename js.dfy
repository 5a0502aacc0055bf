/** The few JavaScript built-ins the chat screens rely on, with the meaning
    ECMAScript gives them: `String.prototype.trim`, the `<` order on strings,
    `Array.prototype.sort` without a comparator on a two-element array, and
    `Array.prototype.join`. A JavaScript value that may be `undefined` is an
    `Option`. */
module Js {

  datatype Option<+T> = None | Some(value: T)

  // ---------------------------------------------------------------------------
  // String.prototype.trim

  /** The code points `trim` removes: the WhiteSpace and LineTerminator
      productions of ECMAScript (ECMA-262, 14th edition, 2023), that is
      TAB, VT, FF, ZWNBSP, the space separators (category Zs) and LF, CR, LS, PS. */
  predicate IsTrimmable(c: char) {
    || c == '\t' || c == '\n' || c == '\U{000B}' || c == '\U{000C}' || c == '\r'
    || c == ' ' || c == '\U{00A0}' || c == '\U{1680}'
    || ('\U{2000}' <= c <= '\U{200A}')
    || c == '\U{2028}' || c == '\U{2029}' || c == '\U{202F}' || c == '\U{205F}'
    || c == '\U{3000}' || c == '\U{FEFF}'
  }

  /** `s` without its leading trimmable code points. */
  function TrimStart(s: string): (r: string)
    ensures |r| <= |s| && r == s[|s| - |r|..]
    ensures r == [] || !IsTrimmable(r[0])
    ensures forall i :: 0 <= i < |s| - |r| ==> IsTrimmable(s[i])
  {
    if s != [] && IsTrimmable(s[0]) then TrimStart(s[1..]) else s
  }

  /** `s` without its trailing trimmable code points. */
  function TrimEnd(s: string): (r: string)
    ensures |r| <= |s| && r == s[..|r|]
    ensures r == [] || !IsTrimmable(r[|r| - 1])
    ensures forall i :: |r| <= i < |s| ==> IsTrimmable(s[i])
  {
    if s != [] && IsTrimmable(s[|s| - 1]) then TrimEnd(s[..|s| - 1]) else s
  }

  /** `s.trim()`: the infix of `s` that remains once the leading and the
      trailing trimmable code points are removed; `k` is where it starts. */
  function Trim(s: string): (r: string)
    ensures var k := |s| - |TrimStart(s)|;
            && k + |r| <= |s| && r == s[k..k + |r|]
            && (forall i :: 0 <= i < k ==> IsTrimmable(s[i]))
            && (forall i :: k + |r| <= i < |s| ==> IsTrimmable(s[i]))
    ensures r == [] || (!IsTrimmable(r[0]) && !IsTrimmable(r[|r| - 1]))
  {
    var t := TrimStart(s);
    var r := TrimEnd(t);
    TrimBounds(s, t, r);
    r
  }

  /** Where the two halves of `trim` cut: `t` is a suffix of `s` starting at
      `k`, and `r` is a prefix of `t` whose rest is trimmable; so `r` is the
      infix of `s` at `k` and everything of `s` after it is trimmable. */
  lemma TrimBounds(s: string, t: string, r: string)
    requires |t| <= |s| && t == s[|s| - |t|..]
    requires |r| <= |t| && r == t[..|r|]
    requires forall i :: |r| <= i < |t| ==> IsTrimmable(t[i])
    ensures var k := |s| - |t|;
            && k + |r| <= |s| && r == s[k..k + |r|]
            && (forall i :: k + |r| <= i < |s| ==> IsTrimmable(s[i]))
  {
    var k := |s| - |t|;
    assert s[k..k + |r|] == s[k..][..|r|];
    forall i | k + |r| <= i < |s|
      ensures IsTrimmable(s[i])
    {
      assert s[i] == t[i - k];
    }
  }

  /** `!s.trim()`: the trimmed string is the empty string, which is falsy. */
  predicate IsBlank(s: string) {
    Trim(s) == []
  }

  /** A string is blank exactly when every code point of it is trimmable. */
  lemma BlankIffAllTrimmable(s: string)
    ensures IsBlank(s) <==> forall i :: 0 <= i < |s| ==> IsTrimmable(s[i])
  {
    var t := TrimStart(s);
    assert t != [] ==> t[0] == s[|s| - |t|];
  }

  // ---------------------------------------------------------------------------
  // The order of `<` on strings

  /** `a < b` for two strings (the abstract operation IsLessThan of ECMA-262): a
      proper prefix comes first, otherwise the first differing position decides. */
  predicate LexLess(a: string, b: string) {
    if a == [] then b != []
    else if b == [] then false
    else if a[0] != b[0] then a[0] < b[0]
    else LexLess(a[1..], b[1..])
  }

  lemma {:induction false} LexLessIrreflexive(a: string)
    ensures !LexLess(a, a)
  {
    if a != [] {
      LexLessIrreflexive(a[1..]);
    }
  }

  lemma {:induction false} LexLessAsymmetric(a: string, b: string)
    ensures !(LexLess(a, b) && LexLess(b, a))
  {
    if a != [] && b != [] && a[0] == b[0] {
      LexLessAsymmetric(a[1..], b[1..]);
    }
  }

  /** Two different strings are always ordered one way or the other. */
  lemma {:induction false} LexLessTotal(a: string, b: string)
    requires a != b
    ensures LexLess(a, b) || LexLess(b, a)
  {
    if a != [] && b != [] && a[0] == b[0] {
      assert a == [a[0]] + a[1..];
      assert b == [b[0]] + b[1..];
      LexLessTotal(a[1..], b[1..]);
    }
  }

  /** Strings that differ in their first code point are ordered by it. */
  lemma LexLessAtFirst(a: string, b: string)
    requires a != [] && b != [] && a[0] < b[0]
    ensures LexLess(a, b) && !LexLess(b, a)
  {
  }

  lemma {:induction false} LexLessTransitive(a: string, b: string, c: string)
    requires LexLess(a, b) && LexLess(b, c)
    ensures LexLess(a, c)
  {
    if a != [] && a[0] == b[0] && b[0] == c[0] {
      LexLessTransitive(a[1..], b[1..], c[1..]);
    }
  }

  // ---------------------------------------------------------------------------
  // [x, y].sort() and join

  /** Whether `x` may stand before `y` in the result of a comparator-less
      `sort` (CompareArrayElements in ECMA-262, 14th edition, 2023; SortCompare
      in earlier editions): `undefined` goes
      last, strings go by `<`. */
  predicate InDefaultOrder(x: Option<string>, y: Option<string>) {
    match (x, y)
    case (_, None) => true
    case (None, Some(_)) => false
    case (Some(a), Some(b)) => !LexLess(b, a)
  }

  /** `[x, y].sort()`: swaps exactly when `y` compares before `x`. */
  function SortPair(x: Option<string>, y: Option<string>): (r: seq<Option<string>>)
    ensures |r| == 2 && multiset(r) == multiset{x, y}
    ensures InDefaultOrder(r[0], r[1])
  {
    if x.Some? && y.Some? then
      LexLessAsymmetric(x.value, y.value);
      if LexLess(y.value, x.value) then [y, x] else [x, y]
    else if x.None? && y.Some? then
      [y, x]
    else
      [x, y]
  }

  /** The order in which `sort` leaves two elements is the only arrangement of
      them that is in default order: `SortPair` is the sorted arrangement. */
  lemma SortPairUnique(x: Option<string>, y: Option<string>, r: seq<Option<string>>)
    requires |r| == 2 && multiset(r) == multiset{x, y}
    requires InDefaultOrder(r[0], r[1])
    ensures r == SortPair(x, y)
  {
    assert r[0] in multiset(r) && r[1] in multiset(r);
    assert r == [r[0], r[1]];
    assert multiset{r[0], r[1]} == multiset{x, y};
    if r[0] == y && r[1] == x && x != y {
      if x.Some? && y.Some? {
        LexLessTotal(x.value, y.value);
      }
    }
  }

  /** How `join` renders one element: `undefined` as the empty string. */
  function Rendered(x: Option<string>): string {
    match x
    case None => ""
    case Some(s) => s
  }

  /** `parts.join(sep)`. */
  function Join(parts: seq<Option<string>>, sep: string): string {
    if parts == [] then ""
    else if |parts| == 1 then Rendered(parts[0])
    else Rendered(parts[0]) + sep + Join(parts[1..], sep)
  }

  /** Joining two elements puts the separator between their renderings. */
  lemma JoinPair(x: Option<string>, y: Option<string>, sep: string)
    ensures Join([x, y], sep) == Rendered(x) + sep + Rendered(y)
  {
    assert [x, y][1..] == [y];
  }
}
