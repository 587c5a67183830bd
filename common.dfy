/**
 * Shared vocabulary of the model: optional values, JavaScript truthiness,
 * rounding, ASCII string helpers, code-unit string order, the stable
 * insertion sorts used for `Array.prototype.sort`, and sums over sequences.
 */
module Common {

  datatype Option<T> = None | Some(value: T)

  /** A JavaScript property that is missing (`undefined`), `null`, or set. */
  datatype Maybe<T> = Undefined | Null | Defined(value: T)

  /** JavaScript `a || b` on an optional number: a missing value and 0 are falsy. */
  function OrReal(a: Option<real>, b: real): real {
    if a.Some? && a.value != 0.0 then a.value else b
  }

  /** JavaScript `a || b` on an optional string: a missing value and "" are falsy. */
  function OrText(a: Option<string>, b: string): string {
    if a.Some? && a.value != "" then a.value else b
  }

  /** JavaScript `a ?? b`: only a missing value is replaced. */
  function OrElse<T>(a: Option<T>, b: T): T {
    if a.Some? then a.value else b
  }

  predicate TruthyReal(a: Option<real>) {
    a.Some? && a.value != 0.0
  }

  predicate TruthyText(a: Option<string>) {
    a.Some? && a.value != ""
  }

  function Abs(x: real): real {
    if x < 0.0 then -x else x
  }

  function MaxInt(a: int, b: int): int {
    if a >= b then a else b
  }

  function MinInt(a: int, b: int): int {
    if a <= b then a else b
  }

  function MaxReal(a: real, b: real): real {
    if a >= b then a else b
  }

  function MinReal(a: real, b: real): real {
    if a <= b then a else b
  }

  /** A cost charged `count` times. */
  function Scale(cost: real, count: int): (r: real)
    ensures cost >= 0.0 && count >= 0 ==> r >= 0.0
  {
    cost * count as real
  }

  lemma ScaleMonotone(cost: real, a: int, b: int)
    requires cost >= 0.0 && a <= b
    ensures Scale(cost, a) <= Scale(cost, b)
  {
    assert Scale(cost, b) - Scale(cost, a) == Scale(cost, b - a);
  }

  /** `Math.round`: the nearest integer, halves rounded towards +infinity. */
  function Round(x: real): (r: int)
    ensures x - 0.5 < r as real <= x + 0.5
  {
    (x + 0.5).Floor
  }

  /** Truncation towards zero, as JavaScript's `%` uses it. */
  function Trunc(x: real): int {
    if x >= 0.0 then x.Floor else -((-x).Floor)
  }

  /** JavaScript's `%` on numbers: the remainder takes the sign of the dividend. */
  function JsRem(a: real, b: real): real
    requires b != 0.0
  {
    a - b * (Trunc(a / b) as real)
  }

  /** `Math.ceil(n / d)` for a non-negative count and a positive divisor. */
  function CeilDiv(n: nat, d: nat): nat
    requires d > 0
  {
    (n + d - 1) / d
  }

  /**
   * Text produced by `Number.prototype.toString`, `toFixed` and
   * `toLocaleString` is kept abstract: a rendered string is a sequence of
   * literal text and numbers in the form they are printed.
   */
  datatype Piece =
    | Text(s: string)          // literal text
    | Int(n: int)              // an integer printed by template interpolation
    | Fixed(x: real, digits: nat) // `x.toFixed(digits)`
    | Grouped(g: nat)          // `g.toLocaleString('en-US')`

  type Rendered = seq<Piece>

  // ----- ASCII characters and strings -----

  function LowerChar(c: char): char {
    if 'A' <= c <= 'Z' then (c as int + 32) as char else c
  }

  function UpperChar(c: char): char {
    if 'a' <= c <= 'z' then (c as int - 32) as char else c
  }

  /** `String.prototype.toLowerCase`, restricted to ASCII letters. */
  function Lower(s: string): string {
    seq(|s|, i requires 0 <= i < |s| => LowerChar(s[i]))
  }

  /** `String.prototype.toUpperCase`, restricted to ASCII letters. */
  function Upper(s: string): string {
    seq(|s|, i requires 0 <= i < |s| => UpperChar(s[i]))
  }

  predicate StartsWith(s: string, p: string) {
    |p| <= |s| && s[..|p|] == p
  }

  predicate Contains(s: string, p: string) {
    exists i | 0 <= i <= |s| - |p| :: StartsWith(s[i..], p)
  }

  /** The white space `String.prototype.trim` removes, restricted to ASCII. */
  predicate IsSpace(c: char) {
    c == ' ' || c == '\t' || c == '\n' || c == '\r' || c == '\U{B}' || c == '\U{C}'
  }

  function TrimStart(s: string): (r: string)
    ensures |r| <= |s| && r == s[|s| - |r|..]
    ensures r == [] || !IsSpace(r[0])
    ensures forall i :: 0 <= i < |s| - |r| ==> IsSpace(s[i])
    decreases |s|
  {
    if |s| > 0 && IsSpace(s[0]) then TrimStart(s[1..]) else s
  }

  function TrimEnd(s: string): (r: string)
    ensures |r| <= |s| && r == s[..|r|]
    ensures r == [] || !IsSpace(r[|r| - 1])
    ensures forall i :: |r| <= i < |s| ==> IsSpace(s[i])
    decreases |s|
  {
    if |s| > 0 && IsSpace(s[|s| - 1]) then TrimEnd(s[..|s| - 1]) else s
  }

  /**
   * `String.prototype.trim`: `s` with its leading and trailing white space
   * removed. The result is the slice of `s` starting at `k`, everything before
   * and after it is white space, and it neither starts nor ends with white
   * space, which fixes it uniquely.
   */
  function Trim(s: string): (r: string)
    ensures |r| <= |s|
    ensures BlankAround(s, |s| - |TrimStart(s)|, r)
    ensures r == [] || (!IsSpace(r[0]) && !IsSpace(r[|r| - 1]))
    ensures |s| > 0 && !IsSpace(s[0]) ==> |r| > 0 && r[0] == s[0]
    ensures |s| > 0 && !IsSpace(s[0]) && !IsSpace(s[|s| - 1]) ==> r == s
  {
    var t := TrimStart(s);
    var r := TrimEnd(t);
    TrimmedSlice(s, t, r);
    r
  }

  /** `r` is the slice of `s` at `k`, with only white space before and after it. */
  predicate BlankAround(s: string, k: int, r: string) {
    0 <= k && k + |r| <= |s| && r == s[k..k + |r|] &&
    (forall i :: 0 <= i < k ==> IsSpace(s[i])) &&
    (forall i :: k + |r| <= i < |s| ==> IsSpace(s[i]))
  }

  /**
   * `r`, the end-trimmed `t`, itself the start-trimmed `s`, is the slice of
   * `s` between its leading and its trailing white space.
   */
  lemma TrimmedSlice(s: string, t: string, r: string)
    requires |t| <= |s| && t == s[|s| - |t|..]
    requires t == [] || !IsSpace(t[0])
    requires forall i :: 0 <= i < |s| - |t| ==> IsSpace(s[i])
    requires |r| <= |t| && r == t[..|r|]
    requires r == [] || !IsSpace(r[|r| - 1])
    requires forall i :: |r| <= i < |t| ==> IsSpace(t[i])
    ensures BlankAround(s, |s| - |t|, r)
    ensures r == [] || (!IsSpace(r[0]) && !IsSpace(r[|r| - 1]))
    ensures |s| > 0 && !IsSpace(s[0]) ==> |r| > 0 && r[0] == s[0]
    ensures |s| > 0 && !IsSpace(s[0]) && !IsSpace(s[|s| - 1]) ==> r == s
  {
    PrefixOfSuffix(s, t, r);
    if r != [] {
      assert r[0] == t[0];
    }
    if |s| > 0 && !IsSpace(s[0]) {
      assert t == s;
      assert !IsSpace(t[0]);
    }
  }

  /** A prefix `r` of a suffix `t` of `s`, followed in `t` by white space only. */
  lemma PrefixOfSuffix(s: string, t: string, r: string)
    requires |t| <= |s| && t == s[|s| - |t|..]
    requires |r| <= |t| && r == t[..|r|]
    requires forall i :: |r| <= i < |t| ==> IsSpace(t[i])
    ensures var k := |s| - |t|;
      k + |r| <= |s| && r == s[k..k + |r|] &&
      forall i :: k + |r| <= i < |s| ==> IsSpace(s[i])
  {
    var k := |s| - |t|;
    forall i | k + |r| <= i < |s|
      ensures IsSpace(s[i])
    {
      assert s[i] == t[i - k];
    }
  }

  function DigitChar(d: nat): (c: char)
    requires d < 10
    ensures c as int - '0' as int == d
  {
    "0123456789"[d]
  }

  /** Decimal text of a natural number, as template interpolation prints it. */
  function NatToString(n: nat): string
    decreases n
  {
    if n < 10 then [DigitChar(n)] else NatToString(n / 10) + [DigitChar(n % 10)]
  }

  // ----- string order -----

  /** Lexicographic order on UTF-16 code units (the default `sort` order). */
  predicate LexLe(a: string, b: string)
    decreases |a|
  {
    |a| == 0 || (|b| > 0 && (a[0] < b[0] || (a[0] == b[0] && LexLe(a[1..], b[1..]))))
  }

  lemma {:induction false} LexLeTotal(a: string, b: string)
    ensures LexLe(a, b) || LexLe(b, a)
    decreases |a|
  {
    if |a| > 0 && |b| > 0 && a[0] == b[0] {
      LexLeTotal(a[1..], b[1..]);
    }
  }

  lemma {:induction false} LexLeAntisymmetric(a: string, b: string)
    requires LexLe(a, b) && LexLe(b, a)
    ensures a == b
    decreases |a|
  {
    if |a| > 0 {
      LexLeAntisymmetric(a[1..], b[1..]);
      assert a == [a[0]] + a[1..];
      assert b == [b[0]] + b[1..];
    }
  }

  // ----- stable insertion sort, ascending by a string key -----

  predicate SortedByKey<T>(s: seq<T>, key: T -> string) {
    forall i :: 0 < i < |s| ==> LexLe(key(s[i - 1]), key(s[i]))
  }

  function InsertByKey<T>(x: T, s: seq<T>, key: T -> string): (r: seq<T>)
    requires SortedByKey(s, key)
    ensures SortedByKey(r, key)
    ensures multiset(r) == multiset(s) + multiset{x}
    ensures |r| == |s| + 1
    ensures r[0] == x || (|s| > 0 && r[0] == s[0])
  {
    if s == [] then [x]
    else if LexLe(key(x), key(s[0])) then [x] + s
    else
      LexLeTotal(key(x), key(s[0]));
      assert s == [s[0]] + s[1..];
      [s[0]] + InsertByKey(x, s[1..], key)
  }

  /** `sort` with a comparator on `key`: a sorted permutation of `s`. */
  function SortByKey<T>(s: seq<T>, key: T -> string): (r: seq<T>)
    ensures SortedByKey(r, key)
    ensures multiset(r) == multiset(s)
    ensures |r| == |s|
  {
    if s == [] then []
    else
      assert s == [s[0]] + s[1..];
      InsertByKey(s[0], SortByKey(s[1..], key), key)
  }

  // ----- stable insertion sort, descending by a number -----

  predicate SortedDesc<T>(s: seq<T>, key: T -> real) {
    forall i :: 0 < i < |s| ==> key(s[i - 1]) >= key(s[i])
  }

  function InsertDesc<T>(x: T, s: seq<T>, key: T -> real): (r: seq<T>)
    requires SortedDesc(s, key)
    ensures SortedDesc(r, key)
    ensures multiset(r) == multiset(s) + multiset{x}
    ensures |r| == |s| + 1
    ensures r[0] == x || (|s| > 0 && r[0] == s[0])
  {
    if s == [] then [x]
    else if key(x) >= key(s[0]) then [x] + s
    else
      assert s == [s[0]] + s[1..];
      [s[0]] + InsertDesc(x, s[1..], key)
  }

  /** `sort((a, b) => key(b) - key(a))`: a permutation of `s`, largest key first. */
  function SortDesc<T>(s: seq<T>, key: T -> real): (r: seq<T>)
    ensures SortedDesc(r, key)
    ensures multiset(r) == multiset(s)
    ensures |r| == |s|
  {
    if s == [] then []
    else
      assert s == [s[0]] + s[1..];
      InsertDesc(s[0], SortDesc(s[1..], key), key)
  }

  // ----- filtering -----

  /** `s.filter(p)`: the elements satisfying `p`, in their original order. */
  function Filter<T>(s: seq<T>, p: T -> bool): (r: seq<T>)
    ensures |r| <= |s|
    ensures forall x :: x in r ==> x in s && p(x)
    ensures forall x :: x in s && p(x) ==> x in r
    ensures multiset(r) <= multiset(s)
    ensures forall x :: x in s ==> multiset(r)[x] == if p(x) then multiset(s)[x] else 0
  {
    if s == [] then []
    else
      assert s == [s[0]] + s[1..];
      (if p(s[0]) then [s[0]] else []) + Filter(s[1..], p)
  }

  /**
   * `Filter` keeps the original order: filtering a concatenation is the
   * concatenation of the filtered parts.
   */
  lemma {:induction false} FilterAppend<T>(a: seq<T>, b: seq<T>, p: T -> bool)
    ensures Filter(a + b, p) == Filter(a, p) + Filter(b, p)
  {
    if a == [] {
      assert a + b == b;
    } else {
      var head := if p(a[0]) then [a[0]] else [];
      assert (a + b)[0] == a[0] && (a + b)[1..] == a[1..] + b;
      assert Filter(a + b, p) == head + Filter(a[1..] + b, p);
      FilterAppend(a[1..], b, p);
      assert Filter(a, p) == head + Filter(a[1..], p);
      ConcatAssociative(head, Filter(a[1..], p), Filter(b, p));
    }
  }

  lemma ConcatAssociative<T>(a: seq<T>, b: seq<T>, c: seq<T>)
    ensures a + (b + c) == (a + b) + c
  {
  }

  /** A single element is kept exactly when it satisfies `p`. */
  lemma FilterSingleton<T>(x: T, p: T -> bool)
    ensures Filter([x], p) == if p(x) then [x] else []
  {
    assert [x][1..] == [];
  }

  // ----- sums -----

  /** `s.reduce((sum, x) => sum + f(x), 0)`. */
  function SumOf<T>(s: seq<T>, f: T -> real): real {
    if s == [] then 0.0 else f(s[0]) + SumOf(s[1..], f)
  }

  lemma {:induction false} SumOfAppend<T>(a: seq<T>, b: seq<T>, f: T -> real)
    ensures SumOf(a + b, f) == SumOf(a, f) + SumOf(b, f)
  {
    if a == [] {
      assert a + b == b;
    } else {
      assert (a + b)[1..] == a[1..] + b;
      SumOfAppend(a[1..], b, f);
    }
  }

  /** Taking one term out of a sum. */
  lemma {:induction false} SumOfRemove<T>(b: seq<T>, k: int, f: T -> real)
    requires 0 <= k < |b|
    ensures SumOf(b, f) == f(b[k]) + SumOf(b[..k] + b[k + 1..], f)
  {
    var front, back := b[..k], b[k + 1..];
    var tail := [b[k]] + back;
    assert b == front + tail;
    SumOfAppend(front, tail, f);
    assert tail[1..] == back;
    assert SumOf(tail, f) == f(b[k]) + SumOf(back, f);
    SumOfAppend(front, back, f);
  }

  lemma MultisetRemove<T>(b: seq<T>, k: int)
    requires 0 <= k < |b|
    ensures multiset(b[..k] + b[k + 1..]) == multiset(b) - multiset{b[k]}
  {
    assert b == b[..k] + [b[k]] + b[k + 1..];
  }

  /** A sum does not depend on the order of its terms. */
  lemma {:induction false} SumOfPermutation<T>(a: seq<T>, b: seq<T>, f: T -> real)
    requires multiset(a) == multiset(b)
    ensures SumOf(a, f) == SumOf(b, f)
    decreases |a|
  {
    if a == [] {
      assert |b| == |multiset(b)| == 0;
    } else {
      var x := a[0];
      assert x in multiset(b);
      var k :| 0 <= k < |b| && b[k] == x;
      MultisetRemove(b, k);
      assert a == [x] + a[1..];
      assert multiset(a[1..]) == multiset(a) - multiset{x};
      SumOfPermutation(a[1..], b[..k] + b[k + 1..], f);
      SumOfRemove(b, k, f);
    }
  }

  /** One step of `Filter`, on multisets. */
  lemma FilterConsKept<T>(s: seq<T>, p: T -> bool)
    requires s != [] && p(s[0])
    ensures multiset(Filter(s, p)) == multiset{s[0]} + multiset(Filter(s[1..], p))
  {
  }

  lemma FilterConsDropped<T>(s: seq<T>, p: T -> bool)
    requires s != [] && !p(s[0])
    ensures Filter(s, p) == Filter(s[1..], p)
  {
  }

  // Multiset bookkeeping for `FilterPartition3`.
  lemma AddFirst<T>(x: T, a: multiset<T>, b: multiset<T>, c: multiset<T>, d: multiset<T>)
    requires a + b + c == d
    ensures (multiset{x} + a) + b + c == multiset{x} + d
  {
  }
  lemma AddSecond<T>(x: T, a: multiset<T>, b: multiset<T>, c: multiset<T>, d: multiset<T>)
    requires a + b + c == d
    ensures a + (multiset{x} + b) + c == multiset{x} + d
  {
  }
  lemma AddThird<T>(x: T, a: multiset<T>, b: multiset<T>, c: multiset<T>, d: multiset<T>)
    requires a + b + c == d
    ensures a + b + (multiset{x} + c) == multiset{x} + d
  {
  }
  /**
   * Three filters whose predicates are pairwise exclusive and together make
   * up `q` split `Filter(s, q)` exactly, multiplicities included.
   */
  lemma {:induction false} FilterPartition3<T>(s: seq<T>, p1: T -> bool, p2: T -> bool, p3: T -> bool, q: T -> bool)
    requires forall x :: q(x) == (p1(x) || p2(x) || p3(x))
    requires forall x :: !(p1(x) && p2(x)) && !(p1(x) && p3(x)) && !(p2(x) && p3(x))
    ensures multiset(Filter(s, p1)) + multiset(Filter(s, p2)) + multiset(Filter(s, p3)) == multiset(Filter(s, q))
  {
    if s != [] {
      var x, r := s[0], s[1..];
      FilterPartition3(r, p1, p2, p3, q);
      var a, b, c, d := multiset(Filter(r, p1)), multiset(Filter(r, p2)), multiset(Filter(r, p3)), multiset(Filter(r, q));
      if p1(x) {
        FilterConsKept(s, p1); FilterConsDropped(s, p2); FilterConsDropped(s, p3); FilterConsKept(s, q);
        AddFirst(x, a, b, c, d);
      } else if p2(x) {
        FilterConsDropped(s, p1); FilterConsKept(s, p2); FilterConsDropped(s, p3); FilterConsKept(s, q);
        AddSecond(x, a, b, c, d);
      } else if p3(x) {
        FilterConsDropped(s, p1); FilterConsDropped(s, p2); FilterConsKept(s, p3); FilterConsKept(s, q);
        AddThird(x, a, b, c, d);
      } else {
        FilterConsDropped(s, p1); FilterConsDropped(s, p2); FilterConsDropped(s, p3); FilterConsDropped(s, q);
      }
    }
  }
}
