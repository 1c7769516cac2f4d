/** Exact arithmetic shared by every module: Python's `round`, and sums over sequences. */
module Numbers {

  type PosReal = r: real | r > 0.0 witness 1.0
  type NonNegReal = r: real | r >= 0.0 witness 0.0
  type PosNat = n: nat | n > 0 witness 1

  datatype Option<+T> = None | Some(value: T)

  function AbsInt(x: int): (r: nat) {
    if x < 0 then -x else x
  }

  function MinInt(x: int, y: int): (r: int) {
    if x <= y then x else y
  }

  function MinReal(x: real, y: real): (r: real) {
    if x <= y then x else y
  }

  function MaxReal(x: real, y: real): (r: real) {
    if x >= y then x else y
  }

  /** Rounding to an integer, halves to the even neighbour (Python's rule). */
  function RoundHalfEven(x: real): (r: int)
    ensures x - 0.5 <= r as real <= x + 0.5
  {
    var f := x.Floor;
    var d := x - f as real;
    if d < 0.5 || (d == 0.5 && f % 2 == 0) then f else f + 1
  }

  /** `round(x, 4)` over exact arithmetic. */
  function Round4(x: real): (r: real)
    ensures x - 0.00005 <= r <= x + 0.00005
  {
    RoundHalfEven(x * 10000.0) as real / 10000.0
  }

  /** Prices with at most four decimals. */
  predicate OnGrid(x: real) {
    (x * 10000.0).Floor as real == x * 10000.0
  }

  lemma Round4Grid(x: real)
    requires OnGrid(x)
    ensures Round4(x) == x
  {
  }

  lemma Round4Monotone(x: real, y: real)
    requires x <= y
    ensures Round4(x) <= Round4(y)
  {
    var a, b := x * 10000.0, y * 10000.0;
    assert a.Floor <= b.Floor;
    assert RoundHalfEven(a) <= RoundHalfEven(b);
  }

  lemma MulNonNegative(x: real, y: real)
    requires x >= 0.0 && y >= 0.0
    ensures x * y >= 0.0
  {
  }

  lemma MulPositive(x: real, y: real)
    requires x > 0.0 && y > 0.0
    ensures x * y > 0.0
  {
  }

  lemma MulMonotone(x: real, y: real, k: real)
    requires x <= y && k >= 0.0
    ensures x * k <= y * k
  {
    MulNonNegative(y - x, k);
    assert (y - x) * k == y * k - x * k;
  }

  lemma ModOfSum(x: int, k: int, n: PosNat)
    ensures (x + n * k) % n == x % n
  {
    var q := x / n;
    assert x + n * k == n * (q + k) + x % n;
    QuotientIsUnique(x + n * k, n, q + k, x % n);
  }

  lemma MulAtLeast(n: PosNat, d: int)
    ensures (d >= 1 ==> n * d >= n) && (d <= -1 ==> n * d <= -(n as int))
  {
  }

  lemma QuotientIsUnique(x: int, n: PosNat, q: int, r: int)
    requires x == n * q + r && 0 <= r < n
    ensures x / n == q && x % n == r
  {
    var d := x / n - q;
    assert n * (x / n) + x % n == n * q + r;
    assert n * d == r - x % n;
    MulAtLeast(n, d);
  }

  // ---------------------------------------------------------------- sums

  function SumBy<T>(s: seq<T>, f: T -> real): (r: real) {
    if |s| == 0 then 0.0 else SumBy(s[..|s| - 1], f) + f(s[|s| - 1])
  }

  function CountBy<T>(s: seq<T>, f: T -> int): (r: int) {
    if |s| == 0 then 0 else CountBy(s[..|s| - 1], f) + f(s[|s| - 1])
  }

  lemma SumAppend<T>(s: seq<T>, x: T, f: T -> real)
    ensures SumBy(s + [x], f) == SumBy(s, f) + f(x)
  {
    assert (s + [x])[..|s|] == s;
  }

  lemma {:induction false} SumConcat<T>(s: seq<T>, t: seq<T>, f: T -> real)
    ensures SumBy(s + t, f) == SumBy(s, f) + SumBy(t, f)
  {
    if |t| == 0 {
      assert s + t == s;
    } else {
      var init, last := t[..|t| - 1], t[|t| - 1];
      SumConcat(s, init, f);
      assert s + t == (s + init) + [last];
      SumAppend(s + init, last, f);
    }
  }

  lemma {:induction false} SumUpdate<T>(s: seq<T>, i: nat, x: T, f: T -> real)
    requires i < |s|
    ensures SumBy(s[i := x], f) == SumBy(s, f) - f(s[i]) + f(x)
  {
    var n := |s| - 1;
    if i == n {
      assert s[i := x][..n] == s[..n];
    } else {
      SumUpdate(s[..n], i, x, f);
      assert s[i := x][..n] == s[..n][i := x];
    }
  }

  lemma {:induction false} SumSame<T>(s: seq<T>, f: T -> real, g: T -> real)
    requires forall x :: x in s ==> f(x) == g(x)
    ensures SumBy(s, f) == SumBy(s, g)
  {
    if |s| > 0 {
      SumSame(s[..|s| - 1], f, g);
    }
  }

  lemma {:induction false} SumOfSums<T>(s: seq<T>, f: T -> real, g: T -> real, h: T -> real)
    requires forall x :: x in s ==> h(x) == f(x) + g(x)
    ensures SumBy(s, h) == SumBy(s, f) + SumBy(s, g)
  {
    if |s| > 0 {
      SumOfSums(s[..|s| - 1], f, g, h);
    }
  }

  /** A sum depends only on which elements occur and how often. */
  lemma {:induction false} SumPermutation<T>(s: seq<T>, t: seq<T>, f: T -> real)
    requires multiset(s) == multiset(t)
    ensures SumBy(s, f) == SumBy(t, f)
    decreases |s|
  {
    assert |s| == |multiset(s)| == |multiset(t)| == |t|;
    if |s| > 0 {
      var n := |s| - 1;
      var x := s[n];
      assert x in multiset(t);
      var i :| 0 <= i < |t| && t[i] == x;
      var u := t[..i] + t[i + 1..];
      assert s == s[..n] + [x];
      assert t == t[..i] + [x] + t[i + 1..];
      assert multiset(s[..n]) == multiset(s) - multiset{x};
      assert multiset(u) == multiset(t) - multiset{x};
      SumPermutation(s[..n], u, f);
      SumConcat(t[..i], t[i + 1..], f);
      SumAppend(t[..i], x, f);
      SumConcat(t[..i] + [x], t[i + 1..], f);
    }
  }

  lemma CountAppend<T>(s: seq<T>, x: T, f: T -> int)
    ensures CountBy(s + [x], f) == CountBy(s, f) + f(x)
  {
    assert (s + [x])[..|s|] == s;
  }

  lemma {:induction false} CountConcat<T>(s: seq<T>, t: seq<T>, f: T -> int)
    ensures CountBy(s + t, f) == CountBy(s, f) + CountBy(t, f)
  {
    if |t| == 0 {
      assert s + t == s;
    } else {
      var n := |t| - 1;
      CountConcat(s, t[..n], f);
      assert (s + t)[..|s| + n] == s + t[..n];
    }
  }

  lemma {:induction false} CountUpdate<T>(s: seq<T>, i: nat, x: T, f: T -> int)
    requires i < |s|
    ensures CountBy(s[i := x], f) == CountBy(s, f) - f(s[i]) + f(x)
  {
    var n := |s| - 1;
    if i == n {
      assert s[i := x][..n] == s[..n];
    } else {
      CountUpdate(s[..n], i, x, f);
      assert s[i := x][..n] == s[..n][i := x];
    }
  }

  lemma {:induction false} CountNonNegative<T>(s: seq<T>, f: T -> int)
    requires forall x :: x in s ==> f(x) >= 0
    ensures CountBy(s, f) >= 0
  {
    if |s| > 0 {
      CountNonNegative(s[..|s| - 1], f);
    }
  }

  /** A count of things that each count for nothing or more is zero when none of them counts. */
  lemma {:induction false} CountIsZero<T>(s: seq<T>, f: T -> int)
    requires forall x :: x in s ==> f(x) >= 0
    ensures CountBy(s, f) == 0 <==> forall x :: x in s ==> f(x) == 0
  {
    if |s| > 0 {
      var n := |s| - 1;
      CountIsZero(s[..n], f);
      CountNonNegative(s[..n], f);
      assert s == s[..n] + [s[n]] && s[n] in s;
    }
  }
}
