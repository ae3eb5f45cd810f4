/** Option and Result, the two failure-carrying datatypes the model uses
    for JavaScript's `undefined` and for thrown errors, and the small
    arithmetic and array helpers of the JavaScript runtime (`Math.min`,
    `Math.max`, `Math.round` of a quotient, `slice`). */
module Wrappers {

  datatype Option<+T> = None | Some(value: T) {
    function GetOr(default: T): T {
      match this
      case Some(v) => v
      case None => default
    }
  }

  datatype Result<+T, +E> = Ok(value: T) | Err(error: E)

  /** Smaller of two integers. */
  function Min(a: int, b: int): int {
    if a <= b then a else b
  }

  /** Larger of two integers. */
  function Max(a: int, b: int): int {
    if a >= b then a else b
  }

  /** `Array.prototype.slice(0, n)`: a negative end counts from the back. */
  function Slice<T>(s: seq<T>, n: int): (r: seq<T>)
    ensures 0 <= n <= |s| ==> r == s[..n]
    ensures n > |s| ==> r == s
    ensures n < 0 ==> r == s[..Max(0, |s| + n)]
  {
    if n >= |s| then s else if n >= 0 then s[..n] else s[..Max(0, |s| + n)]
  }

  /** `Math.round(n / d)` for d != 0: the nearest integer, halves upward. */
  function RoundDiv(n: int, d: int): (r: int)
    requires d != 0
    ensures 2 * d * r <= 2 * n + d < 2 * d * r + 2 * d || 2 * d * r >= 2 * n + d > 2 * d * r + 2 * d
  {
    if d > 0 then (2 * n + d) / (2 * d) else (-2 * n - d) / (-2 * d)
  }

  /** A rounded percentage of a part of a whole lies in 0..100. */
  lemma PercentBounds(part: int, whole: int)
    requires whole > 0 && 0 <= part <= whole
    ensures 0 <= RoundDiv(100 * part, whole) <= 100
  {
    var n := 2 * (100 * part) + whole;
    var d := 2 * whole;
    var r := RoundDiv(100 * part, whole);
    assert r == n / d;
    assert n == d * r + n % d && 0 <= n % d < d;
    assert d * r <= n < d * r + d;
    assert d * (r + 1) == d * r + d;
    MultiplyCancels(d, r + 1, 0);
    assert n < d * (100 + 1);
    MultiplyCancels(d, 100 + 1, r);
  }

  lemma MultiplyCancels(t: int, a: int, b: int)
    requires t > 0
    ensures t * a <= t * b ==> a <= b
    ensures t * a > t * b ==> a > b
  {
    if a > b {
      assert t * a - t * b == t * (a - b);
    }
  }

  /** The quotient of a Euclidean division is the only one leaving a
      remainder in 0..d-1. */
  lemma DivUnique(n: int, d: int, q: int, rem: int)
    requires d > 0 && 0 <= rem < d && n == d * q + rem
    ensures n / d == q
  {
    var q' := n / d;
    assert n == d * q' + n % d && 0 <= n % d < d;
    if q' < q {
      assert d * (q' + 1) == d * q' + d;
      MultiplyCancels(d, q' + 1, q);
    } else if q' > q {
      MultiplyCancels(d, q + 1, q');
    }
  }

  /** The rounded share of `part` in `total`, in percent (halves round up),
      and 0 when the whole is empty. */
  function RoundedPercent(part: nat, total: nat): int {
    if total > 0 then RoundDiv(100 * part, total) else 0
  }

  /** A part of a whole is a percentage: 0 for nothing, 100 for all. */
  lemma RoundedPercentBounds(part: nat, total: nat)
    requires part <= total
    ensures 0 <= RoundedPercent(part, total) <= 100
    ensures total > 0 && part == total ==> RoundedPercent(part, total) == 100
    ensures part == 0 ==> RoundedPercent(part, total) == 0
  {
    if total > 0 {
      PercentBounds(part, total);
      if part == total {
        assert 2 * (100 * part) + total == (2 * total) * 100 + total;
        DivUnique(2 * (100 * part) + total, 2 * total, 100, total);
      } else if part == 0 {
        DivUnique(total, 2 * total, 0, total);
      }
    }
  }

  /** A larger part never gives a lower percentage. */
  lemma RoundedPercentMonotone(c1: nat, c2: nat, total: nat)
    requires c1 <= c2
    ensures RoundedPercent(c1, total) <= RoundedPercent(c2, total)
  {
    if total > 0 {
      DivMonotone(2 * (100 * c1) + total, 2 * (100 * c2) + total, 2 * total);
    }
  }

  lemma DivMonotone(a: int, b: int, d: int)
    requires a <= b && d > 0
    ensures a / d <= b / d
  {
    if a / d > b / d {
      assert a == d * (a / d) + a % d && b == d * (b / d) + b % d;
      MultiplyCancels(d, b / d + 1, a / d);
    }
  }

  lemma AppendAssoc<T>(a: seq<T>, b: seq<T>, c: seq<T>)
    ensures (a + b) + c == a + (b + c)
  {
  }
}
