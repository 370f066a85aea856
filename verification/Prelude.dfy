/** Option and Result, and the one summation the counting arguments use. */
module Prelude {

  datatype Option<+T> = None | Some(value: T)

  datatype Result<+T, +E> = Ok(value: T) | Err(error: E)

  function Min(a: int, b: int): int { if a < b then a else b }

  /** Total weight of a sequence. */
  function Sum<T>(s: seq<T>, weight: T -> nat): nat {
    if s == [] then 0 else weight(s[0]) + Sum(s[1..], weight)
  }

  lemma {:induction false} SumAppend<T>(a: seq<T>, b: seq<T>, weight: T -> nat)
    ensures Sum(a + b, weight) == Sum(a, weight) + Sum(b, weight)
  {
    if a == [] {
      assert a + b == b;
    } else {
      assert (a + b)[1..] == a[1..] + b;
      SumAppend(a[1..], b, weight);
    }
  }

  lemma {:induction false} SumUpdate<T>(s: seq<T>, i: nat, x: T, weight: T -> nat)
    requires i < |s|
    ensures Sum(s[i := x], weight) + weight(s[i]) == Sum(s, weight) + weight(x)
  {
    if i == 0 {
      assert s[0 := x][1..] == s[1..];
    } else {
      assert s[i := x][1..] == s[1..][i - 1 := x];
      SumUpdate(s[1..], i - 1, x, weight);
    }
  }

  lemma {:induction false} SumAtLeast<T>(s: seq<T>, i: nat, weight: T -> nat)
    requires i < |s|
    ensures weight(s[i]) <= Sum(s, weight)
  {
    if i == 0 {
    } else {
      SumAtLeast(s[1..], i - 1, weight);
    }
  }

  lemma {:induction false} SumZero<T>(s: seq<T>, weight: T -> nat)
    requires forall x :: x in s ==> weight(x) == 0
    ensures Sum(s, weight) == 0
  {
    if s == [] {
    } else {
      SumZero(s[1..], weight);
    }
  }

  lemma {:induction false} SumSame<T>(s: seq<T>, t: seq<T>, weight: T -> nat)
    requires |s| == |t|
    requires forall i :: 0 <= i < |s| ==> weight(s[i]) == weight(t[i])
    ensures Sum(s, weight) == Sum(t, weight)
  {
    if s == [] {
    } else {
      forall i | 0 <= i < |s[1..]| ensures weight(s[1..][i]) == weight(t[1..][i]) {
        assert s[1..][i] == s[i + 1] && t[1..][i] == t[i + 1];
      }
      SumSame(s[1..], t[1..], weight);
    }
  }

  lemma {:induction false} SumBounded<T>(s: seq<T>, weight: T -> nat, bound: nat)
    requires forall x :: x in s ==> weight(x) <= bound
    ensures Sum(s, weight) <= bound * |s|
  {
    if s == [] {
    } else {
      SumBounded(s[1..], weight, bound);
    }
  }

  lemma SumSnoc<T>(s: seq<T>, n: nat, weight: T -> nat)
    requires n < |s|
    ensures Sum(s[..n + 1], weight) == Sum(s[..n], weight) + weight(s[n])
  {
    SumAppend(s[..n], [s[n]], weight);
    assert s[..n + 1] == s[..n] + [s[n]] && [s[n]][1..] == [];
  }

  /** What is left at the end is bounded by what was left at the start and gained on the way, less what was spent. */
  lemma {:induction false} Telescope<T>(s: seq<T>, left: nat -> nat, spent: T -> nat, gained: T -> nat)
    requires forall n :: 0 <= n < |s| ==> left(n + 1) + spent(s[n]) <= left(n) + gained(s[n])
    ensures Sum(s, spent) + left(|s|) <= left(0) + Sum(s, gained)
  {
    if s == [] {
    } else {
      var n := |s| - 1;
      Telescope(s[..n], left, spent, gained);
      assert left(n + 1) + spent(s[n]) <= left(n) + gained(s[n]) && s[..n + 1] == s;
      SumSnoc(s, n, spent);
      SumSnoc(s, n, gained);
    }
  }

  // ----- division -----

  lemma MulMonotone(a: int, b: int, d: int)
    requires a <= b && d >= 0
    ensures a * d <= b * d
  {
    assert (b - a) * d >= 0;
  }

  lemma DivideBetween(n: int, d: int, q: int)
    requires d >= 1 && q * d <= n < q * d + d
    ensures n / d == q
  {
    var e := n / d;
    assert n == e * d + n % d && e * d <= n < e * d + d;
    if e < q { MulMonotone(e + 1, q, d); }
    if e > q { MulMonotone(q + 1, e, d); }
  }

  lemma ScaleBounds(v: int, a: nat, b: nat, q: int, p: int)
    requires q * a <= v < q * a + a && p * b <= q && q + 1 <= p * b + b
    ensures p * (a * b) <= v < p * (a * b) + a * b
  {
    MulMonotone(p * b, q, a);
    MulMonotone(q + 1, p * b + b, a);
    Distribute(p, a, b);
    assert (q + 1) * a == q * a + a;
  }

  lemma Distribute(p: int, a: nat, b: nat)
    ensures (p * b) * a == p * (a * b) && (p * b + b) * a == p * (a * b) + a * b
  {
  }

  lemma DivideTwice(v: nat, a: nat, b: nat)
    requires a >= 1 && b >= 1
    ensures a * b >= 1 && v / a / b == v / (a * b)
  {
    var q := v / a;
    var p := q / b;
    QuotientBounds(v, a);
    QuotientBounds(q, b);
    ScaleBounds(v, a, b, q, p);
    MulMonotone(1, b, a);
    DivideBetween(v, a * b, p);
  }

  lemma QuotientBounds(n: nat, d: nat)
    requires d >= 1
    ensures n / d * d <= n < n / d * d + d
  {
  }
}
