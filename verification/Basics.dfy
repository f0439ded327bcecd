/** Vocabulary shared by every module: results, dates, powers of ten and sums over rows. */
module Basics {

  datatype Option<+T> = None | Some(value: T)

  datatype Error =
    | PermissionDenied | InvalidInput | InvalidAmount | NotFound | ArchivedReference
    | Immutable | AlreadyValidated | PeriodMissing | PeriodClosed
    | IdempotencyRequired | IdempotencyConflict | Overpayment | ConfigurationLocked
    | DatabaseRejected

  datatype Result<+T> = Ok(value: T) | Err(error: Error)

  /** A calendar day; days compare by year, then by day of the year. */
  datatype Date = Date(year: nat, day: nat)

  predicate Leq(a: Date, b: Date) {
    a.year < b.year || (a.year == b.year && a.day <= b.day)
  }

  function Pow10(n: nat): (p: nat)
    ensures p >= 1
  {
    if n == 0 then 1 else 10 * Pow10(n - 1)
  }

  lemma {:induction false} Pow10Add(a: nat, b: nat)
    ensures Pow10(a + b) == Pow10(a) * Pow10(b)
  {
    if a == 0 {
    } else {
      Pow10Add(a - 1, b);
      assert Pow10(a + b) == 10 * Pow10(a - 1 + b);
      MulAssoc(10, Pow10(a - 1), Pow10(b));
    }
  }

  lemma MulAssoc(x: int, y: int, z: int)
    ensures (x * y) * z == x * (y * z)
  {}

  lemma {:induction false} Pow10Mono(a: nat, b: nat)
    requires a <= b
    ensures Pow10(a) <= Pow10(b)
  {
    Pow10Add(a, b - a);
    assert Pow10(a) * Pow10(b - a) >= Pow10(a) * 1;
  }

  /** Sum of a list of amounts. */
  function Sum(xs: seq<int>): int {
    if xs == [] then 0 else Sum(xs[..|xs| - 1]) + xs[|xs| - 1]
  }

  lemma SumAppend(xs: seq<int>, x: int)
    ensures Sum(xs + [x]) == Sum(xs) + x
  {
    assert (xs + [x])[..|xs|] == xs;
  }

  lemma {:induction false} SumUpdate(xs: seq<int>, i: nat, x: int)
    requires i < |xs|
    ensures Sum(xs[i := x]) == Sum(xs) - xs[i] + x
  {
    var n := |xs| - 1;
    if i == n {
      assert xs[i := x][..n] == xs[..n];
    } else {
      SumUpdate(xs[..n], i, x);
      assert xs[i := x][..n] == xs[..n][i := x];
    }
  }

  lemma {:induction false} SumBounds(xs: seq<int>, hi: int)
    requires forall i :: 0 <= i < |xs| ==> 0 <= xs[i] <= hi
    ensures 0 <= Sum(xs) <= |xs| * hi
  {
    if xs == [] {
    } else {
      SumBounds(xs[..|xs| - 1], hi);
      assert |xs| * hi == (|xs| - 1) * hi + hi;
    }
  }

  lemma {:induction false} SumAdd(xs: seq<int>, ys: seq<int>, zs: seq<int>)
    requires |xs| == |ys| == |zs|
    requires forall i :: 0 <= i < |xs| ==> zs[i] == xs[i] + ys[i]
    ensures Sum(zs) == Sum(xs) + Sum(ys)
  {
    if xs != [] {
      var n := |xs| - 1;
      SumAdd(xs[..n], ys[..n], zs[..n]);
    }
  }

  lemma {:induction false} SumMultiple(xs: seq<int>, q: int)
    requires q > 0
    requires forall i :: 0 <= i < |xs| ==> xs[i] % q == 0
    ensures Sum(xs) % q == 0
  {
    if xs != [] {
      SumMultiple(xs[..|xs| - 1], q);
      MultipleAdd(Sum(xs[..|xs| - 1]), xs[|xs| - 1], q);
    }
  }

  lemma MultipleAdd(a: int, b: int, q: int)
    requires q > 0 && a % q == 0 && b % q == 0
    ensures (a + b) % q == 0 && (a - b) % q == 0
  {
    var m, n := a / q, b / q;
    assert a == q * m && b == q * n;
    MultipleOf(m + n, q);
    MultipleOf(m - n, q);
    assert a + b == (m + n) * q;
    assert a - b == (m - n) * q;
  }

  lemma {:induction false} MultipleOf(n: int, q: int)
    requires q > 0
    ensures (n * q) % q == 0
    ensures (n * q) / q == n
  {
    DivUnique(n * q, q, n, 0);
  }

  /** Quotient and remainder are determined by their defining equation. */
  lemma DivUnique(a: int, d: int, q: int, r: int)
    requires d > 0 && a == q * d + r && 0 <= r < d
    ensures a / d == q && a % d == r
  {
    SameQuotient(d, q, r, a / d, a % d);
  }

  lemma SameQuotient(d: int, q: int, r: int, q': int, r': int)
    requires 0 <= r < d && 0 <= r' < d && q * d + r == q' * d + r'
    ensures q == q' && r == r'
  {
    var k := q - q';
    assert k * d == r' - r;
    MultipleGrows(k, d);
  }

  lemma MultipleGrows(k: int, d: int)
    requires d > 0
    ensures k >= 1 ==> k * d >= d
    ensures k <= -1 ==> k * d <= -d
  {
    if k >= 1 {
      assert k * d == (k - 1) * d + d;
    } else if k <= -1 {
      assert k * d == (k + 1) * d - d;
    }
  }
}
