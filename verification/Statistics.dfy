/** The statistics behind a suite comparison, over the reals: score interval and percentiles. */
module Statistics {
  // ---------- Wilson score interval ----------

  const Z: real := 1.959963984540054

  function MaxReal(a: real, b: real): real { if a >= b then a else b }
  function MinReal(a: real, b: real): real { if a <= b then a else b }

  /** What the interval takes the square root of. */
  function Radicand(successes: nat, total: nat): real
    requires 0 < total
  {
    var p, n := successes as real / total as real, total as real;
    p * (1.0 - p) / n + Z * Z / (4.0 * n * n)
  }

  /** `root` stands for `math.sqrt` of `x`: the non-negative real whose square is `x`. */
  predicate IsRoot(root: real, x: real) {
    root >= 0.0 && root * root == x
  }

  function Centre(successes: nat, total: nat): real
    requires 0 < total
  {
    var p, n := successes as real / total as real, total as real;
    (p + Z * Z / (2.0 * n)) / (1.0 + Z * Z / n)
  }

  function Radius(total: nat, root: real): real
    requires 0 < total
  {
    Z * root / (1.0 + Z * Z / total as real)
  }

  function WilsonInterval(successes: nat, total: nat, root: real): (real, real) {
    if total == 0 then (0.0, 1.0)
    else (MaxReal(0.0, Centre(successes, total) - Radius(total, root)),
          MinReal(1.0, Centre(successes, total) + Radius(total, root)))
  }

  // Arithmetic facts, one small product or quotient at a time.

  lemma ProductPositive(x: real, y: real)
    requires x > 0.0 && y > 0.0
    ensures x * y > 0.0
  {
  }

  lemma ProductNonNegative(x: real, y: real)
    requires x >= 0.0 && y >= 0.0
    ensures x * y >= 0.0
  {
  }

  lemma DifferenceOfSquares(x: real, y: real)
    ensures (x - y) * (x + y) == x * x - y * y
  {
  }

  lemma SquareLe(x: real, y: real)
    requires y >= 0.0 && x * x <= y * y
    ensures x <= y
  {
    DifferenceOfSquares(x, y);
    if x > y {
      ProductPositive(x - y, x + y);
    }
  }

  lemma CancelFactor(x: real, y: real, n: real)
    requires n != 0.0 && x * n == y * n
    ensures x == y
  {
    assert (x - y) * n == 0.0;
  }

  lemma Quotient(x: real, n: real)
    requires n != 0.0
    ensures x / n * n == x
  {
  }

  lemma DivIsMul(x: real, n: real)
    requires n != 0.0
    ensures x / n == x * (1.0 / n)
  {
    Quotient(x, n);
    Quotient(1.0, n);
    assert x * (1.0 / n) * n == x * (1.0 / n * n);
    CancelFactor(x / n, x * (1.0 / n), n);
  }

  lemma ExpandUpper(p: real, a: real)
    ensures (p + a / 2.0) * (p + a / 2.0) == a * (p * (1.0 - p)) + a * a / 4.0 + (p * p + a * (p * p))
  {
  }

  lemma ExpandMiddle(p: real, a: real)
    ensures (a / 2.0 - a * p) * (a / 2.0 - a * p) == a * a / 4.0 - (a * a) * (p * (1.0 - p))
  {
    var x, y := a / 2.0, a * p;
    assert (x - y) * (x - y) == x * x - 2.0 * (x * y) + y * y;
    assert x * x == a * a / 4.0;
    assert 2.0 * (x * y) == (a * a) * p;
    assert y * y == (a * a) * (p * p);
    assert (a * a) * (p * (1.0 - p)) == (a * a) * p - (a * a) * (p * p);
  }

  lemma TopBound(p: real, a: real, t: real)
    requires 0.0 <= p && a > 0.0
    requires t * t == a * (p * (1.0 - p)) + a * a / 4.0
    ensures t <= p + a / 2.0
  {
    ExpandUpper(p, a);
    ProductNonNegative(p, p);
    ProductNonNegative(a, p * p);
    SquareLe(t, p + a / 2.0);
  }

  lemma MiddleBound(p: real, a: real, t: real)
    requires 0.0 <= p <= 1.0 && a > 0.0 && t >= 0.0
    requires t * t == a * (p * (1.0 - p)) + a * a / 4.0
    ensures a / 2.0 - a * p <= t && a * p - a / 2.0 <= t
  {
    ExpandMiddle(p, a);
    ProductNonNegative(p, 1.0 - p);
    ProductNonNegative(a, p * (1.0 - p));
    ProductNonNegative(a, a);
    ProductNonNegative(a * a, p * (1.0 - p));
    var h := a / 2.0 - a * p;
    SquareLe(h, t);
    assert (-h) * (-h) == h * h;
    SquareLe(-h, t);
  }

  lemma DivLe(x: real, y: real, d: real)
    requires d > 0.0 && x <= y
    ensures x / d <= y / d
  {
    Quotient(x, d);
    Quotient(y, d);
    var u, v := x / d, y / d;
    if u > v {
      ProductPositive(u - v, d);
    }
  }

  lemma DivBounds(x: real, lo: real, hi: real, d: real)
    requires d > 0.0 && lo * d <= x <= hi * d
    ensures lo <= x / d <= hi
  {
    Quotient(x, d);
    var q := x / d;
    if q < lo {
      ProductPositive(lo - q, d);
    }
    if q > hi {
      ProductPositive(q - hi, d);
    }
  }

  lemma RootUnique(a: real, b: real, x: real)
    requires IsRoot(a, x) && IsRoot(b, x)
    ensures a == b
  {
    SquareLe(a, b);
    SquareLe(b, a);
  }

  lemma ScaledRadicand(zz: real, q: real, n: real)
    requires n > 0.0
    ensures zz * (q / n + zz / (4.0 * n * n)) == (zz / n) * q + (zz / n) * (zz / n) / 4.0
  {
    var inv := 1.0 / n;
    Quotient(1.0, n);
    DivIsMul(q, n);
    DivIsMul(zz, n);
    var m, w := 4.0 * n * n, zz * inv * inv / 4.0;
    Quotient(zz, m);
    assert (inv * n) * (inv * n) == 1.0;
    assert w * m == zz * ((inv * n) * (inv * n));
    CancelFactor(zz / m, w, m);
    assert zz * (q * inv + w) == (zz * inv) * q + (zz * inv) * (zz * inv) / 4.0;
  }

  lemma HalfQuotient(x: real, n: real)
    requires n > 0.0
    ensures x / (2.0 * n) == x / n / 2.0
  {
    Quotient(x, n);
    Quotient(x, 2.0 * n);
    CancelFactor(x / (2.0 * n), x / n / 2.0, 2.0 * n);
  }

  /** The Wilson quantities over a common denominator 1 + a, with a = z^2/n and t = z root. */
  lemma Scaled(successes: nat, total: nat, root: real) returns (p: real, a: real, t: real)
    requires 0 < total && successes <= total && IsRoot(root, Radicand(successes, total))
    ensures p == successes as real / total as real && 0.0 <= p <= 1.0
    ensures a == Z * Z / total as real && a > 0.0 && t == Z * root && t >= 0.0
    ensures t * t == a * (p * (1.0 - p)) + a * a / 4.0
    ensures Centre(successes, total) == (p + a / 2.0) / (1.0 + a) && Radius(total, root) == t / (1.0 + a)
  {
    var n, zz := total as real, Z * Z;
    p, a, t := successes as real / n, zz / n, Z * root;
    Quotient(n, n);
    DivLe(0.0, successes as real, n);
    DivLe(successes as real, n, n);
    DivLe(0.0, zz, n);
    Quotient(zz, n);
    ScaledRadicand(zz, p * (1.0 - p), n);
    assert t * t == zz * (root * root);
    HalfQuotient(zz, n);
  }

  lemma DivSum(x: real, y: real, d: real)
    requires d > 0.0
    ensures x / d + y / d == (x + y) / d && x / d - y / d == (x - y) / d
  {
    DivIsMul(x, d);
    DivIsMul(y, d);
    DivIsMul(x + y, d);
    DivIsMul(x - y, d);
  }

  /** An interval centred at (p + a/2)/(1 + a) with half-width t/(1 + a) stays in [0, 1] around p. */
  lemma ScaledInterval(p: real, a: real, t: real)
    requires 0.0 <= p <= 1.0 && a > 0.0 && t >= 0.0
    requires t * t == a * (p * (1.0 - p)) + a * a / 4.0
    ensures var d := 1.0 + a; 0.0 <= (p + a / 2.0 - t) / d <= p <= (p + a / 2.0 + t) / d <= 1.0
  {
    var d := 1.0 + a;
    TopBound(p, a, t);
    assert a * ((1.0 - p) * (1.0 - (1.0 - p))) == a * (p * (1.0 - p));
    TopBound(1.0 - p, a, t);
    MiddleBound(p, a, t);
    assert p * d == p + a * p;
    DivBounds(p + a / 2.0 - t, 0.0, p, d);
    DivBounds(p + a / 2.0 + t, p, 1.0, d);
  }

  /** The 95% interval lies in [0, 1] and around the observed rate, and neither clamp ever
      changes a value. */
  lemma WilsonBounds(successes: nat, total: nat, root: real)
    requires 0 < total && successes <= total && IsRoot(root, Radicand(successes, total))
    ensures var (low, high) := WilsonInterval(successes, total, root);
      && 0.0 <= low <= successes as real / total as real <= high <= 1.0
      && low == Centre(successes, total) - Radius(total, root)
      && high == Centre(successes, total) + Radius(total, root)
  {
    var p, a, t := Scaled(successes, total, root);
    DivSum(p + a / 2.0, t, 1.0 + a);
    ScaledInterval(p, a, t);
  }

  // The interval as the inversion of the score test.

  lemma ProductOfRoots(p: real, a: real, t: real, l: real, h: real)
    requires a > 0.0 && t * t == a * (p * (1.0 - p)) + a * a / 4.0
    requires l * (1.0 + a) == p + a / 2.0 - t && h * (1.0 + a) == p + a / 2.0 + t
    ensures (1.0 + a) * (l * h) == p * p
  {
    var d, e := 1.0 + a, p + a / 2.0;
    ExpandUpper(p, a);
    DifferenceOfSquares(e, t);
    assert (1.0 + a) * (p * p) == p * p + a * (p * p);
    assert (l * d) * (h * d) == d * (l * h) * d;
    CancelFactor(d * (l * h), p * p, d);
  }

  lemma Factored(x: real, l: real, h: real, d: real)
    ensures d * ((x - l) * (x - h)) == d * (x * x) - (l * d + h * d) * x + d * (l * h)
  {
    assert (x - l) * (x - h) == x * x - l * x - h * x + l * h;
    assert (l * d + h * d) * x == d * (l * x) + d * (h * x);
  }

  lemma ScoreFactors(p: real, a: real, t: real, l: real, h: real, x: real)
    requires a > 0.0 && t * t == a * (p * (1.0 - p)) + a * a / 4.0
    requires l * (1.0 + a) == p + a / 2.0 - t && h * (1.0 + a) == p + a / 2.0 + t
    ensures (x - p) * (x - p) - a * (x * (1.0 - x)) == (1.0 + a) * ((x - l) * (x - h))
  {
    ProductOfRoots(p, a, t, l, h);
    Factored(x, l, h, 1.0 + a);
    assert l * (1.0 + a) + h * (1.0 + a) == 2.0 * p + a;
    assert (2.0 * p + a) * x == 2.0 * (p * x) + a * x;
    assert a * (x * (1.0 - x)) == a * x - a * (x * x);
    assert (x - p) * (x - p) == x * x - 2.0 * (p * x) + p * p;
    assert (1.0 + a) * (x * x) == x * x + a * (x * x);
  }

  lemma SignOfProduct(u: real, v: real, d: real)
    requires d > 0.0 && v <= u
    ensures v <= 0.0 <= u <==> d * (u * v) <= 0.0
  {
    var w := u * v;
    if v <= 0.0 <= u {
      ProductNonNegative(u, -v);
      assert u * -v == -w;
      ProductNonNegative(d, -w);
      assert d * -w == -(d * w);
    } else if u < 0.0 {
      ProductPositive(-u, -v);
      assert -u * -v == w;
      ProductPositive(d, w);
    } else {
      ProductPositive(u, v);
      ProductPositive(d, w);
    }
  }

  /** The score test does not reject the rate `x`: its squared distance from the observed rate is at
      most `scale` times its own variance. */
  predicate ScoreKeeps(p: real, scale: real, x: real) {
    (x - p) * (x - p) <= scale * (x * (1.0 - x))
  }

  lemma ScoreBetween(p: real, a: real, t: real, l: real, h: real, x: real)
    requires a > 0.0 && l <= h && t * t == a * (p * (1.0 - p)) + a * a / 4.0
    requires l * (1.0 + a) == p + a / 2.0 - t && h * (1.0 + a) == p + a / 2.0 + t
    ensures l <= x <= h <==> ScoreKeeps(p, a, x)
  {
    ScoreFactors(p, a, t, l, h, x);
    SignOfProduct(x - l, x - h, 1.0 + a);
  }

  /** The interval over the common denominator, as the solutions of the score inequality. */
  lemma ScoreInterval(p: real, a: real, t: real, x: real)
    requires a > 0.0 && t >= 0.0 && t * t == a * (p * (1.0 - p)) + a * a / 4.0
    ensures var d := 1.0 + a;
      (p + a / 2.0 - t) / d <= x <= (p + a / 2.0 + t) / d <==> ScoreKeeps(p, a, x)
  {
    var d := 1.0 + a;
    var l, h := (p + a / 2.0 - t) / d, (p + a / 2.0 + t) / d;
    Quotient(p + a / 2.0 - t, d);
    Quotient(p + a / 2.0 + t, d);
    DivLe(p + a / 2.0 - t, p + a / 2.0 + t, d);
    ScoreBetween(p, a, t, l, h, x);
  }

  /** Both ends over the common denominator. */
  lemma WilsonEnds(successes: nat, total: nat, root: real) returns (p: real, a: real, t: real, low: real, high: real)
    requires 0 < total && successes <= total && IsRoot(root, Radicand(successes, total))
    ensures p == successes as real / total as real && a == Z * Z / total as real && a > 0.0 && t >= 0.0
    ensures t * t == a * (p * (1.0 - p)) + a * a / 4.0
    ensures WilsonInterval(successes, total, root) == (low, high)
    ensures low == (p + a / 2.0 - t) / (1.0 + a) && high == (p + a / 2.0 + t) / (1.0 + a)
  {
    p, a, t := Scaled(successes, total, root);
    WilsonBounds(successes, total, root);
    DivSum(p + a / 2.0, t, 1.0 + a);
    low, high := WilsonInterval(successes, total, root).0, WilsonInterval(successes, total, root).1;
  }

  /** The rates the interval keeps are exactly those the score test at z = 1.959963984540054 does not
      reject: those whose squared distance from the observed rate is at most z^2 / n times x (1 - x). */
  lemma WilsonInvertsScore(successes: nat, total: nat, root: real, x: real)
    requires 0 < total && successes <= total && IsRoot(root, Radicand(successes, total))
    ensures WilsonInterval(successes, total, root).0 <= x <= WilsonInterval(successes, total, root).1 <==>
      ScoreKeeps(successes as real / total as real, 1.959963984540054 * 1.959963984540054 / total as real, x)
  {
    var p, a, t, low, high := WilsonEnds(successes, total, root);
    ScoreInterval(p, a, t, x);
    assert WilsonInterval(successes, total, root).0 == low && WilsonInterval(successes, total, root).1 == high;
  }

  /** Counting failures instead of successes reflects the interval about one half. */
  lemma WilsonReflects(successes: nat, total: nat, root: real)
    requires 0 < total && successes <= total && IsRoot(root, Radicand(successes, total))
    ensures IsRoot(root, Radicand(total - successes, total))
    ensures var (low, high) := WilsonInterval(successes, total, root);
      WilsonInterval(total - successes, total, root) == (1.0 - high, 1.0 - low)
  {
    ComplementRate(successes, total);
    WilsonBounds(successes, total, root);
    WilsonBounds(total - successes, total, root);
    CentreReflects(successes, total, root);
  }

  lemma ReflectCentre(p: real, h: real, d: real)
    requires d > 0.0 && d == 1.0 + h + h
    ensures ((1.0 - p) + h) / d == 1.0 - (p + h) / d
  {
    DivSum(d, p + h, d);
    Quotient(d, d);
  }

  lemma CentreForm(successes: nat, total: nat)
    requires 0 < total
    ensures var h := Z * Z / total as real / 2.0;
      1.0 + h + h > 0.0 && Centre(successes, total) == (successes as real / total as real + h) / (1.0 + h + h)
  {
    HalfQuotient(Z * Z, total as real);
    DivLe(0.0, Z * Z, total as real);
    Quotient(0.0, total as real);
  }

  lemma CentreReflects(successes: nat, total: nat, root: real)
    requires 0 < total && successes <= total && IsRoot(root, Radicand(successes, total))
    ensures Centre(total - successes, total) == 1.0 - Centre(successes, total)
  {
    ComplementRate(successes, total);
    CentreForm(successes, total);
    CentreForm(total - successes, total);
    var h := Z * Z / total as real / 2.0;
    ReflectCentre(successes as real / total as real, h, 1.0 + h + h);
  }

  lemma ComplementRate(successes: nat, total: nat)
    requires 0 < total && successes <= total
    ensures (total - successes) as real / total as real == 1.0 - successes as real / total as real
    ensures Radicand(total - successes, total) == Radicand(successes, total)
  {
    var n, x := total as real, successes as real;
    DivSum(n, x, n);
    Quotient(n, n);
    var p := x / n;
    assert (1.0 - p) * (1.0 - (1.0 - p)) == p * (1.0 - p);
  }

  // ---------- Percentiles ----------

  function Insert(x: int, s: seq<int>): (r: seq<int>)
    ensures |r| == |s| + 1
  {
    if s == [] then [x] else if x <= s[0] then [x] + s else [s[0]] + Insert(x, s[1..])
  }

  /** `sorted` on integers. */
  function Sorted(s: seq<int>): (r: seq<int>)
    ensures |r| == |s|
  {
    if s == [] then [] else Insert(s[0], Sorted(s[1..]))
  }

  predicate Ordered(s: seq<int>) {
    forall i, j :: 0 <= i < j < |s| ==> s[i] <= s[j]
  }

  lemma {:induction false} InsertBag(x: int, s: seq<int>)
    ensures multiset(Insert(x, s)) == multiset(s) + multiset{x}
  {
    if s != [] {
      assert s == [s[0]] + s[1..];
      if x > s[0] {
        InsertBag(x, s[1..]);
      }
    }
  }

  lemma {:induction false} InsertOrdered(x: int, s: seq<int>)
    requires Ordered(s)
    ensures Ordered(Insert(x, s))
  {
    if s != [] && x > s[0] {
      InsertOrdered(x, s[1..]);
      InsertBag(x, s[1..]);
      var rest := Insert(x, s[1..]);
      forall i | 0 <= i < |rest| ensures s[0] <= rest[i] {
        assert rest[i] in multiset(rest);
      }
    }
  }

  lemma {:induction false} SortedOrdered(s: seq<int>)
    ensures Ordered(Sorted(s)) && multiset(Sorted(s)) == multiset(s)
  {
    if s != [] {
      SortedOrdered(s[1..]);
      InsertOrdered(s[0], Sorted(s[1..]));
      InsertBag(s[0], Sorted(s[1..]));
      assert s == [s[0]] + s[1..];
    }
  }

  lemma HeadLeast(a: seq<int>, x: int)
    requires Ordered(a) && x in multiset(a)
    ensures a[0] <= x
  {
    var i :| 0 <= i < |a| && a[i] == x;
  }

  lemma TailBag(a: seq<int>)
    requires a != []
    ensures multiset(a[1..]) == multiset(a) - multiset{a[0]}
  {
    assert a == [a[0]] + a[1..];
  }

  lemma SameLength<T>(a: seq<T>, b: seq<T>)
    requires multiset(a) == multiset(b)
    ensures |a| == |b|
  {
    assert |multiset(a)| == |a| && |multiset(b)| == |b|;
  }

  lemma SameHead(a: seq<int>, b: seq<int>)
    requires Ordered(a) && Ordered(b) && multiset(a) == multiset(b) && a != [] && b != []
    ensures a[0] == b[0] && multiset(a[1..]) == multiset(b[1..])
  {
    assert a[0] in multiset(a) && b[0] in multiset(b);
    HeadLeast(a, b[0]);
    HeadLeast(b, a[0]);
    TailBag(a);
    TailBag(b);
  }

  /** An ordered sequence is determined by its multiset. */
  lemma {:induction false} OrderedUnique(a: seq<int>, b: seq<int>)
    requires Ordered(a) && Ordered(b) && multiset(a) == multiset(b)
    ensures a == b
  {
    SameLength(a, b);
    if a != [] {
      SameHead(a, b);
      OrderedUnique(a[1..], b[1..]);
      assert a == [a[0]] + a[1..] && b == [b[0]] + b[1..];
    }
  }

  function Between(low: int, gap: int, share: real): real {
    low as real + gap as real * share
  }

  /** Linear interpolation at a fractional position of an ordered sequence. */
  function Interpolate(ordered: seq<int>, position: real): real
    requires 0.0 <= position <= (|ordered| - 1) as real
  {
    var lower := position.Floor;
    var upper := if lower as real == position then lower else lower + 1;
    if lower == upper then ordered[lower] as real
    else Between(ordered[lower], ordered[upper] - ordered[lower], position - lower as real)
  }

  lemma PositionFits(n: real, f: real, g: real)
    requires n >= 0.0 && 0.0 <= f <= g <= 1.0
    ensures 0.0 <= n * f <= n * g <= n
    ensures Scale(n, f) <= Scale(n, g)
  {
    ProductNonNegative(n, f);
    ProductNonNegative(n, g - f);
    ProductNonNegative(n, 1.0 - g);
  }

  function Scale(n: real, fraction: real): real {
    n * fraction
  }

  /** The fractional position in a sample of `count` values. */
  function Position(count: nat, fraction: real): (x: real)
    requires count > 0 && 0.0 <= fraction <= 1.0
    ensures 0.0 <= x <= (count - 1) as real
  {
    PositionFits((count - 1) as real, fraction, fraction);
    Scale((count - 1) as real, fraction)
  }

  function Percentile(values: seq<int>, fraction: real): real
    requires 0.0 <= fraction <= 1.0
  {
    if values == [] then 0.0
    else
      SortedOrdered(values);
      Interpolate(Sorted(values), Position(|values|, fraction))
  }

  lemma BetweenGrows(low: int, gap: nat, x: real, y: real)
    requires 0.0 <= x <= y <= 1.0
    ensures low as real == Between(low, gap, 0.0)
    ensures low as real <= Between(low, gap, x) <= Between(low, gap, y) <= (low + gap) as real
  {
    PositionFits(gap as real, x, y);
  }

  /** Inside one cell the interpolation is a point of the segment, its left end included. */
  lemma InterpolateCell(s: seq<int>, x: real)
    requires 0.0 <= x <= (|s| - 1) as real && x.Floor + 1 < |s|
    ensures Interpolate(s, x) == Between(s[x.Floor], s[x.Floor + 1] - s[x.Floor], x - x.Floor as real)
  {
    if x.Floor as real == x {
      assert Between(s[x.Floor], s[x.Floor + 1] - s[x.Floor], 0.0) == s[x.Floor] as real;
    }
  }

  lemma InterpolateBetween(s: seq<int>, x: real)
    requires Ordered(s) && 0.0 <= x <= (|s| - 1) as real
    ensures s[x.Floor] as real <= Interpolate(s, x)
    ensures x.Floor + 1 < |s| ==> Interpolate(s, x) <= s[x.Floor + 1] as real
    ensures x.Floor + 1 == |s| ==> Interpolate(s, x) == s[x.Floor] as real
  {
    var k := x.Floor;
    if k + 1 < |s| {
      InterpolateCell(s, x);
      assert s[k] <= s[k + 1];
      BetweenGrows(s[k], s[k + 1] - s[k], x - k as real, x - k as real);
    }
  }

  lemma InterpolateWithinCell(s: seq<int>, x: real, y: real)
    requires Ordered(s) && 0.0 <= x <= y <= (|s| - 1) as real && x.Floor == y.Floor && x.Floor + 1 < |s|
    ensures Interpolate(s, x) <= Interpolate(s, y)
  {
    var k := x.Floor;
    InterpolateCell(s, x);
    InterpolateCell(s, y);
    assert s[k] <= s[k + 1];
    BetweenGrows(s[k], s[k + 1] - s[k], x - k as real, y - k as real);
  }

  lemma InterpolateMonotone(s: seq<int>, x: real, y: real)
    requires Ordered(s) && 0.0 <= x <= y <= (|s| - 1) as real
    ensures Interpolate(s, x) <= Interpolate(s, y)
  {
    InterpolateBetween(s, x);
    InterpolateBetween(s, y);
    var k := x.Floor;
    if y.Floor > k {
      assert s[k + 1] <= s[y.Floor];
    } else if k + 1 < |s| {
      InterpolateWithinCell(s, x, y);
    }
  }

  lemma PositionMonotone(count: nat, f: real, g: real)
    requires count > 0 && 0.0 <= f <= g <= 1.0
    ensures Position(count, f) <= Position(count, g)
  {
    PositionFits((count - 1) as real, f, g);
  }

  lemma InterpolateInRange(s: seq<int>, x: real)
    requires Ordered(s) && 0.0 <= x <= (|s| - 1) as real
    ensures s[0] as real <= Interpolate(s, x) <= s[|s| - 1] as real
  {
    InterpolateBetween(s, x);
    var k := x.Floor;
    assert s[0] <= s[k];
    if k + 1 < |s| {
      assert s[k + 1] <= s[|s| - 1];
    }
  }

  lemma PercentileWithin(values: seq<int>, f: real) returns (lo: int, hi: int)
    requires 0.0 <= f <= 1.0 && values != []
    ensures lo in values && hi in values
    ensures lo as real <= Percentile(values, f) <= hi as real
  {
    SortedOrdered(values);
    var s := Sorted(values);
    lo, hi := s[0], s[|s| - 1];
    InterpolateInRange(s, Position(|values|, f));
    assert lo in multiset(values) && hi in multiset(values);
  }

  lemma PercentileMonotone(values: seq<int>, f: real, g: real)
    requires 0.0 <= f <= g <= 1.0
    ensures Percentile(values, f) <= Percentile(values, g)
  {
    if values != [] {
      SortedOrdered(values);
      PositionMonotone(|values|, f, g);
      InterpolateMonotone(Sorted(values), Position(|values|, f), Position(|values|, g));
    }
  }

  /** At the fraction k/(n - 1) the percentile is the k-th smallest value itself. */
  lemma PercentileAtRank(values: seq<int>, k: nat)
    requires k < |values| && |values| > 1
    ensures var f := k as real / (|values| - 1) as real;
      0.0 <= f <= 1.0 && Percentile(values, f) == Sorted(values)[k] as real
  {
    var n: real := (|values| - 1) as real;
    var f := k as real / n;
    DivBounds(k as real, 0.0, 1.0, n);
    Quotient(k as real, n);
    assert Scale(n, f) == k as real;
    SortedOrdered(values);
  }

  lemma PositionBetween(count: nat, k: nat, share: real) returns (f: real)
    requires k + 1 < count && 0.0 <= share < 1.0
    ensures f == (k as real + share) / (count - 1) as real && 0.0 <= f <= 1.0
    ensures Position(count, f) == k as real + share && (k as real + share).Floor == k
  {
    var n, x := (count - 1) as real, k as real + share;
    f := x / n;
    DivBounds(x, 0.0, 1.0, n);
    Quotient(x, n);
    assert Scale(n, f) == x;
  }

  /** Between two neighbouring ranks the percentile moves linearly from one value to the next. */
  lemma PercentileLinear(values: seq<int>, k: nat, share: real) returns (f: real)
    requires k + 1 < |values| && 0.0 <= share < 1.0
    ensures f == (k as real + share) / (|values| - 1) as real && 0.0 <= f <= 1.0
    ensures Percentile(values, f) == Sorted(values)[k] as real + (Sorted(values)[k + 1] - Sorted(values)[k]) as real * share
  {
    f := PositionBetween(|values|, k, share);
    SortedOrdered(values);
    InterpolateCell(Sorted(values), k as real + share);
  }

  /** A percentile stays within the sample, grows with the fraction (so p50 <= p95), and depends
      only on the multiset of values. */
  lemma PercentileLaws(values: seq<int>, other: seq<int>, f: real, g: real)
    requires 0.0 <= f <= g <= 1.0
    ensures Percentile(values, f) <= Percentile(values, g)
    ensures values != [] ==> exists lo, hi :: lo in values && hi in values && lo as real <= Percentile(values, f) <= hi as real
    ensures multiset(values) == multiset(other) ==> Percentile(values, f) == Percentile(other, f)
  {
    PercentileMonotone(values, f, g);
    if values != [] {
      var lo, hi := PercentileWithin(values, f);
    }
    if multiset(values) == multiset(other) {
      SameBag(values, other);
    }
  }

  lemma SameBag(values: seq<int>, other: seq<int>)
    requires multiset(values) == multiset(other)
    ensures Sorted(values) == Sorted(other) && |values| == |other|
  {
    SortedOrdered(values);
    SortedOrdered(other);
    OrderedUnique(Sorted(values), Sorted(other));
  }
}
