/** The Wilson lower bound that promotion scores confidence with
    (src/promote.rs), over the reals. The normal quantile, 1.959963984540054
    there, is any positive `z`; the square root is any number whose square is the
    radicand. */
module Wilson {
  function RateOf(failures: nat, calls: nat): real
    requires calls > 0
  {
    failures as real / calls as real
  }

  /** What `wilson_lower_bound` takes the square root of. */
  function Radicand(failures: nat, calls: nat, z: real): real
    requires calls > 0
  {
    var n, rate := calls as real, RateOf(failures, calls);
    (rate * (1.0 - rate) + z * z / (4.0 * n)) / n
  }

  predicate IsRoot(root: real, x: real) { root >= 0.0 && root * root == x }

  lemma {:induction false} ZeroFactor(a: real, b: real)
    requires a * b == 0.0
    ensures a == 0.0 || b == 0.0
  {
    if a != 0.0 {
      assert b == a * b / a;
    }
  }

  /** There is one root, and it is the number that was squared. */
  lemma {:induction false} RootsMean(root: real, x: real)
    requires x >= 0.0
    ensures IsRoot(root, x * x) <==> root == x
  {
    if IsRoot(root, x * x) {
      ZeroFactor(root - x, root + x);
    }
  }

  datatype Bound = NoCalls | TooManyFailures | Bound(value: real)

  function LowerBound(failures: nat, calls: nat, z: real, root: real): Bound {
    if calls == 0 then NoCalls
    else if failures > calls then TooManyFailures
    else
      var n, rate := calls as real, RateOf(failures, calls);
      var centre := rate + z * z / (2.0 * n);
      var margin := z * root;
      Bound((centre - margin) / (1.0 + z * z / n))
  }

  /** No bound is given without calls, or with more failures than calls. */
  lemma {:induction false} BoundIsGivenWhen(failures: nat, calls: nat, z: real, root: real)
    ensures LowerBound(failures, calls, z, root).Bound? <==> 0 < calls && failures <= calls
    ensures LowerBound(failures, calls, z, root) == NoCalls <==> calls == 0
  {
  }

  // ------------------------------------------------------------ over reals

  /** The Wilson equation with z^2/n written `w`. */
  predicate OnCurve(r: real, w: real, p: real) { (r - p) * (r - p) == w * p * (1.0 - p) }

  lemma {:induction false} SolvesQuadratic(r: real, w: real, m: real, p: real)
    requires w > 0.0 && p * (1.0 + w) == r + w / 2.0 - m
    requires m * m == w * r * (1.0 - r) + w * w / 4.0
    ensures OnCurve(r, w, p)
  {
    var d := 1.0 + w;
    assert m == r + w / 2.0 - p * d;
    var a := r + w / 2.0;
    assert m * m == a * a - 2.0 * a * (p * d) + (p * d) * (p * d);
    assert a * a == r * r + r * w + w * w / 4.0;
    assert r * r + r * w - 2.0 * a * (p * d) + (p * d) * (p * d) == w * r - w * r * r;
    assert r * r * d - 2.0 * a * (p * d) + (p * d) * (p * d) == 0.0;
    assert d * (r * r - 2.0 * a * p + p * p * d) == 0.0;
    assert r * r - 2.0 * a * p + p * p * d == 0.0;
  }

  predicate Solves(r: real, w: real, m: real, p: real) {
    Spread(r, w, m) && p * (1.0 + w) == r + w / 2.0 - m
  }

  /** Every solution is the centre plus or minus the margin. */
  lemma {:induction false} Smallest(r: real, w: real, m: real, p: real, q: real)
    requires Solves(r, w, m, p) && OnCurve(r, w, q)
    ensures p <= q
  {
    var c, d := r + w / 2.0, 1.0 + w;
    var x := c - q * d;
    SolutionSquares(r, w, m, q);
    SquaresOrder(x, m);
    LessByFactor(p, q, d, p * d, q * d);
  }

  lemma {:induction false} SolutionSquares(r: real, w: real, m: real, q: real)
    requires Spread(r, w, m) && OnCurve(r, w, q)
    ensures
      var x := r + w / 2.0 - q * (1.0 + w);
      x * x == m * m
  {
    var c, d := r + w / 2.0, 1.0 + w;
    var x := c - q * d;
    assert r * r - 2.0 * c * q + q * q * d == 0.0;
    assert d * (r * r - 2.0 * c * q + q * q * d) == 0.0;
    assert x * x == c * c - 2.0 * c * (q * d) + (q * d) * (q * d);
    assert x * x == c * c - d * (r * r);
    assert c * c == r * r + r * w + w * w / 4.0;
  }

  lemma {:induction false} MulLess(x: real, y: real, c: real)
    requires x < y && c > 0.0
    ensures x * c < y * c
  {
    assert (y - x) * c > 0.0;
  }

  lemma {:induction false} ProductPositive(x: real, y: real, xy: real)
    requires x > 0.0 && y > 0.0 && x * y == xy
    ensures xy > 0.0
  {
    assert x * y > 0.0;
  }

  lemma {:induction false} SquarePositive(x: real, xx: real)
    requires x != 0.0 && x * x == xx
    ensures xx > 0.0
  {
    if x > 0.0 {
      ProductPositive(x, x, xx);
    } else {
      assert (-x) * (-x) == x * x;
      ProductPositive(-x, -x, xx);
    }
  }

  lemma {:induction false} MulAtMost(c: real, x: real, y: real)
    requires c >= 0.0
    ensures x <= y ==> c * x <= c * y
  {
    assert x <= y ==> c * (y - x) >= 0.0;
  }

  predicate Spread(r: real, w: real, m: real) {
    0.0 <= r <= 1.0 && w > 0.0 && m >= 0.0 && m * m == w * (r * (1.0 - r)) + w * w / 4.0
  }

  lemma {:induction false} SquareGrows(b: real, a: real)
    requires 0.0 <= b < a
    ensures b * b < a * a
  {
    MulLess(0.0, a - b, a + b);
    assert (a - b) * (a + b) == a * a - b * b;
  }

  lemma {:induction false} SquaresOrder(a: real, b: real)
    requires b >= 0.0 && a * a <= b * b
    ensures a <= b
  {
    if a > b {
      SquareGrows(b, a);
    }
  }

  lemma {:induction false} SquaresOrderStrictly(a: real, b: real)
    requires b >= 0.0 && a * a < b * b
    ensures a < b
  {
    SquaresOrder(a, b);
  }

  lemma {:induction false} Slack(r: real)
    requires 0.0 <= r <= 1.0
    ensures r * (1.0 - r) >= 0.0 && (0.0 < r < 1.0 ==> r * (1.0 - r) > 0.0)
  {
  }

  /** The margin is at least w (1/2 - r), strictly once anything failed. */
  lemma {:induction false} MarginFloor(r: real, w: real, m: real)
    requires Spread(r, w, m)
    ensures w * (0.5 - r) <= m
    ensures r > 0.0 ==> w * (0.5 - r) < m
  {
    Slack(r);
    var x, q := w * (0.5 - r), r * (1.0 - r);
    assert x * x == w * w * (0.25 - q) by {
      assert (0.5 - r) * (0.5 - r) == 0.25 - q;
      assert x * x == w * w * ((0.5 - r) * (0.5 - r));
    }
    assert m * m - x * x == (w + w * w) * q by {
      assert w * w * (0.25 - q) == w * w / 4.0 - w * w * q;
    }
    assert (w + w * w) * q >= 0.0;
    SquaresOrder(x, m);
    if 0.0 < r < 1.0 {
      assert (w + w * w) * q > 0.0;
      SquaresOrderStrictly(x, m);
    }
  }

  /** The margin never takes the bound below zero. */
  lemma {:induction false} MarginCeiling(r: real, w: real, m: real)
    requires Spread(r, w, m)
    ensures m <= r + w / 2.0
  {
    var a := r + w / 2.0;
    assert a * a == r * r + r * w + w * w / 4.0;
    assert a * a - m * m == r * r + w * (r * r);
    assert r * r >= 0.0 && w * (r * r) >= 0.0;
    SquaresOrder(m, a);
  }

  lemma {:induction false} Between(r: real, w: real, m: real, p: real)
    requires Solves(r, w, m, p)
    ensures 0.0 <= p <= r
  {
    MarginFloor(r, w, m);
    MarginCeiling(r, w, m);
    assert p * (1.0 + w) >= 0.0;
    assert p < 0.0 ==> p * (1.0 + w) < 0.0;
    assert r * (1.0 + w) == r + w * r;
    assert w * (0.5 - r) == w / 2.0 - w * r;
    assert p * (1.0 + w) <= r * (1.0 + w);
    assert p > r ==> p * (1.0 + w) > r * (1.0 + w);
  }

  lemma {:induction false} DifferenceOfSquares(k: real, m: real)
    ensures (k - m) * (m + k) == k * k - m * m
  {
  }

  lemma {:induction false} DifferenceOfVariances(r: real, s: real)
    ensures s * (1.0 - s) - r * (1.0 - r) == (s - r) * (1.0 - r - s)
  {
    assert (s - r) * (1.0 - r - s) == s * (1.0 - r - s) - r * (1.0 - r - s);
  }

  lemma {:induction false} Product(w: real, a: real, b: real, d: real, e: real)
    requires a - b == d * e
    ensures w * a - w * b == d * (w * e)
  {
    assert w * a - w * b == w * (a - b);
    assert w * (d * e) == d * (w * e);
  }

  lemma {:induction false} RatioBelow(gap: real, sum: real, d: real, e: real)
    requires gap * sum == d * e && e < sum && 0.0 <= sum && 0.0 < d
    ensures gap < d
  {
    MulLess(e, sum, d);
    MulAtMost(sum, d, gap);
    assert d * e == e * d && sum * gap == gap * sum;
  }

  /** The margin grows more slowly than the rate. */
  lemma {:induction false} MarginGap(r: real, s: real, w: real, m: real, k: real)
    requires Spread(r, w, m) && Spread(s, w, k) && r < s
    ensures k - m < s - r
  {
    SumFloor(r, s, w, m, k);
    GapProduct(r, s, w, m, k);
    RatioBelow(k - m, m + k, s - r, w * (1.0 - r - s));
  }

  lemma {:induction false} SumFloor(r: real, s: real, w: real, m: real, k: real)
    requires Spread(r, w, m) && Spread(s, w, k) && r < s
    ensures w * (1.0 - r - s) < m + k
  {
    MarginFloor(r, w, m);
    MarginFloor(s, w, k);
    Distribute(w, 0.5 - r, 0.5 - s);
  }

  lemma {:induction false} Distribute(w: real, a: real, b: real)
    ensures w * (a + b) == w * a + w * b
  {
  }

  lemma {:induction false} GapProduct(r: real, s: real, w: real, m: real, k: real)
    requires Spread(r, w, m) && Spread(s, w, k)
    ensures (k - m) * (m + k) == (s - r) * (w * (1.0 - r - s))
  {
    DifferenceOfSquares(k, m);
    DifferenceOfVariances(r, s);
    Product(w, s * (1.0 - s), r * (1.0 - r), s - r, 1.0 - r - s);
  }

  lemma {:induction false} Increasing(r: real, s: real, w: real, m: real, k: real, p: real, q: real)
    requires Solves(r, w, m, p) && Solves(s, w, k, q) && r < s
    ensures p < q
  {
    MarginGap(r, s, w, m, k);
    assert r + w / 2.0 - m < s + w / 2.0 - k;
    LessByFactor(p, q, 1.0 + w, r + w / 2.0 - m, s + w / 2.0 - k);
  }

  lemma {:induction false} LessByFactor(x: real, y: real, c: real, xc: real, yc: real)
    requires x * c == xc && y * c == yc && xc <= yc && c > 0.0
    ensures x <= y && (xc < yc ==> x < y)
  {
    if x > y {
      MulLess(y, x, c);
    }
  }

  // --------------------------------------------------------- over the counts

  lemma {:induction false} QuotientsOrder(x: real, y: real, n: real)
    requires n > 0.0
    ensures x / n * n == x
    ensures x < y ==> x / n < y / n
    ensures x <= y ==> x / n <= y / n
  {
    var p, q := x / n, y / n;
    assert p * n == x && q * n == y;
    MulAtMost(n, q, p);
    assert n * q == y && n * p == x;
  }

  lemma {:induction false} RateInRange(failures: nat, calls: nat)
    requires 0 < calls && failures <= calls
    ensures 0.0 <= RateOf(failures, calls) <= 1.0
    ensures failures > 0 ==> RateOf(failures, calls) > 0.0
  {
    var n := calls as real;
    QuotientsOrder(0.0, failures as real, n);
    QuotientsOrder(failures as real, n, n);
  }

  lemma {:induction false} RateIncreases(f: nat, g: nat, calls: nat)
    requires 0 < calls && f < g
    ensures RateOf(f, calls) < RateOf(g, calls)
  {
    QuotientsOrder(f as real, g as real, calls as real);
  }

  lemma {:induction false} QuotientIs(x: real, n: real, q: real)
    requires n > 0.0 && q * n == x
    ensures x / n == q
  {
    var y := x / n;
    assert y * n == x;
    LessByFactor(y, q, n, x, x);
    LessByFactor(q, y, n, x, x);
  }

  /** z^2/n halves and quarters as its denominator doubles and doubles again. */
  lemma {:induction false} Halves(x: real, n: real)
    requires n > 0.0
    ensures x / (2.0 * n) == x / n / 2.0 && x / (4.0 * n) == x / n / 4.0
  {
    var w := x / n;
    assert w * n == x;
    QuotientIs(x, 2.0 * n, w / 2.0);
    QuotientIs(x, 4.0 * n, w / 4.0);
  }

  lemma {:induction false} MarginSquare(v: real, w: real, z: real, root: real, n: real)
    requires w * n == z * z && root * root * n == v + w / 4.0
    ensures (z * root) * (z * root) == w * v + w * w / 4.0
  {
    var x := root * root;
    assert (z * root) * (z * root) == z * z * x;
    assert w * n * x == w * (x * n);
    assert w * (v + w / 4.0) == w * v + w * w / 4.0;
  }

  /** The computed bound, with w for z^2/n. */
  lemma {:induction false} BoundUnfolded(failures: nat, calls: nat, z: real, root: real, w: real)
    requires 0 < calls && failures <= calls && w == z * z / calls as real
    ensures LowerBound(failures, calls, z, root)
         == Bound((RateOf(failures, calls) + w / 2.0 - z * root) / (1.0 + w))
  {
    Halves(z * z, calls as real);
  }

  lemma {:induction false} RadicandUnfolded(failures: nat, calls: nat, z: real, w: real)
    requires 0 < calls && w == z * z / calls as real
    ensures
      var r := RateOf(failures, calls);
      Radicand(failures, calls, z) * calls as real == r * (1.0 - r) + w / 4.0
  {
    var n, r := calls as real, RateOf(failures, calls);
    Halves(z * z, n);
    var v := r * (1.0 - r) + w / 4.0;
    assert v / n * n == v;
  }

  /** A computed margin and bound solve for the rate. */
  lemma {:induction false} SolvedBy(r: real, w: real, z: real, root: real, n: real)
    requires 0.0 <= r <= 1.0 && n > 0.0 && z > 0.0 && w * n == z * z
    requires root >= 0.0 && root * root * n == r * (1.0 - r) + w / 4.0
    ensures 1.0 + w > 0.0 && Solves(r, w, z * root, (r + w / 2.0 - z * root) / (1.0 + w))
  {
    MarginSquare(r * (1.0 - r), w, z, root, n);
    SquarePositive(z, w * n);
    LessByFactor(0.0, w, n, 0.0, w * n);
    assert z * root >= 0.0 by {
      MulAtMost(z, 0.0, root);
    }
    var x := r + w / 2.0 - z * root;
    assert x / (1.0 + w) * (1.0 + w) == x;
  }

  lemma {:induction false} Unfolded(failures: nat, calls: nat, z: real, root: real)
    requires 0 < calls && failures <= calls && z > 0.0 && IsRoot(root, Radicand(failures, calls, z))
    ensures LowerBound(failures, calls, z, root).Bound?
    ensures Solves(RateOf(failures, calls), z * z / calls as real, z * root, LowerBound(failures, calls, z, root).value)
  {
    var n, r, w := calls as real, RateOf(failures, calls), z * z / calls as real;
    RateInRange(failures, calls);
    BoundUnfolded(failures, calls, z, root, w);
    RadicandUnfolded(failures, calls, z, w);
    SolvedBy(r, w, z, root, n);
  }

  ghost predicate IsSmallest(r: real, w: real, p: real) {
    OnCurve(r, w, p) && forall q :: OnCurve(r, w, q) ==> p <= q
  }

  lemma {:induction false} SolvedIsSmallest(r: real, w: real, m: real, p: real)
    requires Solves(r, w, m, p)
    ensures IsSmallest(r, w, p)
  {
    SolvesQuadratic(r, w, m, p);
    forall q | OnCurve(r, w, q) ensures p <= q {
      Smallest(r, w, m, p, q);
    }
  }

  lemma {:induction false} ZeroOnCurve(r: real, w: real, p: real)
    requires OnCurve(r, w, p)
    ensures p == 0.0 ==> r == 0.0
  {
    if p == 0.0 && r != 0.0 {
      SquarePositive(r, 0.0);
    }
  }

  /** The bound is the smallest solution of the Wilson equation
      (r - p)^2 = z^2 p (1 - p) / n for the rate r, and lies between zero and r. */
  lemma {:induction false} BoundIsWilson(failures: nat, calls: nat, z: real, root: real)
    requires 0 < calls && failures <= calls && z > 0.0 && IsRoot(root, Radicand(failures, calls, z))
    ensures LowerBound(failures, calls, z, root).Bound?
    ensures
      var p, r := LowerBound(failures, calls, z, root).value, RateOf(failures, calls);
      && IsSmallest(r, z * z / calls as real, p)
      && 0.0 <= p <= r <= 1.0
      && (p == 0.0 <==> failures == 0)
  {
    Unfolded(failures, calls, z, root);
    RateInRange(failures, calls);
    var p, r, w := LowerBound(failures, calls, z, root).value, RateOf(failures, calls), z * z / calls as real;
    SolvedIsSmallest(r, w, z * root, p);
    Between(r, w, z * root, p);
    ZeroOnCurve(r, w, p);
  }

  /** More failures in as many calls is strictly more evidence. */
  lemma {:induction false} BoundIncreases(f: nat, g: nat, calls: nat, z: real, root: real, root': real)
    requires 0 < calls && f < g <= calls && z > 0.0
    requires IsRoot(root, Radicand(f, calls, z)) && IsRoot(root', Radicand(g, calls, z))
    ensures LowerBound(f, calls, z, root).Bound? && LowerBound(g, calls, z, root').Bound?
    ensures LowerBound(f, calls, z, root).value < LowerBound(g, calls, z, root').value
  {
    Unfolded(f, calls, z, root);
    Unfolded(g, calls, z, root');
    RateIncreases(f, g, calls);
    Increasing(RateOf(f, calls), RateOf(g, calls), z * z / calls as real, z * root, z * root',
               LowerBound(f, calls, z, root).value, LowerBound(g, calls, z, root').value);
  }
}
