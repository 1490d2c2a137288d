/** wilson_interval and the nearest-rank percentile of the scorecards, in exact reals. */
module Scorecards {
  import opened Prelude

  /** The two ends before they are limited to [0, 1]. */
  datatype Ends = Ends(low: real, high: real)

  /** `root` is a square root of what stands under the radical. */
  predicate IsRoot(root: real, p: real, n: nat, z: real)
    requires n > 0
  {
    root >= 0.0 && root * root == Radicand(p, n, z)
  }

  function Radicand(p: real, n: nat, z: real): real
    requires n > 0
  {
    p * (1.0 - p) / n as real + z * z / (4.0 * n as real * n as real)
  }

  /** z^2 / n */
  function Width(n: nat, z: real): real
    requires n > 0
  {
    z * z / n as real
  }

  function Centre(p: real, n: nat, z: real): real
    requires n > 0
  {
    p + z * z / (2.0 * n as real)
  }

  function Margin(z: real, root: real): real {
    z * root
  }

  function Unclamped(p: real, n: nat, z: real, root: real): Ends
    requires n > 0
  {
    assert Width(n, z) >= 0.0 by { SquareOverIsPositive(z, n); }
    Ends((Centre(p, n, z) - Margin(z, root)) / (1.0 + Width(n, z)), (Centre(p, n, z) + Margin(z, root)) / (1.0 + Width(n, z)))
  }

  lemma SquareOverIsPositive(z: real, n: nat)
    requires n > 0
    ensures z * z / n as real >= 0.0
  {
    assert z * z >= 0.0;
  }

  function WilsonInterval(successes: nat, n: nat, z: real, root: real): Ends
    requires n > 0 ==> IsRoot(root, successes as real / n as real, n, z)
  {
    if n == 0 then Ends(0.0, 1.0)
    else
      var ends := Unclamped(successes as real / n as real, n, z, root);
      Ends(if ends.low > 0.0 then ends.low else 0.0, if ends.high < 1.0 then ends.high else 1.0)
  }

  /** The score equation whose roots the interval is meant to give. */
  predicate Solves(x: real, p: real, n: nat, z: real)
    requires n > 0
  {
    (p - x) * (p - x) == Width(n, z) * (x * (1.0 - x))
  }

  // ---- the quadratic behind it: d x^2 - 2 c x + p^2 with d = 1 + w, c = p + w / 2 --------------

  function D(w: real): real {
    1.0 + w
  }

  function C(p: real, w: real): real {
    p + w / 2.0
  }

  lemma Terms(p: real, n: nat, z: real, root: real)
    requires n > 0 && IsRoot(root, p, n, z)
    ensures var w, m := Width(n, z), Margin(z, root);
      && w >= 0.0 && Centre(p, n, z) == C(p, w)
      && m * m == w * (p * (1.0 - p)) + w * w / 4.0
  {
    var r := n as real;
    var w, m := z * z / r, z * root;
    SquareOverIsPositive(z, n);
    assert w * r == z * z;
    QuotientIs(z * z, 2.0 * r, w / 2.0);
    SquareOfProduct(z, root, Radicand(p, n, z));
    Distribute(z * z, p * (1.0 - p), r);
  }

  lemma SquareOfProduct(z: real, root: real, q: real)
    requires root * root == q
    ensures (z * root) * (z * root) == (z * z) * q
  {
  }

  lemma Distribute(a: real, q: real, r: real)
    requires r > 0.0
    ensures a * (q / r + a / (4.0 * r * r)) == (a / r) * q + (a / r) * (a / r) / 4.0
  {
    var u := a / r;
    assert u * r == a;
    assert a * (q / r) == u * q by { var v := q / r; assert v * r == q; assert a * v == u * r * v == u * (v * r); }
    var t := a / (4.0 * r * r);
    assert t * (4.0 * r * r) == a;
    assert t * (4.0 * r) * r == u * r;
    CancelFactor(t * (4.0 * r), u, r);
    assert a * t == u * (r * t) == u * (u / 4.0);
  }

  lemma CancelFactor(x: real, y: real, r: real)
    requires x * r == y * r && r != 0.0
    ensures x == y
  {
    assert (x - y) * r == 0.0;
    ZeroProduct(x - y, r);
  }

  lemma ZeroProduct(x: real, y: real)
    requires x * y == 0.0
    ensures x == 0.0 || y == 0.0
  {
  }

  /** (c - m) and (c + m) multiply to d p^2, and completing the square leaves m^2. */
  lemma CompleteSquare(p: real, w: real, m: real, x: real)
    requires m * m == w * (p * (1.0 - p)) + w * w / 4.0
    ensures var d, c := D(w), C(p, w);
      (d * x - c) * (d * x - c) - m * m == d * ((p - x) * (p - x) - w * (x * (1.0 - x)))
  {
    var d, c := 1.0 + w, p + w / 2.0;
    assert c * c - m * m == d * (p * p) by {
      assert c * c == p * p + w * p + w * w / 4.0;
      assert w * (p * (1.0 - p)) == w * p - w * p * p;
      assert d * (p * p) == p * p + w * p * p;
    }
    assert (d * x - c) * (d * x - c) == d * (d * (x * x)) - 2.0 * (d * (x * c)) + c * c;
    assert (p - x) * (p - x) - w * (x * (1.0 - x)) == d * (x * x) - 2.0 * (x * c) + p * p by {
      assert (p - x) * (p - x) == p * p - 2.0 * (p * x) + x * x;
      assert w * (x * (1.0 - x)) == w * x - w * (x * x);
      assert d * (x * x) == x * x + w * (x * x);
      assert 2.0 * (x * c) == 2.0 * (p * x) + w * x;
    }
    ExpandBy(d, d * (x * x), x * c, p * p);
  }

  lemma ExpandBy(d: real, a: real, b: real, e: real)
    ensures d * (a - 2.0 * b + e) == d * a - 2.0 * (d * b) + d * e
  {
  }

  lemma EqualSquares(a: real, m: real)
    requires a * a == m * m
    ensures a == m || a == -m
  {
    assert (a - m) * (a + m) == 0.0;
    ZeroProduct(a - m, a + m);
  }

  lemma SmallerSquare(a: real, m: real)
    requires m >= 0.0 && a * a <= m * m
    ensures -m <= a <= m
  {
    assert (-a) * (-a) == a * a;
    if a > m { SquareGrows(m, a); }
    if -a > m { SquareGrows(m, -a); }
  }

  lemma SquareGrows(m: real, a: real)
    requires 0.0 <= m < a
    ensures m * m < a * a
  {
    var d := a - m;
    ProductIsPositive(d, a);
    ProductIsPositive(m, d);
    assert a * a == m * m + m * d + d * a;
  }

  lemma ProductIsPositive(x: real, y: real)
    ensures x > 0.0 && y > 0.0 ==> x * y > 0.0
    ensures x >= 0.0 && y >= 0.0 ==> x * y >= 0.0
  {
  }

  lemma QuotientIs(a: real, d: real, x: real)
    requires d > 0.0
    ensures a / d == x <==> d * x == a
  {
    var q := a / d;
    assert q * d == a;
    if d * x == a { CancelFactor(q, x, d); }
  }

  /** Main theorem. The unclamped ends are exactly the roots of the score equation. */
  lemma EndsAreTheRoots(p: real, n: nat, z: real, root: real, x: real)
    requires n > 0 && IsRoot(root, p, n, z)
    ensures var ends := Unclamped(p, n, z, root); Solves(x, p, n, z) <==> x == ends.low || x == ends.high
  {
    hide *;
    var w, m := Width(n, z), Margin(z, root);
    Terms(p, n, z, root);
    RootsOfScore(p, n, z, w, m, x);
    EndsAre(p, n, z, root);
  }

  lemma RootsOfScore(p: real, n: nat, z: real, w: real, m: real, x: real)
    requires n > 0 && w >= 0.0 && w == Width(n, z) && m * m == w * (p * (1.0 - p)) + w * w / 4.0
    ensures D(w) > 0.0 && (Solves(x, p, n, z) <==> x == (C(p, w) - m) / D(w) || x == (C(p, w) + m) / D(w))
  {
    CompleteSquare(p, w, m, x);
    SolvesMeans(x, p, n, z, w, m);
    assert D(w) > 0.0;
    hide *;
    QuotientIs(C(p, w) - m, D(w), x);
    QuotientIs(C(p, w) + m, D(w), x);
  }

  lemma EndsAre(p: real, n: nat, z: real, root: real)
    requires n > 0 && Width(n, z) >= 0.0 && Centre(p, n, z) == C(p, Width(n, z))
    ensures var w, m := Width(n, z), Margin(z, root);
      D(w) > 0.0 && Unclamped(p, n, z, root) == Ends((C(p, w) - m) / D(w), (C(p, w) + m) / D(w))
  {
    hide Width, Centre, Margin, C;
  }

  lemma SolvesMeans(x: real, p: real, n: nat, z: real, w: real, m: real)
    requires n > 0 && w >= 0.0 && (Solves(x, p, n, z) <==> (p - x) * (p - x) == w * (x * (1.0 - x)))
    requires (D(w) * x - C(p, w)) * (D(w) * x - C(p, w)) - m * m == D(w) * ((p - x) * (p - x) - w * (x * (1.0 - x)))
    ensures Solves(x, p, n, z) <==> D(w) * x == C(p, w) - m || D(w) * x == C(p, w) + m
  {
    hide C, Solves;
    var a, e := D(w) * x - C(p, w), (p - x) * (p - x) - w * (x * (1.0 - x));
    assert D(w) > 0.0;
    hide D;
    SquareIffFactor(a, m, D(w), e);
  }

  lemma SquareIffFactor(a: real, m: real, d: real, e: real)
    requires d > 0.0 && a * a - m * m == d * e
    ensures e == 0.0 <==> a == m || a == -m
  {
    if e == 0.0 {
      assert d * e == 0.0;
      EqualSquares(a, m);
    }
    if a == m || a == -m {
      assert a * a == m * m;
      ZeroProduct(d, e);
    }
  }

  lemma QuotientAtLeast(a: real, d: real, x: real)
    requires d > 0.0 && d * x <= a
    ensures x <= a / d
  {
    var q := a / d;
    assert q * d == a;
    if q < x { assert d * (x - q) > 0.0; }
  }

  lemma QuotientAtMost(a: real, d: real, x: real)
    requires d > 0.0 && a <= d * x
    ensures a / d <= x
  {
    var q := a / d;
    assert q * d == a;
    if q > x { assert d * (q - x) > 0.0; }
  }

  /** Main theorem. The ends enclose the rate and stay within [0, 1], so limiting them changes nothing. */
  lemma EndsEncloseTheRate(p: real, n: nat, z: real, root: real)
    requires n > 0 && IsRoot(root, p, n, z) && 0.0 <= p <= 1.0 && z >= 0.0
    ensures var ends := Unclamped(p, n, z, root); 0.0 <= ends.low <= p <= ends.high <= 1.0
  {
    assert root >= 0.0;
    MarginIsPositive(z, root);
    hide *;
    Terms(p, n, z, root);
    EndsAre(p, n, z, root);
    Enclosed(p, Width(n, z), Margin(z, root));
  }

  lemma MarginIsPositive(z: real, root: real)
    requires z >= 0.0 && root >= 0.0
    ensures Margin(z, root) >= 0.0
  {
  }

  lemma Enclosed(p: real, w: real, m: real)
    requires m >= 0.0 && w >= 0.0 && 0.0 <= p <= 1.0 && m * m == w * (p * (1.0 - p)) + w * w / 4.0
    ensures D(w) > 0.0 && 0.0 <= (C(p, w) - m) / D(w) <= p <= (C(p, w) + m) / D(w) <= 1.0
  {
    Between(p, w, m);
    QuotientsBetween(C(p, w) - m, C(p, w) + m, D(w), p);
  }

  lemma QuotientsBetween(a: real, b: real, d: real, p: real)
    requires d > 0.0 && 0.0 <= a <= d * p <= b <= d
    ensures 0.0 <= a / d <= p <= b / d <= 1.0
  {
    QuotientAtLeast(a, d, 0.0);
    QuotientAtMost(a, d, p);
    QuotientAtLeast(b, d, p);
    QuotientAtMost(b, d, 1.0);
  }

  lemma Between(p: real, w: real, m: real)
    requires m >= 0.0 && w >= 0.0 && 0.0 <= p <= 1.0 && m * m == w * (p * (1.0 - p)) + w * w / 4.0
    ensures var d, c := D(w), C(p, w); 0.0 <= c - m <= d * p <= c + m <= d
  {
    hide D, C;
    AtZero(p, w, m);
    AtRate(p, w, m);
    AtOne(p, w, m);
  }

  lemma AtZero(p: real, w: real, m: real)
    requires w >= 0.0 && 0.0 <= p <= 1.0 && m * m == w * (p * (1.0 - p)) + w * w / 4.0
    ensures m <= C(p, w)
  {
    CompleteSquare(p, w, m, 0.0);
    ProductOfSquare(1.0 + w, p);
    assert (p - 0.0) * (p - 0.0) - w * (0.0 * (1.0 - 0.0)) == p * p;
    assert (D(w) * 0.0 - C(p, w)) * (D(w) * 0.0 - C(p, w)) == C(p, w) * C(p, w);
    SmallerSquare(m, C(p, w));
  }

  lemma AtOne(p: real, w: real, m: real)
    requires w >= 0.0 && 0.0 <= p <= 1.0 && m * m == w * (p * (1.0 - p)) + w * w / 4.0
    ensures m <= D(w) - C(p, w)
  {
    CompleteSquare(p, w, m, 1.0);
    ProductOfSquare(1.0 + w, p - 1.0);
    assert (p - 1.0) * (p - 1.0) - w * (1.0 * (1.0 - 1.0)) == (p - 1.0) * (p - 1.0);
    assert D(w) * 1.0 == D(w);
    SmallerSquare(m, D(w) - C(p, w));
  }

  lemma AtRate(p: real, w: real, m: real)
    requires m >= 0.0 && w >= 0.0 && 0.0 <= p <= 1.0 && m * m == w * (p * (1.0 - p)) + w * w / 4.0
    ensures -m <= D(w) * p - C(p, w) <= m
  {
    CompleteSquare(p, w, m, p);
    var q := p * (1.0 - p);
    ProductIsPositive(p, 1.0 - p);
    ProductIsPositive(w, q);
    ProductIsPositive(1.0 + w, w * q);
    assert (p - p) * (p - p) - w * q == -(w * q);
    assert (1.0 + w) * -(w * q) == -((1.0 + w) * (w * q));
    SmallerSquare(D(w) * p - C(p, w), m);
  }

  lemma ProductOfSquare(d: real, y: real)
    requires d >= 0.0
    ensures d * (y * y) >= 0.0
  {
    assert y * y >= 0.0;
    ProductIsPositive(d, y * y);
  }

  /** What the caller of wilson_interval gets. */
  lemma IntervalIsUnclamped(successes: nat, n: nat, z: real, root: real)
    requires successes <= n && z >= 0.0 && (n > 0 ==> IsRoot(root, successes as real / n as real, n, z))
    ensures var ends := WilsonInterval(successes, n, z, root);
      && 0.0 <= ends.low <= ends.high <= 1.0
      && (n > 0 ==> ends == Unclamped(successes as real / n as real, n, z, root)
                    && ends.low <= successes as real / n as real <= ends.high)
      && (n == 0 ==> ends == Ends(0.0, 1.0))
  {
    if n > 0 {
      var p := successes as real / n as real;
      QuotientAtLeast(successes as real, n as real, 0.0);
      QuotientAtMost(successes as real, n as real, 1.0);
      EndsEncloseTheRate(p, n, z, root);
    }
  }

  // ---- percentile --------------------------------------------------------------------------

  predicate Sorted(values: seq<int>) {
    forall i, k :: 0 <= i <= k < |values| ==> values[i] <= values[k]
  }

  /** ceil(q / 100 * n) */
  function CeilShare(q: nat, n: nat): nat {
    (q * n + 99) / 100
  }

  function Percentile(values: seq<int>, q: nat): Option<int>
    requires q <= 100
  {
    if values == [] then None
    else
      var rank := if CeilShare(q, |values|) > 1 then CeilShare(q, |values|) else 1;
      assert rank <= |values| by { assert q * |values| <= 100 * |values|; }
      Some(values[rank - 1])
  }

  function CountBelow(values: seq<int>, v: int): nat {
    if values == [] then 0 else CountBelow(values[..|values| - 1], v) + if values[|values| - 1] < v then 1 else 0
  }

  function CountUpTo(values: seq<int>, v: int): nat {
    CountBelow(values, v + 1)
  }

  lemma {:induction false} CountBounds(values: seq<int>, v: int, r: nat)
    requires Sorted(values) && r <= |values|
    ensures (forall i :: 0 <= i < r ==> values[i] < v) ==> CountBelow(values, v) >= r
    ensures (forall i :: r <= i < |values| ==> values[i] >= v) ==> CountBelow(values, v) <= r
    decreases |values|
  {
    if values != [] {
      var n := |values| - 1;
      CountBounds(values[..n], v, if r <= n then r else n);
    }
  }

  /** Nearest rank: at least q percent of the values are at most the percentile, and fewer than q percent
      are below it (none for q = 0). */
  lemma PercentileIsNearestRank(values: seq<int>, q: nat)
    requires q <= 100 && values != [] && Sorted(values)
    ensures var v := Percentile(values, q).value;
      && v in values && 100 * CountUpTo(values, v) >= q * |values|
      && (q > 0 ==> 100 * CountBelow(values, v) < q * |values|)
      && (q == 0 ==> CountBelow(values, v) == 0)
  {
    hide CountBelow;
    var n := |values|;
    RankIs(q, n);
    var rank := if CeilShare(q, n) > 1 then CeilShare(q, n) else 1;
    var v := values[rank - 1];
    CountBounds(values, v + 1, rank);
    CountBounds(values, v, rank - 1);
  }

  lemma RankIs(q: nat, n: nat)
    requires q <= 100 && n > 0
    ensures var r := CeilShare(q, n); r <= n && q * n <= 100 * r < q * n + 100 && (q > 0 ==> q * n > 0)
  {
    assert q * n <= 100 * n;
    if q > 0 { assert q * n > 0; }
  }
}
