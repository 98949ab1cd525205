/** Spearman rank correlation: Pearson's on tie-averaged ranks. */
module Spearman {
  import opened Ranks

  /** Sum of the products of the first `n` elements. */
  function Dot(u: seq<real>, w: seq<real>, n: nat): real
    requires n <= |u| && n <= |w|
  {
    if n == 0 then 0.0 else Dot(u, w, n - 1) + u[n - 1] * w[n - 1]
  }

  function Mean(x: seq<real>): real
    requires x != []
  {
    Sum(x, |x|) / |x| as real
  }

  function Deviations(x: seq<real>, m: real): (r: seq<real>)
    ensures |r| == |x|
  {
    seq(|x|, k requires 0 <= k < |x| => x[k] - m)
  }

  /** What is returned: NaN for fewer than five elements, 0 when a side has no spread, and else
      `num / sqrt(den2)`, kept as its two parts. */
  datatype Correlation = NotANumber | NoSpread | Ratio(num: real, den2: real)

  function Quotient(num: real, denA: real, denB: real): Correlation {
    var den2 := denA * denB;
    if den2 == 0.0 then NoSpread else Ratio(num, den2)
  }

  function Pearson(x: seq<real>, y: seq<real>): Correlation
    requires |x| == |y| > 0
  {
    var u, w, n := Deviations(x, Mean(x)), Deviations(y, Mean(y)), |x|;
    Quotient(Dot(u, w, n), Dot(u, u, n), Dot(w, w, n))
  }

  function Correlate(a: seq<real>, b: seq<real>): Correlation
    requires |a| == |b|
  {
    if |a| < 5 then NotANumber else Pearson(RanksOf(a), RanksOf(b))
  }

  method Total(x: array<real>) returns (s: real)
    ensures s == Sum(x[..], x.Length)
  {
    s := 0.0;
    for i := 0 to x.Length
      invariant s == Sum(x[..], i)
    {
      s := s + x[i];
    }
  }

  /** The loop over both rank arrays. */
  method Accumulate(x: array<real>, mx: real, y: array<real>, my: real) returns (num: real, denA: real, denB: real)
    requires x.Length == y.Length
    ensures var u, w, n := Deviations(x[..], mx), Deviations(y[..], my), x.Length;
            num == Dot(u, w, n) && denA == Dot(u, u, n) && denB == Dot(w, w, n)
  {
    ghost var u, w := Deviations(x[..], mx), Deviations(y[..], my);
    num, denA, denB := 0.0, 0.0, 0.0;
    for i := 0 to x.Length
      invariant num == Dot(u, w, i)
      invariant denA == Dot(u, u, i)
      invariant denB == Dot(w, w, i)
    {
      var da := x[i] - mx;
      var db := y[i] - my;
      assert da == u[i] && db == w[i];
      num := num + da * db;
      denA := denA + da * da;
      denB := denB + db * db;
    }
  }

  method SpearmanRankIC(a: seq<real>, b: seq<real>) returns (r: Correlation)
    requires |a| == |b|
    ensures r == Correlate(a, b)
    ensures r.NotANumber? <==> |a| < 5
    ensures |a| >= 5 ==>
              var x, y := RanksOf(a), RanksOf(b);
              r == Quotient(CentredSum(x, y), CentredSum(x, x), CentredSum(y, y))
  {
    CorrelationOfRanks(a, b);
    var n := |a|;
    if n < 5 {
      return NotANumber;
    }
    var rankA := RankArray(a);
    var rankB := RankArray(b);
    var totalA := Total(rankA);
    var totalB := Total(rankB);
    var num, denA, denB := Accumulate(rankA, totalA / n as real, rankB, totalB / n as real);
    r := Quotient(num, denA, denB);
  }

  // The value in terms of the ranks

  /** Sum of the products, less what it would be if all ranks were `(n + 1) / 2`. */
  function CentredSum(x: seq<real>, y: seq<real>): real
    requires |x| == |y|
  {
    Dot(x, y, |x|) - Baseline(|x|)
  }

  function Baseline(n: nat): real { n as real * ((n + 1) as real) * ((n + 1) as real) / 4.0 }

  lemma ShiftStep(dots: real, products: real, sum: real, x: real, m: real, u: real, y: real, t: real, dots': real, products': real, sum': real)
    requires dots == products - m * sum && u == x - m && t == x * y
    requires dots' == dots + u * y && products' == products + t && sum' == sum + y
    ensures dots' == products' - m * sum'
  {
    assert u * y == t - m * y;
    assert m * sum' == m * sum + m * y;
  }

  lemma {:induction false} ShiftOne(x: seq<real>, m: real, y: seq<real>, n: nat)
    requires n <= |x| && n <= |y|
    ensures Dot(Deviations(x, m), y, n) == Dot(x, y, n) - m * Sum(y, n)
  {
    if n > 0 {
      ShiftOne(x, m, y, n - 1);
      var u := Deviations(x, m);
      ShiftStep(Dot(u, y, n - 1), Dot(x, y, n - 1), Sum(y, n - 1), x[n - 1], m, u[n - 1], y[n - 1], x[n - 1] * y[n - 1],
                Dot(u, y, n), Dot(x, y, n), Sum(y, n));
    }
  }

  lemma {:induction false} SumOfDeviations(x: seq<real>, m: real, n: nat)
    requires n <= |x|
    ensures Sum(Deviations(x, m), n) == Sum(x, n) - n as real * m
  {
    if n > 0 {
      SumOfDeviations(x, m, n - 1);
      assert n as real * m == (n - 1) as real * m + m;
    }
  }

  lemma ShiftBy(x: seq<real>, m: real, y: seq<real>, n: nat, q: real)
    requires n <= |x| && n <= |y| && q == m * Sum(y, n)
    ensures Dot(Deviations(x, m), y, n) == Dot(x, y, n) - q
  {
    ShiftOne(x, m, y, n);
  }

  lemma ShiftedSum(x: seq<real>, mx: real, my: real, n: nat, p: real, r: real, t: real)
    requires n <= |x| && p == my * Sum(x, n) && r == n as real * (mx * my) && t == my * Sum(Deviations(x, mx), n)
    ensures t == p - r
  {
    SumOfDeviations(x, mx, n);
    Distribute(my, Sum(x, n), n as real, mx, Sum(Deviations(x, mx), n));
  }

  lemma Distribute(m: real, sum: real, n: real, k: real, shifted: real)
    requires shifted == sum - n * k
    ensures m * shifted == m * sum - n * (k * m)
  {
    var t := n * k;
    assert m * shifted == m * sum - m * t;
    assert m * t == n * (k * m);
  }

  lemma {:induction false} ShiftSecond(u: seq<real>, y: seq<real>, m: real, n: nat)
    requires n <= |u| && n <= |y|
    ensures Dot(u, Deviations(y, m), n) == Dot(u, y, n) - m * Sum(u, n)
  {
    if n > 0 {
      ShiftSecond(u, y, m, n - 1);
      var w := Deviations(y, m);
      ShiftStep(Dot(u, w, n - 1), Dot(u, y, n - 1), Sum(u, n - 1), y[n - 1], m, w[n - 1], u[n - 1], y[n - 1] * u[n - 1],
                Dot(u, w, n), Dot(u, y, n), Sum(u, n));
    }
  }

  lemma ShiftSecondBy(u: seq<real>, y: seq<real>, m: real, n: nat, t: real)
    requires n <= |u| && n <= |y| && t == m * Sum(u, n)
    ensures Dot(u, Deviations(y, m), n) == Dot(u, y, n) - t
  {
    ShiftSecond(u, y, m, n);
  }

  lemma DotShift(x: seq<real>, mx: real, y: seq<real>, my: real, n: nat, p: real, q: real, r: real, u: seq<real>, t: real)
    requires n <= |x| && n <= |y| && u == Deviations(x, mx) && t == my * Sum(u, n) && t == p - r
    requires q == mx * Sum(y, n)
    ensures Dot(u, Deviations(y, my), n) == Dot(x, y, n) - p - q + r
  {
    ShiftBy(x, mx, y, n, q);
    ShiftSecondBy(u, y, my, n, t);
  }

  /** Sums of products of deviations from a common mean. */
  lemma CentredSums(x: seq<real>, y: seq<real>, n: nat, m: real, p: real, r: real, c: real, u: seq<real>, t: real)
    requires |x| == |y| == n && Sum(x, n) == Sum(y, n) && u == Deviations(x, m)
    requires p == m * Sum(y, n) && t == m * Sum(u, n) && t == p - r && r - p - p == - c
    ensures Dot(u, Deviations(y, m), n) == Dot(x, y, n) - c
  {
    DotShift(x, m, y, m, n, p, p, r, u, t);
  }

  lemma RanksAround(x: seq<real>, y: seq<real>, n: nat, m: real, total: real)
    requires |x| == |y| == n && Sum(x, n) == total && Sum(y, n) == total
    requires m == (n + 1) as real / 2.0 && total == (n * (n + 1)) as real / 2.0
    ensures Dot(Deviations(x, m), Deviations(y, m), n) == CentredSum(x, y)
  {
    var p, r, c := m * total, n as real * (m * m), Baseline(n);
    BaselineOfMeans(n, m, total, p, r);
    RanksAroundBy(x, y, n, m, total, p, r, c);
  }

  lemma RanksAroundBy(x: seq<real>, y: seq<real>, n: nat, m: real, total: real, p: real, r: real, c: real)
    requires |x| == |y| == n && Sum(x, n) == total && Sum(y, n) == total
    requires p == m * total && r == n as real * (m * m) && r - p - p == - c
    ensures Dot(Deviations(x, m), Deviations(y, m), n) == Dot(x, y, n) - c
  {
    var u := Deviations(x, m);
    var t := m * Sum(u, n);
    ShiftedSum(x, m, m, n, p, r, t);
    CentredSums(x, y, n, m, p, r, c, u, t);
  }

  /** The ranks, their mean and their sum. */
  lemma RankFacts(a: seq<real>) returns (x: seq<real>, m: real, total: real)
    requires a != []
    ensures x == RanksOf(a) && m == Mean(x) && total == Sum(x, |a|)
    ensures m == (|a| + 1) as real / 2.0 && total == (|a| * (|a| + 1)) as real / 2.0
  {
    RankMean(a);
    RanksAddUp(a);
    x := RanksOf(a);
    m, total := Mean(x), Sum(x, |a|);
  }

  lemma RankMean(a: seq<real>)
    requires a != []
    ensures Mean(RanksOf(a)) == (|a| + 1) as real / 2.0
  {
    RanksAddUp(a);
    var n := |a| as real;
    assert (|a| * (|a| + 1)) as real == n * (|a| + 1) as real;
    DivideBack(n, (|a| + 1) as real / 2.0);
    assert (|a| * (|a| + 1)) as real / 2.0 == n * ((|a| + 1) as real / 2.0);
  }

  lemma BaselineOfMeans(n: nat, m: real, total: real, p: real, q: real)
    requires m == (n + 1) as real / 2.0 && total == (n * (n + 1)) as real / 2.0
    requires p == m * total && q == n as real * (m * m)
    ensures q - p - p == - Baseline(n)
  {
    var r, k := n as real, (n + 1) as real;
    assert (n * (n + 1)) as real == r * k;
    assert total == r * m;
    assert p == q;
    assert m * m == k * k / 4.0;
    assert q == r * k * k / 4.0;
  }

  /** The correlation is the quotient of the centred sums of the ranks; with fewer than five elements
      there is none. */
  lemma CorrelationOfRanks(a: seq<real>, b: seq<real>)
    requires |a| == |b|
    ensures Correlate(a, b) == NotANumber <==> |a| < 5
    ensures |a| >= 5 ==>
              var x, y := RanksOf(a), RanksOf(b);
              Correlate(a, b) == Quotient(CentredSum(x, y), CentredSum(x, x), CentredSum(y, y))
  {
    if |a| >= 5 {
      var x, m, total := RankFacts(a);
      var y, m', total' := RankFacts(b);
      RanksAround(x, y, |a|, m, total);
      RanksAround(x, x, |a|, m, total);
      RanksAround(y, y, |a|, m, total);
    }
  }

  // The bound

  lemma Squares(x: real)
    ensures x * x >= 0.0
  {
  }

  lemma SquareOrder(u: real, w: real)
    requires u >= 0.0 && w * w <= u * u
    ensures w <= u
  {
    if w > u { SquaresGrow(u, w); }
  }

  lemma SquaresGrow(u: real, w: real)
    requires w > u >= 0.0
    ensures w * w > u * u
  {
    Product(w - u, w + u);
    assert (w - u) * (w + u) == w * w - u * u;
  }

  lemma Product(u: real, w: real)
    requires u > 0.0 && w > 0.0
    ensures u * w > 0.0
  {
  }

  /** Twice the mixed product is at most the sum of the crossed squares. */
  lemma MixedProduct(A: real, B: real, C: real, x: real, y: real)
    requires A >= 0.0 && C >= 0.0 && B * B <= A * C
    ensures 2.0 * (B * (x * y)) <= A * (y * y) + C * (x * x)
  {
    var p, q, t := A * (y * y), C * (x * x), x * y;
    assert p >= 0.0 && q >= 0.0 by { Squares(x); Squares(y); }
    assert p * q == (A * C) * (t * t) by {
      assert p * q == A * C * ((y * y) * (x * x));
      assert (y * y) * (x * x) == t * t;
    }
    assert (B * t) * (B * t) <= p * q by {
      assert (B * t) * (B * t) == (B * B) * (t * t);
      Squares(t);
      Scale(B * B, A * C, t * t);
    }
    assert (2.0 * (B * t)) * (2.0 * (B * t)) == 4.0 * ((B * t) * (B * t));
    assert (p + q) * (p + q) == 4.0 * (p * q) + (p - q) * (p - q);
    Squares(p - q);
    SquareOrder(p + q, 2.0 * (B * t));
  }

  lemma Scale(u: real, w: real, k: real)
    requires u <= w && k >= 0.0
    ensures u * k <= w * k
  {
    assert (w - u) * k >= 0.0;
  }

  ghost predicate Bounded(num: real, denA: real, denB: real) {
    denA >= 0.0 && denB >= 0.0 && num * num <= denA * denB
  }

  lemma OneMoreTerm(A: real, B: real, C: real, A': real, B': real, C': real, x: real, y: real)
    requires Bounded(B, A, C)
    requires A' == A + x * x && B' == B + x * y && C' == C + y * y
    ensures Bounded(B', A', C')
  {
    Squares(x);
    Squares(y);
    MixedProduct(A, B, C, x, y);
    var t := x * y;
    assert (B + t) * (B + t) == B * B + 2.0 * (B * t) + t * t;
    assert (A + x * x) * (C + y * y) == A * C + A * (y * y) + C * (x * x) + (x * x) * (y * y);
    assert (x * x) * (y * y) == t * t;
  }

  /** The numerator's square is at most the product of the two sums of squares. */
  lemma {:induction false} CauchySchwarz(u: seq<real>, w: seq<real>, n: nat)
    requires n <= |u| && n <= |w|
    ensures Bounded(Dot(u, w, n), Dot(u, u, n), Dot(w, w, n))
  {
    if n > 0 {
      CauchySchwarz(u, w, n - 1);
      OneMoreTerm(Dot(u, u, n - 1), Dot(u, w, n - 1), Dot(w, w, n - 1), Dot(u, u, n), Dot(u, w, n), Dot(w, w, n),
                  u[n - 1], w[n - 1]);
    }
  }

  /** The quotient by the root lies between -1 and 1. */
  lemma CorrelationIsBounded(a: seq<real>, b: seq<real>, root: real)
    requires |a| == |b| && Correlate(a, b).Ratio?
    requires root >= 0.0 && root * root == Correlate(a, b).den2
    ensures root > 0.0 && -1.0 <= Correlate(a, b).num / root <= 1.0
  {
    PearsonIsBounded(RanksOf(a), RanksOf(b), Correlate(a, b), root);
  }

  lemma PearsonIsBounded(x: seq<real>, y: seq<real>, r: Correlation, root: real)
    requires |x| == |y| > 0 && r == Pearson(x, y) && r.Ratio?
    requires root >= 0.0 && root * root == r.den2
    ensures root > 0.0 && -1.0 <= r.num / root <= 1.0
  {
    CauchySchwarz(Deviations(x, Mean(x)), Deviations(y, Mean(y)), |x|);
    QuotientIsBounded(r.num, root);
  }

  lemma QuotientIsBounded(num: real, root: real)
    requires root >= 0.0 && root * root != 0.0 && num * num <= root * root
    ensures root > 0.0 && -1.0 <= num / root <= 1.0
  {
    SquareOrder(root, num);
    SquareOrder(root, -num);
    Divides(num, root);
  }

  lemma Divides(num: real, root: real)
    requires root > 0.0 && -root <= num <= root
    ensures -1.0 <= num / root <= 1.0
  {
    var q := num / root;
    assert q * root == num;
    if q > 1.0 { Product(q - 1.0, root); }
    if q < -1.0 { Product(-1.0 - q, root); }
  }

  // Symmetry and invariance

  lemma {:induction false} DotCommutes(u: seq<real>, w: seq<real>, n: nat)
    requires n <= |u| && n <= |w|
    ensures Dot(u, w, n) == Dot(w, u, n)
  {
    if n > 0 { DotCommutes(u, w, n - 1); }
  }

  lemma CorrelationIsSymmetric(a: seq<real>, b: seq<real>)
    requires |a| == |b|
    ensures Correlate(a, b) == Correlate(b, a)
  {
    if |a| >= 5 { PearsonIsSymmetric(RanksOf(a), RanksOf(b)); }
  }

  lemma PearsonIsSymmetric(x: seq<real>, y: seq<real>)
    requires |x| == |y| > 0
    ensures Pearson(x, y) == Pearson(y, x)
  {
    DotCommutes(Deviations(x, Mean(x)), Deviations(y, Mean(y)), |x|);
  }

  /** A strictly increasing transformation of either input changes nothing. */
  lemma CorrelationDependsOnOrder(a: seq<real>, a': seq<real>, b: seq<real>, b': seq<real>)
    requires |a| == |b| && SameOrder(a, a') && SameOrder(b, b')
    ensures Correlate(a, b) == Correlate(a', b')
  {
    RanksDependOnOrder(a, a');
    RanksDependOnOrder(b, b');
  }

  /** Inputs in the same order correlate perfectly: the numerator is the root. */
  lemma SameOrderIsPerfect(a: seq<real>, b: seq<real>)
    requires SameOrder(a, b)
    ensures var r := Correlate(a, b); r.Ratio? ==> r.num > 0.0 && r.num * r.num == r.den2
  {
    RanksDependOnOrder(a, b);
    if |a| >= 5 { PearsonWithItself(RanksOf(a)); }
  }

  lemma PearsonWithItself(x: seq<real>)
    requires x != []
    ensures var r := Pearson(x, x); r.Ratio? ==> r.num > 0.0 && r.num * r.num == r.den2
  {
    CauchySchwarz(Deviations(x, Mean(x)), Deviations(x, Mean(x)), |x|);
  }

  // No spread

  lemma SquareSign(x: real, p: real)
    requires p == x * x
    ensures p >= 0.0 && (p == 0.0 <==> x == 0.0)
  {
    if x > 0.0 { ProductSign(x, x, p); }
    if x < 0.0 { ProductSign(-x, -x, p); }
  }

  lemma ProductSign(u: real, w: real, p: real)
    requires u > 0.0 && w > 0.0 && p == u * w
    ensures p > 0.0
  {
    Product(u, w);
  }

  lemma {:induction false} SpreadIsZero(u: seq<real>, n: nat)
    requires n <= |u|
    ensures Dot(u, u, n) >= 0.0
    ensures Dot(u, u, n) == 0.0 <==> forall k :: 0 <= k < n ==> u[k] == 0.0
  {
    if n > 0 {
      SpreadIsZero(u, n - 1);
      AddSquare(Dot(u, u, n - 1), u[n - 1], Dot(u, u, n));
    }
  }

  lemma AddSquare(s: real, d: real, t: real)
    requires s >= 0.0 && t == s + d * d
    ensures t >= 0.0
    ensures t == 0.0 <==> s == 0.0 && d == 0.0
  {
    SquareSign(d, t - s);
  }

  lemma {:induction false} SumOfConstant(x: seq<real>, c: real, n: nat)
    requires n <= |x| && forall k :: 0 <= k < n ==> x[k] == c
    ensures Sum(x, n) == n as real * c
  {
    if n > 0 {
      SumOfConstant(x, c, n - 1);
      assert n as real * c == (n - 1) as real * c + c;
    }
  }

  ghost predicate Constant(a: seq<real>) {
    forall j, k :: 0 <= j < |a| && 0 <= k < |a| ==> a[j] == a[k]
  }

  lemma MeanOfConstant(x: seq<real>)
    requires x != [] && Constant(x)
    ensures Mean(x) == x[0]
  {
    SumOfConstant(x, x[0], |x|);
    DivideBack(|x| as real, x[0]);
  }

  lemma DivideBack(n: real, c: real)
    requires n > 0.0
    ensures n * c / n == c
  {
    var p := n * c;
    Quotients(p, n, c, p / n);
  }

  lemma Quotients(p: real, n: real, c: real, q: real)
    requires n > 0.0 && p == n * c && p == q * n
    ensures q == c
  {
    assert (q - c) * n == 0.0;
    if q > c { Product(q - c, n); }
    if q < c { Product(c - q, n); }
  }

  lemma Spread(x: seq<real>)
    requires x != []
    ensures var u := Deviations(x, Mean(x)); Dot(u, u, |x|) == 0.0 <==> Constant(x)
  {
    var u := Deviations(x, Mean(x));
    SpreadIsZero(u, |x|);
    if Constant(x) { MeanOfConstant(x); }
    if forall k :: 0 <= k < |x| ==> u[k] == 0.0 {
      forall j, k | 0 <= j < |x| && 0 <= k < |x| ensures x[j] == x[k] {
        assert u[j] == 0.0 && u[k] == 0.0;
      }
    }
  }

  lemma RanksSpread(a: seq<real>)
    ensures Constant(RanksOf(a)) <==> Constant(a)
  {
    var x := RanksOf(a);
    forall j, k | 0 <= j < |a| && 0 <= k < |a| ensures x[j] == x[k] <==> a[j] == a[k] {
      RanksOrder(a, j, k);
    }
  }

  lemma PearsonNeedsSpread(x: seq<real>, y: seq<real>)
    requires |x| == |y| > 0
    ensures Pearson(x, y) == NoSpread <==> Constant(x) || Constant(y)
  {
    Spread(x);
    Spread(y);
  }

  /** The special case 0 is returned exactly when one input is constant. */
  lemma NoSpreadIffConstant(a: seq<real>, b: seq<real>)
    requires |a| == |b| >= 5
    ensures Correlate(a, b) == NoSpread <==> Constant(a) || Constant(b)
  {
    RanksSpread(a);
    RanksSpread(b);
    PearsonNeedsSpread(RanksOf(a), RanksOf(b));
  }
}
