/**
 The measured consensus (velune/cognition/consensus.py) over exact reals: what the judges' scores,
 pass flags and the challenger's severity make of a confidence.
 */
module Consensus {

  datatype Verdict = Verdict(usable: bool, score: real, passed: bool)

  datatype Signals = Signals(
    passRate: real, mean: real, variance: real, severity: real,
    scores: seq<real>, passed: seq<bool>)

  // ---- definitions ----

  function Sum(s: seq<real>): real {
    if s == [] then 0.0 else s[0] + Sum(s[1..])
  }

  function Square(x: real): real {
    x * x
  }

  function SquaresAbout(s: seq<real>, m: real): real {
    if s == [] then 0.0 else Square(s[0] - m) + SquaresAbout(s[1..], m)
  }

  function Passes(s: seq<bool>): nat {
    if s == [] then 0 else (if s[0] then 1 else 0) + Passes(s[1..])
  }

  function Mean(s: seq<real>): real {
    if s == [] then 0.5 else Sum(s) / |s| as real
  }

  function Variance(s: seq<real>): real {
    if s == [] then 0.0 else SquaresAbout(s, Mean(s)) / |s| as real
  }

  function PassRate(s: seq<bool>): real {
    if s == [] then 1.0 else Passes(s) as real / |s| as real
  }

  function Clamp(x: real): real {
    if x < 0.0 then 0.0 else if x > 1.0 then 1.0 else x
  }

  function Min(x: real, y: real): real {
    if x <= y then x else y
  }

  function AgreementRate(g: Signals): real {
    Clamp(0.5 * g.passRate + 0.3 * (1.0 - Min(g.variance * 4.0, 1.0)) + 0.2 * (1.0 - g.severity))
  }

  function Discounted(mean: real, severity: real): real {
    mean * (1.0 - 0.5 * severity)
  }

  function LogicScore(g: Signals): real {
    Clamp(Discounted(g.mean, g.severity))
  }

  function Blend(g: Signals, accuracy: real): real {
    g.mean * 0.2 + AgreementRate(g) * 0.4 + accuracy * 0.25 + LogicScore(g) * 0.15
  }

  /** Confidence before rounding to three places. */
  function Confidence(g: Signals, accuracy: real): real {
    Clamp(Blend(g, accuracy))
  }

  ghost predicate Unit(s: seq<real>) {
    forall k :: 0 <= k < |s| ==> 0.0 <= s[k] <= 1.0
  }

  function SignalsOf(scores: seq<real>, passed: seq<bool>, severity: real): Signals {
    Signals(PassRate(passed), Mean(scores), Variance(scores), Clamp(severity), scores, passed)
  }

  // ---- measuring ----

  /** The usable verdicts in order: the reviewer first, then the critics. */
  function Usable(vs: seq<Verdict>): (r: seq<Verdict>)
    ensures forall v :: v in r <==> v in vs && v.usable
  {
    if vs == [] then []
    else
      var rest := Usable(vs[1..]);
      if vs[0].usable then [vs[0]] + rest else rest
  }

  function Scores(vs: seq<Verdict>): (r: seq<real>)
    ensures |r| == |vs|
  {
    seq(|vs|, k requires 0 <= k < |vs| => vs[k].score)
  }

  function Flags(vs: seq<Verdict>): (r: seq<bool>)
    ensures |r| == |vs|
  {
    seq(|vs|, k requires 0 <= k < |vs| => vs[k].passed)
  }

  lemma UsableFirst(v: Verdict, rest: seq<Verdict>)
    ensures Usable([v] + rest) == if v.usable then [v] + Usable(rest) else Usable(rest)
  {
    assert ([v] + rest)[1..] == rest;
  }

  lemma UsableNone()
    ensures Usable([]) == []
  {
  }

  lemma {:induction false} UsableAppend(vs: seq<Verdict>, v: Verdict)
    ensures Usable(vs + [v]) == Usable(vs) + if v.usable then [v] else []
  {
    hide Usable;
    if vs == [] {
      UsableNone();
      UsableFirst(v, []);
      assert [] + [v] == [v] + [];
    } else {
      var rest := vs[1..];
      assert vs == [vs[0]] + rest && vs + [v] == [vs[0]] + (rest + [v]);
      UsableAppend(rest, v);
      UsableFirst(vs[0], rest);
      UsableFirst(vs[0], rest + [v]);
    }
  }

  lemma {:induction false} SumAppend(s: seq<real>, x: real)
    ensures Sum(s + [x]) == Sum(s) + x
  {
    if s == [] {
      assert [x][1..] == [];
    } else {
      assert (s + [x])[1..] == s[1..] + [x];
      SumAppend(s[1..], x);
    }
  }

  lemma {:induction false} SquaresAppend(s: seq<real>, x: real, m: real)
    ensures SquaresAbout(s + [x], m) == SquaresAbout(s, m) + Square(x - m)
  {
    hide Square;
    if s == [] {
      assert [x][1..] == [];
    } else {
      assert (s + [x])[1..] == s[1..] + [x];
      SquaresAppend(s[1..], x, m);
    }
  }

  lemma {:induction false} PassesAppend(s: seq<bool>, p: bool)
    ensures Passes(s + [p]) == Passes(s) + if p then 1 else 0
  {
    if s == [] {
      assert [p][1..] == [];
    } else {
      assert (s + [p])[1..] == s[1..] + [p];
      PassesAppend(s[1..], p);
    }
  }

  lemma {:induction false} PassesBound(s: seq<bool>)
    ensures Passes(s) <= |s|
    ensures Passes(s) == |s| <==> forall k :: 0 <= k < |s| ==> s[k]
  {
    if s != [] {
      PassesBound(s[1..]);
      assert forall k :: 0 <= k < |s| - 1 ==> s[1..][k] == s[k + 1];
      if forall k :: 0 <= k < |s[1..]| ==> s[1..][k] {
        assert forall k :: 1 <= k < |s| ==> s[k] == s[1..][k - 1];
      }
    }
  }

  method AddUp(s: seq<real>) returns (total: real)
    ensures total == Sum(s)
  {
    total := 0.0;
    for k := 0 to |s|
      invariant total == Sum(s[..k])
    {
      assert s[..k + 1] == s[..k] + [s[k]];
      SumAppend(s[..k], s[k]);
      total := total + s[k];
    }
    assert s[..|s|] == s;
  }

  method AddUpSquares(s: seq<real>, m: real) returns (total: real)
    ensures total == SquaresAbout(s, m)
  {
    total := 0.0;
    for k := 0 to |s|
      invariant total == SquaresAbout(s[..k], m)
    {
      assert s[..k + 1] == s[..k] + [s[k]];
      SquaresAppend(s[..k], s[k], m);
      total := total + Square(s[k] - m);
    }
    assert s[..|s|] == s;
  }

  method CountPasses(s: seq<bool>) returns (total: nat)
    ensures total == Passes(s)
  {
    total := 0;
    for k := 0 to |s|
      invariant total == Passes(s[..k])
    {
      assert s[..k + 1] == s[..k] + [s[k]];
      PassesAppend(s[..k], s[k]);
      if s[k] {
        total := total + 1;
      }
    }
    assert s[..|s|] == s;
  }

  lemma OneMore(seen: seq<Verdict>, v: Verdict)
    ensures Scores(seen + [v]) == Scores(seen) + [v.score] && Flags(seen + [v]) == Flags(seen) + [v.passed]
  {
  }

  method Collect(reviewer: Verdict, critics: seq<Verdict>) returns (scores: seq<real>, passed: seq<bool>)
    ensures scores == Scores(Usable([reviewer] + critics)) && passed == Flags(Usable([reviewer] + critics))
  {
    scores, passed := [], [];
    if reviewer.usable {
      scores, passed := [reviewer.score], [reviewer.passed];
    }
    ghost var seen := Usable([reviewer]);
    assert [reviewer][1..] == [];
    for k := 0 to |critics|
      invariant seen == Usable([reviewer] + critics[..k])
      invariant scores == Scores(seen) && passed == Flags(seen)
    {
      hide Usable, Scores, Flags;
      OneMore(seen, critics[k]);
      assert [reviewer] + critics[..k + 1] == ([reviewer] + critics[..k]) + [critics[k]];
      UsableAppend([reviewer] + critics[..k], critics[k]);
      seen := seen + if critics[k].usable then [critics[k]] else [];
      if critics[k].usable {
        scores := scores + [critics[k].score];
        passed := passed + [critics[k].passed];
      }
    }
    assert critics[..|critics|] == critics;
  }

  /** The signals see the usable verdicts alone, the challenger's severity only when it is usable. */
  method MeasureAgreement(reviewer: Verdict, critics: seq<Verdict>, challengerUsable: bool, severity: real)
    returns (signals: Signals)
    ensures var seen := Usable([reviewer] + critics);
            signals == SignalsOf(Scores(seen), Flags(seen), if challengerUsable then severity else 0.0)
  {
    hide Mean, Variance, PassRate, Clamp, Usable, Scores, Flags;
    var scores, passed := Collect(reviewer, critics);
    var mean, variance := Spread(scores);
    var rate := PassShare(passed);
    signals := Signals(rate, mean, variance, Clamp(if challengerUsable then severity else 0.0), scores, passed);
  }

  method Spread(scores: seq<real>) returns (mean: real, variance: real)
    ensures mean == Mean(scores) && variance == Variance(scores)
  {
    mean, variance := 0.5, 0.0;
    if scores != [] {
      var total := AddUp(scores);
      mean := total / |scores| as real;
      var squares := AddUpSquares(scores, mean);
      variance := squares / |scores| as real;
    }
  }

  method PassShare(passed: seq<bool>) returns (rate: real)
    ensures rate == PassRate(passed)
  {
    rate := 1.0;
    if passed != [] {
      var passes := CountPasses(passed);
      rate := passes as real / |passed| as real;
    }
  }

  // ---- bounds ----

  lemma {:induction false} SumBounds(s: seq<real>)
    requires Unit(s)
    ensures 0.0 <= Sum(s) <= |s| as real
    ensures Sum(s) == |s| as real <==> forall k :: 0 <= k < |s| ==> s[k] == 1.0
  {
    if s != [] {
      var rest := s[1..];
      assert Unit(rest);
      SumBounds(rest);
      assert forall k :: 1 <= k < |s| ==> s[k] == rest[k - 1];
      assert forall k :: 0 <= k < |rest| ==> rest[k] == s[k + 1];
    }
  }

  function SumOfSquares(s: seq<real>): real {
    if s == [] then 0.0 else Square(s[0]) + SumOfSquares(s[1..])
  }

  lemma SquareExpand(x: real, m: real)
    ensures Square(x - m) == Square(x) - 2.0 * m * x + m * m
  {
  }

  /** The squares about m of n values, from the sum of their squares and their sum. */
  function Expanded(q: real, m: real, sum: real, n: real): real {
    q - 2.0 * m * sum + n * m * m
  }

  lemma ExpandNothing(m: real)
    ensures Expanded(0.0, m, 0.0, 0.0) == 0.0
  {
  }

  lemma ExpandStep(x: real, m: real, about: real, q: real, sum: real, n: real)
    requires about == Expanded(q, m, sum, n)
    ensures Square(x - m) + about == Expanded(Square(x) + q, m, x + sum, n + 1.0)
  {
    SquareExpand(x, m);
    CrossStep(x, m, sum, n);
  }

  lemma CrossStep(x: real, m: real, sum: real, n: real)
    ensures 2.0 * m * (x + sum) == 2.0 * m * x + 2.0 * m * sum
    ensures (n + 1.0) * m * m == m * m + n * m * m
  {
  }

  lemma {:induction false} SquaresExpand(s: seq<real>, m: real)
    ensures SquaresAbout(s, m) == Expanded(SumOfSquares(s), m, Sum(s), |s| as real)
  {
    hide Square, Expanded;
    assert s == [] ==> Expanded(0.0, m, 0.0, 0.0) == 0.0 by { ExpandNothing(m); }
    if s != [] {
      SquaresExpand(s[1..], m);
      assert |s| as real == |s[1..]| as real + 1.0;
      ExpandStep(s[0], m, SquaresAbout(s[1..], m), SumOfSquares(s[1..]), Sum(s[1..]), |s[1..]| as real);
    }
  }

  lemma CrossTerms(q: real, m: real, sum: real, n: real)
    requires sum == m * n
    ensures Expanded(q, m, sum, n) == q - m * sum
  {
    assert n * m * m == m * (m * n) == m * sum;
    assert 2.0 * m * sum == 2.0 * (m * sum);
  }

  lemma Quotient(x: real, n: nat)
    requires n > 0
    ensures x / n as real * n as real == x
  {
  }

  /** n times the variance, without any division by n but the mean's own. */
  lemma ScaledVariance(s: seq<real>)
    requires s != []
    ensures Variance(s) * |s| as real == SumOfSquares(s) - Mean(s) * Sum(s)
    ensures Mean(s) * |s| as real == Sum(s)
  {
    hide Sum, SumOfSquares, SquaresAbout, Expanded;
    SquaresExpand(s, Mean(s));
    Quotient(Sum(s), |s|);
    Quotient(SquaresAbout(s, Mean(s)), |s|);
    CrossTerms(SumOfSquares(s), Mean(s), Sum(s), |s| as real);
  }

  lemma UnitSquare(x: real)
    requires 0.0 <= x <= 1.0
    ensures Square(x) <= x
  {
    NonNegative(x, 1.0 - x);
    assert x * (1.0 - x) == x - x * x;
  }

  lemma NonNegative(a: real, b: real)
    requires a >= 0.0 && b >= 0.0
    ensures a * b >= 0.0
  {
  }

  lemma {:induction false} SquaresAtMostSum(s: seq<real>)
    requires Unit(s)
    ensures SumOfSquares(s) <= Sum(s)
  {
    if s != [] {
      assert Unit(s[1..]);
      SquaresAtMostSum(s[1..]);
      UnitSquare(s[0]);
    }
  }

  lemma {:induction false} SquaresNonNegative(s: seq<real>, m: real)
    ensures SquaresAbout(s, m) >= 0.0
  {
    if s != [] {
      SquaresNonNegative(s[1..], m);
      assert Square(s[0] - m) >= 0.0;
    }
  }

  lemma DivideBound(x: real, n: nat, lo: real, hi: real)
    requires n > 0 && lo * n as real <= x <= hi * n as real
    ensures lo <= x / n as real <= hi
  {
    var y, d := x / n as real, n as real;
    assert y * d == x;
    assert y < lo ==> y * d < lo * d;
    assert y > hi ==> y * d > hi * d;
  }

  lemma MeanBounds(s: seq<real>)
    requires Unit(s)
    ensures 0.0 <= Mean(s) <= 1.0
    ensures s != [] ==> Mean(s) * |s| as real == Sum(s)
  {
    if s != [] {
      SumBounds(s);
      DivideBound(Sum(s), |s|, 0.0, 1.0);
    }
  }

  lemma QuarterBound(m: real)
    ensures m * (1.0 - m) <= 0.25
  {
    assert (m - 0.5) * (m - 0.5) >= 0.0;
    assert (m - 0.5) * (m - 0.5) == m * m - m + 0.25;
  }

  lemma MeanProduct(m: real, n: real, sum: real)
    requires sum == m * n
    ensures m * (1.0 - m) * n == sum - m * sum
  {
    assert m * (1.0 - m) * n == (1.0 - m) * (m * n);
  }

  /** For any number of scores in [0,1] the variance is at most mean * (1 - mean), hence at most 1/4. */
  lemma VarianceBound(s: seq<real>)
    requires Unit(s)
    ensures 0.0 <= Variance(s) <= Mean(s) * (1.0 - Mean(s)) <= 0.25
  {
    if s != [] {
      hide Mean, Variance, Unit;
      VarianceShare(s);
    }
    QuarterBound(Mean(s));
  }

  function Product(a: real, b: real): real {
    a * b
  }

  lemma VarianceShare(s: seq<real>)
    requires Unit(s) && s != []
    ensures 0.0 <= Variance(s) <= Product(Mean(s), 1.0 - Mean(s))
  {
    hide Sum, SumOfSquares, SquaresAbout, Unit, Variance, Mean, Product;
    ScaledProducts(s);
    SquaresAtMostSum(s);
    ShareBound(Variance(s), Mean(s), |s| as real, SumOfSquares(s), Sum(s));
  }

  lemma ScaledProducts(s: seq<real>)
    requires s != []
    ensures Product(Variance(s), |s| as real) == SumOfSquares(s) - Product(Mean(s), Sum(s))
    ensures Product(Mean(s), |s| as real) == Sum(s) && Product(Variance(s), |s| as real) >= 0.0
  {
    hide Sum, SumOfSquares, SquaresAbout, Variance, Mean;
    ScaledVariance(s);
    VarianceIs(s);
    SquaresNonNegative(s, Mean(s));
  }

  lemma VarianceIs(s: seq<real>)
    requires s != []
    ensures Variance(s) * |s| as real == SquaresAbout(s, Mean(s))
  {
    hide Sum, SquaresAbout;
    Quotient(SquaresAbout(s, Mean(s)), |s|);
  }

  /** A share `v` of n squares that add up to no more than their roots do. */
  lemma ShareBound(v: real, m: real, n: real, squares: real, sum: real)
    requires n > 0.0 && Product(v, n) == squares - Product(m, sum) && Product(m, n) == sum
    requires squares <= sum && Product(v, n) >= 0.0
    ensures 0.0 <= v <= Product(m, 1.0 - m)
  {
    MeanProduct(m, n, sum);
    Cancels(0.0, v, n);
    Cancels(v, m * (1.0 - m), n);
  }

  lemma Cancels(a: real, b: real, n: real)
    requires n > 0.0 && a * n <= b * n
    ensures a <= b
  {
    if a > b {
      Grows(a, b, n);
      assert false;
    }
  }

  lemma Grows(a: real, b: real, n: real)
    requires n > 0.0 && a > b
    ensures a * n > b * n
  {
    NonNegative(a - b, n);
  }

  lemma PassRateBound(s: seq<bool>)
    ensures 0.0 <= PassRate(s) <= 1.0
    ensures PassRate(s) == 1.0 <==> forall k :: 0 <= k < |s| ==> s[k]
  {
    PassesBound(s);
    if s != [] {
      DivideBound(Passes(s) as real, |s|, 0.0, 1.0);
      if PassRate(s) == 1.0 {
        assert Passes(s) as real == |s| as real;
      }
    }
  }

  /** The whole blend without any clamp or minimum, which the bounds above make idle. */
  function Plain(mean: real, passRate: real, variance: real, severity: real, accuracy: real): real {
    0.2 * mean
    + 0.4 * (0.5 * passRate + 0.3 * (1.0 - 4.0 * variance) + 0.2 * (1.0 - severity))
    + 0.25 * accuracy
    + 0.15 * Discounted(mean, severity)
  }

  lemma ProductBounds(mean: real, severity: real)
    requires 0.0 <= mean <= 1.0 && 0.0 <= severity <= 1.0
    ensures 0.0 <= Discounted(mean, severity) <= mean
  {
    NonNegative(mean, 1.0 - 0.5 * severity);
    NonNegative(mean, 0.5 * severity);
    assert mean * (1.0 - 0.5 * severity) == mean - mean * (0.5 * severity);
  }

  /** No clamp ever acts: agreement, logic score and confidence lie in [0,1] by themselves. */
  lemma NothingIsClamped(scores: seq<real>, passed: seq<bool>, severity: real, accuracy: real)
    requires Unit(scores) && 0.0 <= severity <= 1.0 && 0.0 <= accuracy <= 1.0
    ensures var g := SignalsOf(scores, passed, severity);
            && AgreementRate(g) == 0.5 * g.passRate + 0.3 * (1.0 - g.variance * 4.0) + 0.2 * (1.0 - severity)
            && LogicScore(g) == Discounted(g.mean, severity)
            && Confidence(g, accuracy) == Blend(g, accuracy)
            && Blend(g, accuracy) == Plain(g.mean, g.passRate, g.variance, severity, accuracy)
            && 0.0 <= Confidence(g, accuracy) <= 1.0
  {
    VarianceBound(scores);
    MeanBounds(scores);
    PassRateBound(passed);
    ProductBounds(Mean(scores), severity);
    hide Discounted, Mean, Variance, PassRate, Unit;
  }

  /** Confidence is at most three quarters plus a quarter of the historical accuracy, and reaches that
      only for a unanimous pass at score one with no severity. */
  lemma ConfidenceCeiling(scores: seq<real>, passed: seq<bool>, severity: real, accuracy: real)
    requires Unit(scores) && 0.0 <= severity <= 1.0 && 0.0 <= accuracy <= 1.0
    ensures var c := Confidence(SignalsOf(scores, passed, severity), accuracy);
            && c <= 0.75 + 0.25 * accuracy
            && (c == 0.75 + 0.25 * accuracy <==>
                  && scores != [] && severity == 0.0
                  && (forall k :: 0 <= k < |scores| ==> scores[k] == 1.0)
                  && (forall k :: 0 <= k < |passed| ==> passed[k]))
  {
    NothingIsClamped(scores, passed, severity, accuracy);
    VarianceBound(scores);
    MeanBounds(scores);
    PassRateBound(passed);
    ProductBounds(Mean(scores), severity);
    MeanIsOne(scores);
    if Mean(scores) == 1.0 {
      assert Mean(scores) * (1.0 - Mean(scores)) == 0.0;
      assert severity == 0.0 ==> Discounted(1.0, severity) == 1.0;
    }
    hide Discounted, Mean, Variance, PassRate, Unit, Confidence, Blend, AgreementRate, LogicScore;
  }

  lemma MeanIsOne(scores: seq<real>)
    requires Unit(scores)
    ensures Mean(scores) == 1.0 <==> scores != [] && forall k :: 0 <= k < |scores| ==> scores[k] == 1.0
  {
    SumBounds(scores);
    if scores != [] {
      Quotient(Sum(scores), |scores|);
    }
  }

  lemma ConfidenceIsPlain(scores: seq<real>, passed: seq<bool>, severity: real, accuracy: real)
    requires Unit(scores) && 0.0 <= severity <= 1.0 && 0.0 <= accuracy <= 1.0
    ensures Confidence(SignalsOf(scores, passed, severity), accuracy)
         == Plain(Mean(scores), PassRate(passed), Variance(scores), severity, accuracy)
  {
    NothingIsClamped(scores, passed, severity, accuracy);
  }

  // ---- monotonicity ----

  lemma PlainInRate(mean: real, low: real, high: real, variance: real, severity: real, accuracy: real)
    requires low < high
    ensures Plain(mean, low, variance, severity, accuracy) < Plain(mean, high, variance, severity, accuracy)
  {
    hide Discounted;
  }

  lemma PlainInSeverity(mean: real, rate: real, variance: real, low: real, high: real, accuracy: real)
    requires low < high && mean >= 0.0
    ensures Plain(mean, rate, variance, high, accuracy) < Plain(mean, rate, variance, low, accuracy)
  {
    assert Discounted(mean, low) - Discounted(mean, high) == 0.5 * (mean * (high - low)) >= 0.0;
    hide Discounted;
  }

  /** Turning a pass into a fail always lowers confidence. */
  lemma FailNeverRaises(scores: seq<real>, passed: seq<bool>, k: nat, severity: real, accuracy: real)
    requires Unit(scores) && 0.0 <= severity <= 1.0 && 0.0 <= accuracy <= 1.0
    requires k < |passed| && passed[k]
    ensures Confidence(SignalsOf(scores, passed[k := false], severity), accuracy)
          < Confidence(SignalsOf(scores, passed, severity), accuracy)
  {
    OneFewer(passed, k);
    SmallerShare(Passes(passed), |passed|);
    assert PassRate(passed[k := false]) < PassRate(passed);
    hide Confidence, SignalsOf, Plain, PassRate, Mean, Variance;
    ConfidenceIsPlain(scores, passed, severity, accuracy);
    ConfidenceIsPlain(scores, passed[k := false], severity, accuracy);
    PlainInRate(Mean(scores), PassRate(passed[k := false]), PassRate(passed), Variance(scores), severity, accuracy);
  }

  lemma SmallerShare(p: nat, n: nat)
    requires n > 0 && p > 0
    ensures (p - 1) as real / n as real < p as real / n as real
  {
    var d := n as real;
    assert (p as real / d) * d == p as real && ((p - 1) as real / d) * d == (p - 1) as real;
  }

  lemma {:induction false} OneFewer(s: seq<bool>, k: nat)
    requires k < |s| && s[k]
    ensures Passes(s[k := false]) == Passes(s) - 1
  {
    if k == 0 {
      assert s[0 := false][1..] == s[1..];
    } else {
      assert s[k := false][1..] == s[1..][k - 1 := false];
      OneFewer(s[1..], k - 1);
    }
  }

  /** Raising the challenger's severity always lowers confidence. */
  lemma SeverityNeverRaises(scores: seq<real>, passed: seq<bool>, low: real, high: real, accuracy: real)
    requires Unit(scores) && 0.0 <= low < high <= 1.0 && 0.0 <= accuracy <= 1.0
    ensures Confidence(SignalsOf(scores, passed, high), accuracy)
          < Confidence(SignalsOf(scores, passed, low), accuracy)
  {
    MeanBounds(scores);
    hide Confidence, SignalsOf, Plain, PassRate, Mean, Variance;
    ConfidenceIsPlain(scores, passed, low, accuracy);
    ConfidenceIsPlain(scores, passed, high, accuracy);
    PlainInSeverity(Mean(scores), PassRate(passed), Variance(scores), low, high, accuracy);
  }

  // ---- one judge's score ----

  lemma {:induction false} ReplaceOne(s: seq<real>, k: nat, x: real)
    requires k < |s|
    ensures Sum(s[k := x]) == Sum(s) - s[k] + x
    ensures SumOfSquares(s[k := x]) == SumOfSquares(s) - Square(s[k]) + Square(x)
  {
    hide Square;
    if k == 0 {
      assert s[0 := x][1..] == s[1..];
    } else {
      assert s[k := x][1..] == s[1..][k - 1 := x];
      ReplaceOne(s[1..], k - 1, x);
    }
  }

  /** By how much the two distances from the mean, before and after, may add up. */
  function Allowance(severity: real): real {
    (0.35 - 0.075 * severity) / 0.48
  }

  /** n times the change of the blend when one score moves from a to x. */
  lemma GainIdentity(n: real, a: real, x: real, m: real, m': real, v: real, v': real,
                     q: real, q': real, sum: real, sum': real, severity: real)
    requires Moved(n, a, x, m, m', v, v', q, q', sum, sum')
    ensures (0.35 * (m' - m) - 0.48 * (v' - v) - 0.075 * severity * (m' - m)) * n
         == (x - a) * (0.35 - 0.075 * severity - 0.48 * ((a - m) + (x - m')))
  {
    var d := x - a;
    MeansMove(n, d, m, m', sum, sum');
    assert Square(x) - Square(a) == d * (x + a);
    assert (v' - v) * n == d * (x + a) - d * (m + m');
    Distribute(n, d, m' - m, v' - v, x + a, m + m', severity);
  }

  lemma MeansMove(n: real, d: real, m: real, m': real, sum: real, sum': real)
    requires m * n == sum && m' * n == sum' && sum' == sum + d
    ensures (m' - m) * n == d
    ensures m' * sum' - m * sum == d * (m + m')
  {
    assert (m' - m) * n == d;
    assert m' * sum' == m' * (m' * n) && m * sum == m * (m * n);
    assert m' * (m' * n) - m * (m * n) == ((m' - m) * n) * (m + m');
  }

  lemma Distribute(n: real, d: real, dm: real, dv: real, total: real, means: real, severity: real)
    requires dm * n == d && dv * n == d * total - d * means
    ensures (0.35 * dm - 0.48 * dv - 0.075 * severity * dm) * n
         == d * (0.35 - 0.075 * severity - 0.48 * (total - means))
  {
    assert (0.075 * severity * dm) * n == 0.075 * severity * (dm * n);
    assert (0.35 * dm - 0.48 * dv - 0.075 * severity * dm) * n
        == 0.35 * (dm * n) - 0.48 * (dv * n) - (0.075 * severity * dm) * n;
    assert d * (0.35 - 0.075 * severity - 0.48 * (total - means))
        == 0.35 * d - 0.075 * severity * d - 0.48 * (d * total - d * means);
  }

  lemma SignOfProduct(d: real, n: real, g: real, e: real)
    requires d > 0.0 && n > 0.0 && g * n == d * e
    ensures g >= 0.0 <==> e >= 0.0
  {
    if g >= 0.0 { assert g * n >= 0.0; assert e < 0.0 ==> d * e < 0.0; }
    if e >= 0.0 { assert d * e >= 0.0; assert g < 0.0 ==> g * n < 0.0; }
  }

  /** Raising one judge's score may lower confidence, because the spread grows too.  It does not,
      exactly when the judge's distances above the old and the new mean add up to no more than the
      allowance. */
  lemma HigherScoreRaisesIff(scores: seq<real>, k: nat, x: real, passed: seq<bool>, severity: real, accuracy: real)
    requires Unit(scores) && k < |scores| && scores[k] < x <= 1.0
    requires 0.0 <= severity <= 1.0 && 0.0 <= accuracy <= 1.0
    ensures var raised := scores[k := x];
            (Confidence(SignalsOf(raised, passed, severity), accuracy)
             >= Confidence(SignalsOf(scores, passed, severity), accuracy))
            <==> (scores[k] - Mean(scores)) + (x - Mean(raised)) <= Allowance(severity)
  {
    var raised, a, n := scores[k := x], scores[k], |scores| as real;
    assert Unit(raised);
    hide Confidence, SignalsOf, PassRate, Mean, Variance, Sum, SumOfSquares, Square, Plain, Allowance, Unit, Moved;
    ConfidenceIsPlain(scores, passed, severity, accuracy);
    ConfidenceIsPlain(raised, passed, severity, accuracy);
    ScoreMoved(scores, k, x);
    GainSign(n, a, x, Mean(scores), Mean(raised), Variance(scores), Variance(raised), SumOfSquares(scores),
             SumOfSquares(raised), Sum(scores), Sum(raised), PassRate(passed), severity, accuracy);
  }

  /** How mean and variance move when one of n scores moves from a to x. */
  predicate Moved(n: real, a: real, x: real, m: real, m': real, v: real, v': real,
                  q: real, q': real, sum: real, sum': real)
  {
    && n > 0.0 && m * n == sum && m' * n == sum' && sum' == sum + (x - a)
    && v * n == q - m * sum && v' * n == q' - m' * sum' && q' == q - Square(a) + Square(x)
  }

  lemma ScoreMoved(scores: seq<real>, k: nat, x: real)
    requires k < |scores|
    ensures var raised := scores[k := x];
            Moved(|scores| as real, scores[k], x, Mean(scores), Mean(raised), Variance(scores), Variance(raised),
                  SumOfSquares(scores), SumOfSquares(raised), Sum(scores), Sum(raised))
  {
    hide Mean, Variance, Sum, SumOfSquares, Square;
    ScaledVariance(scores);
    ScaledVariance(scores[k := x]);
    ReplaceOne(scores, k, x);
  }

  lemma GainSign(n: real, a: real, x: real, m: real, m': real, v: real, v': real, q: real, q': real,
                 sum: real, sum': real, rate: real, severity: real, accuracy: real)
    requires x > a && Moved(n, a, x, m, m', v, v', q, q', sum, sum')
    ensures Plain(m', rate, v', severity, accuracy) >= Plain(m, rate, v, severity, accuracy)
        <==> (a - m) + (x - m') <= Allowance(severity)
  {
    GainIdentity(n, a, x, m, m', v, v', q, q', sum, sum', severity);
    assert n > 0.0;
    hide Moved;
    PlainGain(m, m', v, v', rate, severity, accuracy);
    hide Plain, Square;
    var gain := 0.35 * (m' - m) - 0.48 * (v' - v) - 0.075 * severity * (m' - m);
    var excess := 0.35 - 0.075 * severity - 0.48 * ((a - m) + (x - m'));
    SignOfProduct(x - a, n, gain, excess);
    assert excess >= 0.0 <==> (a - m) + (x - m') <= Allowance(severity);
  }

  lemma PlainGain(m: real, m': real, v: real, v': real, rate: real, severity: real, accuracy: real)
    ensures Plain(m', rate, v', severity, accuracy) - Plain(m, rate, v, severity, accuracy)
         == 0.35 * (m' - m) - 0.48 * (v' - v) - 0.075 * severity * (m' - m)
  {
    assert Discounted(m, severity) == m - 0.5 * (m * severity);
    assert Discounted(m', severity) == m' - 0.5 * (m' * severity);
    hide Discounted;
    assert 0.075 * severity * (m' - m) == 0.075 * (m' * severity) - 0.075 * (m * severity);
  }

  /** Two judges, one at 0: raising the other from 0.8 to 1 lowers confidence. */
  lemma HigherScoreCanLower()
    ensures Confidence(SignalsOf([0.0, 1.0], [true, true], 0.0), 1.0)
          < Confidence(SignalsOf([0.0, 0.8], [true, true], 0.0), 1.0)
  {
    var s, r := [0.0, 0.8], [0.0, 1.0];
    assert s[1..] == [0.8] && r[1..] == [1.0] && s[1 := 1.0] == r;
    assert Sum([0.8]) == 0.8 && Sum([1.0]) == 1.0;
    assert Mean(s) == 0.4 && Mean(r) == 0.5;
    HigherScoreRaisesIff(s, 1, 1.0, [true, true], 0.0, 1.0);
  }

  // ---- order of the critics ----

  lemma DropOne<T>(t: seq<T>, k: nat)
    requires k < |t|
    ensures multiset(t[..k] + t[k + 1..]) == multiset(t) - multiset{t[k]}
  {
    assert t == t[..k] + ([t[k]] + t[k + 1..]);
  }

  lemma SameTail<T>(s: seq<T>, t: seq<T>) returns (k: nat)
    requires s != [] && multiset(s) == multiset(t)
    ensures k < |t| && t[k] == s[0]
    ensures multiset(s[1..]) == multiset(t[..k] + t[k + 1..])
  {
    assert s[0] in multiset(t);
    k :| 0 <= k < |t| && t[k] == s[0];
    DropOne(s, 0);
    DropOne(t, k);
    assert s[..0] + s[1..] == s[1..];
  }

  /** Sums do not see the order: the same values, each as often. */
  lemma {:induction false} SumOfMultiset(s: seq<real>, t: seq<real>, m: real)
    requires multiset(s) == multiset(t)
    ensures Sum(s) == Sum(t) && SquaresAbout(s, m) == SquaresAbout(t, m) && |s| == |t|
  {
    hide Square;
    if s == [] {
      assert |multiset(t)| == 0;
    } else {
      var k := SameTail(s, t);
      SumOfMultiset(s[1..], t[..k] + t[k + 1..], m);
      RemoveAt(t, k, m);
    }
  }

  lemma {:induction false} RemoveAt(t: seq<real>, k: nat, m: real)
    requires k < |t|
    ensures Sum(t) == Sum(t[..k] + t[k + 1..]) + t[k]
    ensures SquaresAbout(t, m) == SquaresAbout(t[..k] + t[k + 1..], m) + Square(t[k] - m)
  {
    hide Square;
    if k == 0 {
      assert t[..0] + t[1..] == t[1..];
    } else {
      var rest := t[..k] + t[k + 1..];
      assert rest[1..] == t[1..][..k - 1] + t[1..][k..];
      assert rest[0] == t[0] && t[1..][k - 1] == t[k];
      RemoveAt(t[1..], k - 1, m);
    }
  }

  lemma {:induction false} PassesOfMultiset(s: seq<bool>)
    ensures Passes(s) == multiset(s)[true]
  {
    if s != [] {
      assert s == [s[0]] + s[1..];
      PassesOfMultiset(s[1..]);
    }
  }

  lemma OrderlessVariance(s: seq<real>, t: seq<real>)
    requires multiset(s) == multiset(t)
    ensures Mean(s) == Mean(t) && Variance(s) == Variance(t)
  {
    SumOfMultiset(s, t, Mean(s));
    hide Sum, SquaresAbout;
  }

  lemma OrderlessPassRate(s: seq<bool>, t: seq<bool>)
    requires multiset(s) == multiset(t)
    ensures PassRate(s) == PassRate(t)
  {
    assert |multiset(s)| == |s| && |multiset(t)| == |t|;
    PassesOfMultiset(s);
    PassesOfMultiset(t);
  }

  /** Reordering the verdicts changes nothing in the confidence. */
  lemma OrderIrrelevant(scores: seq<real>, scores': seq<real>, passed: seq<bool>, passed': seq<bool>,
                        severity: real, accuracy: real)
    requires multiset(scores) == multiset(scores') && multiset(passed) == multiset(passed')
    ensures Confidence(SignalsOf(scores, passed, severity), accuracy)
         == Confidence(SignalsOf(scores', passed', severity), accuracy)
  {
    OrderlessVariance(scores, scores');
    OrderlessPassRate(passed, passed');
    hide Mean, Variance, PassRate, Clamp;
  }

  // ---- candidates ----

  /** Total similarity of candidate i to all the others. */
  function Similarity(texts: seq<string>, i: nat, upto: nat, ratio: (string, string) -> real): real
    requires i < |texts| && upto <= |texts|
  {
    if upto == 0 then 0.0
    else Similarity(texts, i, upto - 1, ratio) + if upto - 1 == i then 0.0 else ratio(texts[i], texts[upto - 1])
  }

  lemma {:induction false} SimilarityNonNegative(texts: seq<string>, i: nat, upto: nat, ratio: (string, string) -> real)
    requires i < |texts| && upto <= |texts|
    requires forall a, b :: 0.0 <= ratio(a, b)
    ensures Similarity(texts, i, upto, ratio) >= 0.0
  {
    if upto > 0 {
      SimilarityNonNegative(texts, i, upto - 1, ratio);
    }
  }

  /** The self-consistency winner: the first candidate no other is closer to the rest than. */
  method MedoidIndex(texts: seq<string>, ratio: (string, string) -> real) returns (best: nat)
    requires forall a, b :: 0.0 <= ratio(a, b)
    ensures texts == [] ==> best == 0
    ensures texts != [] ==> best < |texts|
    ensures forall i :: 0 <= i < |texts| ==>
              Similarity(texts, i, |texts|, ratio) <= Similarity(texts, best, |texts|, ratio)
    ensures forall i :: 0 <= i < best ==>
              Similarity(texts, i, |texts|, ratio) < Similarity(texts, best, |texts|, ratio)
  {
    best := 0;
    if |texts| < 2 {
      return;
    }
    var bestTotal := -1.0;
    for i := 0 to |texts|
      invariant best < |texts| && (i == 0 ==> best == 0 && bestTotal == -1.0) && (i > 0 ==> best < i)
      invariant i > 0 ==> bestTotal == Similarity(texts, best, |texts|, ratio)
      invariant forall k :: 0 <= k < i ==> Similarity(texts, k, |texts|, ratio) <= bestTotal
      invariant forall k :: 0 <= k < best ==> Similarity(texts, k, |texts|, ratio) < bestTotal
    {
      var total := 0.0;
      for j := 0 to |texts|
        invariant total == Similarity(texts, i, j, ratio)
      {
        if i != j {
          total := total + ratio(texts[i], texts[j]);
        }
      }
      SimilarityNonNegative(texts, i, |texts|, ratio);
      if total > bestTotal {
        best, bestTotal := i, total;
      }
    }
  }

  /** The first of the highest scores. */
  method SelectWinner(scores: seq<real>) returns (best: nat)
    ensures scores == [] ==> best == 0
    ensures scores != [] ==> best < |scores|
    ensures forall i :: 0 <= i < |scores| ==> scores[i] <= scores[best]
    ensures forall i :: 0 <= i < best ==> scores[i] < scores[best]
  {
    best := 0;
    if scores == [] {
      return;
    }
    var top := scores[0];
    for k := 1 to |scores|
      invariant best < k && top == scores[best]
      invariant forall i :: 0 <= i < k ==> scores[i] <= top
      invariant forall i :: 0 <= i < best ==> scores[i] < top
    {
      if scores[k] > top {
        top, best := scores[k], k;
      }
    }
  }
}
