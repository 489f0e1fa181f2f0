/** One game between newcomers under the default parameters, in numbers: against one opponent a
    deviation of 220 shrinks to some 195, against two to some 177. Crude bounds are enough. */
module GlickoExample {
  import opened Glicko
  import opened GlickoLaws

  const DEFAULTS := Params(1250.0, 220.0, 30.0, 350.0, 3.0, 1000.0, 2500.0, 30.0, 0.5, 2.0)

  const NEWCOMER := State(1250.0, 220.0)

  /** The numbers ln 10 and pi, as far as they matter here. */
  ghost predicate Numeral(m: Maths) { Lawful(m) && 2.3 <= m.ln10 <= 2.31 && 3.14 <= m.pi <= 3.15 }

  predicate Between(lo: real, x: real, hi: real) { lo <= x <= hi }

  lemma ProductBounds(a: real, lo: real, hi: real, b: real, lo': real, hi': real)
    requires 0.0 <= lo && Between(lo, a, hi) && 0.0 <= lo' && Between(lo', b, hi')
    ensures Between(lo * lo', a * b, hi * hi')
  {
    MulOrder(lo, a, lo');
    MulOrder(lo', b, a);
    MulOrder(a, hi, b);
    MulOrder(b, hi', hi);
  }

  /** From a product and one factor, bounds for the other. */
  lemma FactorBounds(x: real, y: real, c: real, lo: real, hi: real)
    requires x * y == c && y > 0.0 && AtMost(lo * y, c) && AtMost(c, hi * y)
    ensures Between(lo, x, hi)
  {
    if x < lo { MulPos(lo - x, y); }
    if x > hi { MulPos(x - hi, y); }
  }

  lemma UnitRoot(p: real)
    requires p > 0.0 && p * p == 1.0
    ensures p == 1.0
  {
    if p > 1.0 { MulPos(p - 1.0, p); }
    if p < 1.0 { MulPos(1.0 - p, p); }
  }

  /** Between equals the expectation is a half. */
  lemma EvenOdds(m: Maths, r: real, rd: real)
    requires Lawful(m)
    ensures Expected(m, r, State(r, rd)) == 0.5
  {
    var g := G(m, rd);
    assert Logit(g, r, r) == 0.0 by {
      var d := r - r;
      assert -g * d == 0.0;
    }
    UnitRoot(m.pow10(0.0));
  }

  lemma SquareOfG(m: Maths, rd: real)
    requires Lawful(m)
    ensures G(m, rd) * G(m, rd) * Radicand(Q(m), rd, m.pi) == 1.0
  {
    RadicandIsLarge(Q(m), rd, m.pi);
    RootQuotient(m.sqrt(Radicand(Q(m), rd, m.pi)), Radicand(Q(m), rd, m.pi));
  }

  lemma RootQuotient(s: real, x: real)
    requires s >= 0.0 && s * s == x && x >= 1.0
    ensures Quot(1.0, s) * Quot(1.0, s) * x == 1.0
  {
    assert s != 0.0;
    var g := 1.0 / s;
    assert g * s == 1.0;
    assert g * g * x == (g * s) * (g * s);
  }

  lemma ScaleOfQ(m: Maths)
    requires Numeral(m)
    ensures Between(0.000033, Q(m) * Q(m), 0.0000334)
  {
    ProductBounds(Q(m), 0.00575, 0.005775, Q(m), 0.00575, 0.005775);
  }

  lemma RadicandInNumbers(q: real, pi: real)
    requires Between(0.000033, q * q, 0.0000334) && Between(3.14, pi, 3.15)
    ensures Between(1.48, Radicand(q, 220.0, pi), 1.5)
  {
    ProductBounds(pi, 3.14, 3.15, pi, 3.14, 3.15);
    var w, n := pi * pi, 3.0 * q * q * 220.0 * 220.0;
    var a := q * q;
    assert n == 145200.0 * a;
    QuotPos(n, w);
    assert AtMost(0.48 * w, n) && AtMost(n, 0.5 * w);
    FactorBounds(Quot(n, w), w, n, 0.48, 0.5);
    assert Radicand(q, 220.0, pi) == 1.0 + Quot(n, w);
  }

  /** What one such opponent adds to the precision. */
  lemma OneOpponent(m: Maths)
    requires Numeral(m)
    ensures Between(0.0000054, Q(m) * Q(m) * DTerm(m, 1250.0)(NEWCOMER), 0.0000057)
  {
    var g, a := G(m, 220.0), Q(m) * Q(m);
    EvenOdds(m, 1250.0, 220.0);
    SquareOfG(m, 220.0);
    ScaleOfQ(m);
    RadicandInNumbers(Q(m), m.pi);
    var u := g * g;
    FactorBounds(u, Radicand(Q(m), 220.0, m.pi), 1.0, 0.66, 0.68);
    ProductBounds(a, 0.000033, 0.0000334, u, 0.66, 0.68);
    assert DTerm(m, 1250.0)(NEWCOMER) == u / 4.0;
    var p := a * u;
    assert a * (u / 4.0) == p / 4.0;
  }

  lemma Newcomers(m: Maths)
    ensures Sum(DTerm(m, 1250.0), [NEWCOMER]) == DTerm(m, 1250.0)(NEWCOMER)
    ensures Sum(DTerm(m, 1250.0), [NEWCOMER, NEWCOMER]) == DTerm(m, 1250.0)(NEWCOMER) + DTerm(m, 1250.0)(NEWCOMER)
  {
    SingleSum(DTerm(m, 1250.0), NEWCOMER);
    assert [NEWCOMER, NEWCOMER][..1] == [NEWCOMER];
  }

  /** The deviation squared times the precision is 1. */
  lemma DeviationSquared(m: Maths, dSum: real)
    requires Lawful(m) && Pos(dSum)
    ensures var x, p := RawRD(m, 220.0, dSum), Quot(1.0, 48400.0) + Q(m) * Q(m) * dSum;
      x >= 0.0 && p > 0.0 && x * x * p == 1.0
  {
    PrecisionForm(m, 220.0, dSum);
    QuotPos(1.0, Precision(m, 220.0, dSum));
  }

  lemma AtLeastRoot(x: real, p: real, lo: real)
    requires x >= 0.0 && p > 0.0 && lo >= 0.0 && x * x * p == 1.0 && AtMost(lo * lo * p, 1.0)
    ensures lo <= x
  {
    if x * x < lo * lo { MulPos(lo * lo - x * x, p); }
    RootOrder(lo, x);
  }

  lemma AtMostRoot(x: real, p: real, hi: real)
    requires x >= 0.0 && p > 0.0 && hi >= 0.0 && x * x * p == 1.0 && AtMost(1.0, hi * hi * p)
    ensures x <= hi
  {
    if x * x > hi * hi { MulPos(x * x - hi * hi, p); }
    RootOrder(x, hi);
  }

  lemma OneInNumbers(m: Maths)
    requires Numeral(m)
    ensures RawRD(m, 220.0, Sum(DTerm(m, 1250.0), [NEWCOMER])) >= 190.0
  {
    var d := DTerm(m, 1250.0)(NEWCOMER);
    Newcomers(m);
    OneOpponent(m);
    TermSigns(m, 1250.0, NEWCOMER);
    DeviationSquared(m, d);
    AtLeastRoot(RawRD(m, 220.0, d), Quot(1.0, 48400.0) + Q(m) * Q(m) * d, 190.0);
  }

  lemma TwoInNumbers(m: Maths)
    requires Numeral(m)
    ensures RawRD(m, 220.0, Sum(DTerm(m, 1250.0), [NEWCOMER, NEWCOMER])) <= 185.0
  {
    var d := DTerm(m, 1250.0)(NEWCOMER);
    Newcomers(m);
    OneOpponent(m);
    TermSigns(m, 1250.0, NEWCOMER);
    DeviationSquared(m, d + d);
    var a := Q(m) * Q(m);
    assert a * (d + d) == a * d + a * d;
    AtMostRoot(RawRD(m, 220.0, d + d), Quot(1.0, 48400.0) + Q(m) * Q(m) * (d + d), 185.0);
  }

  /** The stored deviation of a newcomer tells how many newcomers he met. */
  lemma OneOrTwoNewcomers(m: Maths, outcome: real, movm: real, weight: real)
    requires Numeral(m)
    ensures Update(m, DEFAULTS, NEWCOMER, [NEWCOMER], outcome, movm, weight).0.rd >= 190.0
    ensures Update(m, DEFAULTS, NEWCOMER, [NEWCOMER, NEWCOMER], outcome, movm, weight).0.rd <= 185.0
  {
    OneInNumbers(m);
    TwoInNumbers(m);
    var one := RawRD(m, 220.0, Sum(DTerm(m, 1250.0), [NEWCOMER]));
    var two := RawRD(m, 220.0, Sum(DTerm(m, 1250.0), [NEWCOMER, NEWCOMER]));
    Round2Order(190.0, Clamp(one, 30.0, 350.0));
    Round2Order(Clamp(two, 30.0, 350.0), 185.0);
    Round2Grid(190.0);
    Round2Grid(185.0);
  }
}
