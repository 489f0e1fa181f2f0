/** What the rating arithmetic guarantees: ranges, signs, monotonicity and the zero-sum law. */
module GlickoLaws {
  import opened Glicko

  // ---------------------------------------------------------------- real arithmetic
  // Signs and orders of products are stated through named predicates: a product compared
  // with 0 directly is rewritten by the solver into a case split over its factors.

  predicate Pos(x: real) { x > 0.0 }

  predicate NonNeg(x: real) { x >= 0.0 }

  predicate AtMost(x: real, y: real) { x <= y }

  lemma MulPos(a: real, b: real)
    requires Pos(a) && Pos(b)
    ensures Pos(a * b)
  {}

  lemma MulNonNeg(a: real, b: real)
    requires NonNeg(a) && NonNeg(b)
    ensures NonNeg(a * b)
  {}

  lemma MulOrder(a: real, b: real, k: real)
    requires a <= b && k >= 0.0
    ensures AtMost(a * k, b * k) && AtMost(k * a, k * b)
  {
    MulNonNeg(b - a, k);
    var d := (b - a) * k;
    assert d == b * k - a * k;
  }

  lemma QuotPos(a: real, b: real)
    requires Pos(a) && Pos(b)
    ensures Pos(Quot(a, b))
    ensures Quot(a, b) * b == a
  {}

  /** Multiplying both sides out compares two quotients. */
  lemma QuotOrder(a: real, b: real, c: real, d: real)
    requires b > 0.0 && d > 0.0 && AtMost(a * d, c * b)
    ensures Quot(a, b) <= Quot(c, d)
  {
    var x, y := Quot(a, b), Quot(c, d);
    MulPos(b, d);
    var k := (x - y) * (b * d);
    assert k == (x * b) * d - (y * d) * b == a * d - c * b;
    if x > y { MulPos(x - y, b * d); }
  }

  lemma RootOrder(a: real, b: real)
    requires a >= 0.0 && b >= 0.0 && AtMost(a * a, b * b)
    ensures a <= b
  {
    var d, t := a - b, a + b;
    var k := d * t;
    assert k == a * a - b * b;
    if d > 0.0 { MulPos(d, t); }
  }

  // ---------------------------------------------------------------- rounding

  lemma RoundOrder(x: real, y: real)
    requires x <= y
    ensures Round(x) <= Round(y)
  {}

  lemma Round2Order(x: real, y: real)
    requires x <= y
    ensures Round2(x) <= Round2(y)
  {
    RoundOrder(x * 100.0, y * 100.0);
  }

  lemma Round2IsOdd(x: real)
    ensures Round2(-x) == -Round2(x)
  {
    assert (-x) * 100.0 == -(x * 100.0);
  }

  lemma Round2Grid(x: real)
    ensures OnGrid(Round2(x))
    ensures OnGrid(x) ==> Round2(x) == x
    ensures x - 0.005 <= Round2(x) <= x + 0.005
  {
    var y := x * 100.0;
    assert Round2(x) * 100.0 == Round(y) as real;
    assert y - 0.5 <= Round(y) as real <= y + 0.5;
    assert y == y.Floor as real ==> Round(y) == y.Floor;
  }

  lemma RoundedClamp(x: real, lo: real, hi: real)
    requires lo <= hi && OnGrid(lo) && OnGrid(hi)
    ensures lo <= Round2(Clamp(x, lo, hi)) <= hi
    ensures OnGrid(Round2(Clamp(x, lo, hi)))
  {
    var c := Clamp(x, lo, hi);
    Round2Order(lo, c);
    Round2Order(c, hi);
    Round2Grid(lo);
    Round2Grid(hi);
    Round2Grid(c);
  }

  // ---------------------------------------------------------------- G and the expected score

  lemma RadicandIsLarge(q: real, rd: real, pi: real)
    requires pi > 0.0
    ensures Radicand(q, rd, pi) >= 1.0
  {
    var n, d, t := 3.0 * q * q * rd * rd, pi * pi, q * rd;
    MulPos(pi, pi);
    assert Pos(d);
    assert n == 3.0 * (t * t);
    assert NonNeg(t * t);
    assert n / d >= 0.0;
  }

  lemma GRange(m: Maths, rd: real)
    requires Lawful(m)
    ensures 0.0 < G(m, rd) <= 1.0
  {
    RadicandIsLarge(Q(m), rd, m.pi);
    var s := m.sqrt(Radicand(Q(m), rd, m.pi));
    assert AtMost(1.0, s * s);
    RootOrder(1.0, s);
    QuotPos(1.0, s);
    QuotOrder(1.0, s, 1.0, 1.0);
  }

  lemma ExpectedRange(m: Maths, r: real, opp: State)
    requires Lawful(m)
    ensures 0.0 < Expected(m, r, opp) < 1.0
  {
    Share(m.pow10(Logit(G(m, opp.rd), r, opp.rating)));
  }

  lemma Share(d: real)
    requires d > 0.0
    ensures 0.0 < Quot(1.0, 1.0 + d) < 1.0
  {
    var e := Quot(1.0, 1.0 + d);
    QuotPos(1.0, 1.0 + d);
    assert e * (1.0 + d) == e + e * d;
    MulPos(e, d);
  }

  /** Against equal deviations the two expectations of a pairing are complementary. */
  lemma ExpectedComplement(m: Maths, a: real, b: real, rd: real)
    requires Lawful(m)
    ensures Expected(m, a, State(b, rd)) + Expected(m, b, State(a, rd)) == 1.0
  {
    var x := Logit(G(m, rd), a, b);
    assert Logit(G(m, rd), b, a) == -x by { Antisymmetry(G(m, rd), a, b); }
    Complement(m.pow10(x), m.pow10(-x));
  }

  lemma Antisymmetry(g: real, a: real, b: real)
    ensures Logit(g, b, a) == -Logit(g, a, b)
  {}

  lemma Complement(u: real, v: real)
    requires u > 0.0 && v > 0.0 && u * v == 1.0
    ensures Quot(1.0, 1.0 + u) + Quot(1.0, 1.0 + v) == 1.0
  {
    var a, b := Quot(1.0, 1.0 + u), Quot(1.0, 1.0 + v);
    assert a * (1.0 + u) == 1.0 && b * (1.0 + v) == 1.0;
    assert b * v == b * v * (a * (1.0 + u)) == a * (b * (v + u * v)) == a * (b * (1.0 + v));
  }

  /** The stronger the player and the weaker the opponent, the more is expected. */
  lemma ExpectedOrder(m: Maths, r1: real, r2: real, o1: real, o2: real, rd: real)
    requires Lawful(m) && r1 - o1 <= r2 - o2
    ensures Expected(m, r1, State(o1, rd)) <= Expected(m, r2, State(o2, rd))
  {
    GRange(m, rd);
    var x1, x2 := Logit(G(m, rd), r1, o1), Logit(G(m, rd), r2, o2);
    assert x2 <= x1 by { LogitOrder(G(m, rd), r1, o1, r2, o2); }
    assert 0.0 < m.pow10(x2) <= m.pow10(x1);
    QuotOrder(1.0, 1.0 + m.pow10(x1), 1.0, 1.0 + m.pow10(x2));
  }

  lemma LogitOrder(g: real, r1: real, o1: real, r2: real, o2: real)
    requires g >= 0.0 && r1 - o1 <= r2 - o2
    ensures Logit(g, r2, o2) <= Logit(g, r1, o1)
  {
    var d := (r2 - o2) - (r1 - o1);
    MulNonNeg(d, g);
    var k := d * g;
    assert Logit(g, r1, o1) - Logit(g, r2, o2) == k / 400.0;
  }

  // ---------------------------------------------------------------- sums

  lemma TermSigns(m: Maths, r: real, o: State)
    requires Lawful(m)
    ensures DTerm(m, r)(o) > 0.0
    ensures GTerm(m, r, 1.0)(o) > 0.0
    ensures GTerm(m, r, 0.0)(o) < 0.0
  {
    GRange(m, o.rd);
    ExpectedRange(m, r, o);
    TermSignsOf(G(m, o.rd), Expected(m, r, o));
  }

  lemma TermSignsOf(g: real, e: real)
    requires g > 0.0 && 0.0 < e < 1.0
    ensures Pos(Information(g, e)) && Pos(Surprise(g, e, 1.0)) && Pos(-Surprise(g, e, 0.0))
  {
    MulPos(g, g);
    MulPos(g * g, e);
    MulPos(g * g * e, 1.0 - e);
    MulPos(g, 1.0 - e);
    MulPos(g, e);
    var k := g * e;
    assert -(g * (0.0 - e)) == k;
  }

  /** Facing somebody makes d^2 finite, and the score sum has the sign of the result. */
  lemma {:induction false} SumSigns(m: Maths, r: real, opps: seq<State>)
    requires Lawful(m)
    ensures Sum(DTerm(m, r), opps) >= 0.0
    ensures opps != [] ==> Sum(DTerm(m, r), opps) > 0.0
    ensures Sum(GTerm(m, r, 1.0), opps) >= 0.0
    ensures Sum(GTerm(m, r, 0.0), opps) <= 0.0
  {
    if |opps| > 0 {
      SumSigns(m, r, opps[..|opps| - 1]);
      TermSigns(m, r, opps[|opps| - 1]);
    }
  }

  lemma PrecisionForm(m: Maths, rd: real, dSum: real)
    requires rd > 0.0 && Pos(dSum)
    ensures DSq(m, dSum) > 0.0
    ensures Precision(m, rd, dSum) == Quot(1.0, rd * rd) + Q(m) * Q(m) * dSum
    ensures Pos(Quot(1.0, rd * rd)) && Pos(Q(m) * Q(m) * dSum)
  {
    MulPos(rd, rd);
    QuotPos(1.0, rd * rd);
    MulPos(Q(m), Q(m));
    MulPos(Q(m) * Q(m), dSum);
    DoubleQuot(Q(m) * Q(m) * dSum);
  }

  lemma DoubleQuot(k: real)
    requires Pos(k)
    ensures Pos(Quot(1.0, k)) && Quot(1.0, Quot(1.0, k)) == k
  {
    QuotPos(1.0, k);
  }

  // ---------------------------------------------------------------- ranges kept by an update

  /** The ranges of Validate, with bounds that are themselves multiples of 0.01. */
  ghost predicate GoodParams(p: Params) {
    && p.ratingMin < p.ratingMax && OnGrid(p.ratingMin) && OnGrid(p.ratingMax)
    && 1.0 <= p.rdMin <= p.rdMax && OnGrid(p.rdMin) && OnGrid(p.rdMax)
    && 0.0 < p.maxDelta && OnGrid(p.maxDelta)
    && 0.0 <= p.movmScale <= p.movmCap && p.rdGrowthPerDay >= 0.0
  }

  ghost predicate InRange(p: Params, st: State) {
    && p.ratingMin <= st.rating <= p.ratingMax && OnGrid(st.rating)
    && p.rdMin <= st.rd <= p.rdMax && OnGrid(st.rd)
  }

  ghost predicate DeltaInRange(p: Params, delta: real) {
    -p.maxDelta <= delta <= p.maxDelta && OnGrid(delta)
  }

  lemma UpdateStaysInRange(m: Maths, p: Params, st: State, opps: seq<State>, outcome: real, movm: real, weight: real)
    requires GoodParams(p)
    ensures var (st', delta) := Update(m, p, st, opps, outcome, movm, weight);
            InRange(p, st') && DeltaInRange(p, delta)
  {
    var gSum, dSum := Sum(GTerm(m, st.rating, outcome), opps), Sum(DTerm(m, st.rating), opps);
    var raw := RawDelta(m, st.rd, gSum, dSum, movm, weight);
    Round2IsOdd(p.maxDelta);
    Round2Grid(p.maxDelta);
    Round2Grid(-p.maxDelta);
    RoundedClamp(raw, -p.maxDelta, p.maxDelta);
    var delta := Round2(Clamp(raw, -p.maxDelta, p.maxDelta));
    RoundedClamp(st.rating + delta, p.ratingMin, p.ratingMax);
    RoundedClamp(RawRD(m, st.rd, dSum), p.rdMin, p.rdMax);
  }

  /** Playing only removes uncertainty, up to the rounding of the stored value: off the 0.01
      grid, where idle growth leaves a deviation, rounding may add back less than half a cent. */
  lemma PlayingNeverAddsUncertainty(m: Maths, p: Params, st: State, opps: seq<State>,
                                    outcome: real, movm: real, weight: real)
    requires Lawful(m) && GoodParams(p) && p.rdMin <= st.rd && opps != []
    ensures Update(m, p, st, opps, outcome, movm, weight).0.rd <= Round2(st.rd)
    ensures OnGrid(st.rd) ==> Update(m, p, st, opps, outcome, movm, weight).0.rd <= st.rd
  {
    var dSum := Sum(DTerm(m, st.rating), opps);
    SumSigns(m, st.rating, opps);
    PrecisionForm(m, st.rd, dSum);
    var precision := Precision(m, st.rd, dSum);
    var rr, s := st.rd * st.rd, RawRD(m, st.rd, dSum);
    MulPos(st.rd, st.rd);
    assert Pos(rr);
    PrecisionCovers(rr, Q(m) * Q(m) * dSum);
    assert AtMost(1.0, rr * precision);
    QuotOrder(1.0, precision, rr, 1.0);
    QuotPos(1.0, precision);
    assert AtMost(s * s, st.rd * st.rd);
    RootOrder(s, st.rd);
    Round2Order(Clamp(s, p.rdMin, p.rdMax), st.rd);
    Round2Grid(st.rd);
  }

  lemma PrecisionCovers(rr: real, k: real)
    requires Pos(rr) && Pos(k)
    ensures AtMost(1.0 * 1.0, rr * (Quot(1.0, rr) + k))
  {
    var c := Quot(1.0, rr);
    QuotPos(1.0, rr);
    MulPos(rr, k);
    var x := rr * k;
    assert rr * (c + k) == c * rr + x;
  }

  lemma GrowthStaysInRange(m: Maths, p: Params, rd: real, days: int)
    requires Lawful(m) && GoodParams(p) && p.rdMin <= rd <= p.rdMax
    ensures rd <= GrowRD(m, rd, days, p) <= p.rdMax
  {}

  // ---------------------------------------------------------------- signs

  lemma FactorSign(m: Maths, rd: real, gSum: real, dSum: real, movm: real, weight: real)
    requires rd > 0.0 && dSum > 0.0 && movm >= 0.0 && weight >= 0.0
    ensures gSum >= 0.0 ==> RawDelta(m, rd, gSum, dSum, movm, weight) >= 0.0
    ensures gSum <= 0.0 ==> RawDelta(m, rd, gSum, dSum, movm, weight) <= 0.0
  {
    PrecisionForm(m, rd, dSum);
    var f := Quot(Q(m), Precision(m, rd, dSum));
    QuotPos(Q(m), Precision(m, rd, dSum));
    var d := f * gSum * movm * weight;
    if gSum >= 0.0 {
      MulNonNeg(f, gSum);
      MulNonNeg(f * gSum, movm);
      MulNonNeg(f * gSum * movm, weight);
    }
    if gSum <= 0.0 {
      var h := -gSum;
      MulNonNeg(f, h);
      MulNonNeg(f * h, movm);
      MulNonNeg(f * h * movm, weight);
      var e := f * h * movm * weight;
      assert d == -e;
    }
  }

  /** A gain that is not negative, capped and rounded, never takes a rating down; nor a loss up. */
  lemma RatingFollows(p: Params, rating: real, raw: real)
    requires GoodParams(p) && p.ratingMin <= rating <= p.ratingMax && OnGrid(rating)
    ensures var delta := Round2(Clamp(raw, -p.maxDelta, p.maxDelta));
      var after := Round2(Clamp(rating + delta, p.ratingMin, p.ratingMax));
      && (raw >= 0.0 ==> delta >= 0.0 && after >= rating)
      && (raw <= 0.0 ==> delta <= 0.0 && after <= rating)
  {
    var capped := Clamp(raw, -p.maxDelta, p.maxDelta);
    var delta := Round2(capped);
    Round2Grid(0.0);
    Round2Grid(rating);
    if raw >= 0.0 {
      Round2Order(0.0, capped);
      Round2Order(rating, Clamp(rating + delta, p.ratingMin, p.ratingMax));
    }
    if raw <= 0.0 {
      Round2Order(capped, 0.0);
      Round2Order(Clamp(rating + delta, p.ratingMin, p.ratingMax), rating);
    }
  }

  function RawOf(m: Maths, st: State, opps: seq<State>, outcome: real, movm: real, weight: real): real {
    RawDelta(m, st.rd, Sum(GTerm(m, st.rating, outcome), opps), Sum(DTerm(m, st.rating), opps), movm, weight)
  }

  lemma UpdateFollows(m: Maths, p: Params, st: State, opps: seq<State>, outcome: real, movm: real, weight: real)
    requires GoodParams(p) && InRange(p, st)
    ensures var (after, delta) := Update(m, p, st, opps, outcome, movm, weight);
      && (RawOf(m, st, opps, outcome, movm, weight) >= 0.0 ==> delta >= 0.0 && after.rating >= st.rating)
      && (RawOf(m, st, opps, outcome, movm, weight) <= 0.0 ==> delta <= 0.0 && after.rating <= st.rating)
  {
    RatingFollows(p, st.rating, RawOf(m, st, opps, outcome, movm, weight));
  }

  lemma RawSigns(m: Maths, st: State, opps: seq<State>, movm: real, weight: real)
    requires Lawful(m) && st.rd > 0.0 && movm >= 0.0 && weight >= 0.0 && opps != []
    ensures RawOf(m, st, opps, 1.0, movm, weight) >= 0.0 && RawOf(m, st, opps, 0.0, movm, weight) <= 0.0
  {
    var dSum := Sum(DTerm(m, st.rating), opps);
    SumSigns(m, st.rating, opps);
    FactorSign(m, st.rd, Sum(GTerm(m, st.rating, 1.0), opps), dSum, movm, weight);
    FactorSign(m, st.rd, Sum(GTerm(m, st.rating, 0.0), opps), dSum, movm, weight);
  }

  /** A win never lowers a rating and a loss never raises one. */
  lemma ResultMovesRatingItsWay(m: Maths, p: Params, st: State, opps: seq<State>, movm: real, weight: real)
    requires Lawful(m) && GoodParams(p) && InRange(p, st)
    requires movm >= 0.0 && weight >= 0.0 && opps != []
    ensures var (won, gain) := Update(m, p, st, opps, 1.0, movm, weight);
            gain >= 0.0 && won.rating >= st.rating
    ensures var (lost, drop) := Update(m, p, st, opps, 0.0, movm, weight);
            drop <= 0.0 && lost.rating <= st.rating
  {
    RawSigns(m, st, opps, movm, weight);
    UpdateFollows(m, p, st, opps, 1.0, movm, weight);
    UpdateFollows(m, p, st, opps, 0.0, movm, weight);
  }

  // ---------------------------------------------------------------- one opponent

  /** Raw gain per unit of q g movm w, as a function of the expected score. */
  function Response(c: real, k: real, s: real, e: real): real {
    Quot(s - e, Denominator(c, k, e))
  }

  function Denominator(c: real, k: real, e: real): real { c + k * (e * (1.0 - e)) }

  /** What separates the two cross products of ResponseFalls, factor by factor. */
  function Gap(c: real, k: real, s: real, e1: real, e2: real): real {
    c + k * (s * ((1.0 - e1) * (1.0 - e2)) + (1.0 - s) * (e1 * e2))
  }

  lemma CrossDifference(c: real, k: real, s: real, e1: real, e2: real)
    ensures (s - e1) * Denominator(c, k, e2) - (s - e2) * Denominator(c, k, e1)
         == (e2 - e1) * Gap(c, k, s, e1, e2)
  {}

  lemma GapIsPositive(c: real, k: real, s: real, e1: real, e2: real)
    requires c > 0.0 && k >= 0.0 && 0.0 <= s <= 1.0 && 0.0 < e1 < 1.0 && 0.0 < e2 < 1.0
    ensures Pos(Gap(c, k, s, e1, e2))
  {
    var win, lose := (1.0 - e1) * (1.0 - e2), e1 * e2;
    MulNonNeg(1.0 - e1, 1.0 - e2);
    MulNonNeg(e1, e2);
    MulNonNeg(s, win);
    MulNonNeg(1.0 - s, lose);
    var mix := s * win + (1.0 - s) * lose;
    MulNonNeg(k, mix);
    var x := k * mix;
  }

  lemma DenominatorIsPositive(c: real, k: real, e: real)
    requires c > 0.0 && k >= 0.0 && 0.0 < e < 1.0
    ensures Pos(Denominator(c, k, e))
  {
    var v := e * (1.0 - e);
    MulNonNeg(e, 1.0 - e);
    MulNonNeg(k, v);
    var x := k * v;
  }

  lemma ResponseFalls(c: real, k: real, s: real, e1: real, e2: real)
    requires c > 0.0 && k >= 0.0 && 0.0 <= s <= 1.0 && 0.0 < e1 <= e2 < 1.0
    ensures Response(c, k, s, e2) <= Response(c, k, s, e1)
  {
    CrossDifference(c, k, s, e1, e2);
    GapIsPositive(c, k, s, e1, e2);
    DenominatorIsPositive(c, k, e1);
    DenominatorIsPositive(c, k, e2);
    FallsByGap(s - e1, Denominator(c, k, e1), s - e2, Denominator(c, k, e2), e2 - e1, Gap(c, k, s, e1, e2));
  }

  lemma FallsByGap(n1: real, d1: real, n2: real, d2: real, d: real, gap: real)
    requires Pos(d1) && Pos(d2) && NonNeg(d) && Pos(gap) && n1 * d2 - n2 * d1 == d * gap
    ensures Quot(n2, d2) <= Quot(n1, d1)
  {
    MulNonNeg(d, gap);
    var x := d * gap;
    assert AtMost(n2 * d1, n1 * d2);
    QuotOrder(n2, d2, n1, d1);
  }

  lemma SingleSum(f: State -> real, o: State)
    ensures Sum(f, [o]) == f(o)
  {
    assert [o][..0] == [];
  }

  function Scale(q: real, g: real, movm: real, weight: real): real { q * g * movm * weight }

  function Curvature(q: real, g: real): real { q * q * (g * g) }

  lemma ScaleSigns(q: real, g: real, movm: real, weight: real)
    requires q > 0.0 && g > 0.0 && movm >= 0.0 && weight >= 0.0
    ensures NonNeg(Scale(q, g, movm, weight)) && NonNeg(Curvature(q, g))
  {
    MulNonNeg(q, g);
    MulNonNeg(q * g, movm);
    MulNonNeg(q * g * movm, weight);
    MulNonNeg(g, g);
    MulNonNeg(q, q);
    MulNonNeg(q * q, g * g);
  }

  /** The raw gain against one opponent: a non-negative constant times the response. */
  function SingleRaw(m: Maths, rd: real, g: real, e: real, s: real, movm: real, weight: real): real {
    Scale(Q(m), g, movm, weight) * Response(Quot(1.0, rd * rd), Curvature(Q(m), g), s, e)
  }

  lemma SingleRawForm(m: Maths, rd: real, g: real, e: real, s: real, movm: real, weight: real)
    requires rd > 0.0 && Pos(Information(g, e))
    ensures RawDelta(m, rd, Surprise(g, e, s), Information(g, e), movm, weight) == SingleRaw(m, rd, g, e, s, movm, weight)
  {
    PrecisionForm(m, rd, Information(g, e));
    RegroupPrecision(Quot(1.0, rd * rd), Q(m), g, e);
    RegroupDelta(Q(m), Precision(m, rd, Information(g, e)), g, e, s, movm, weight);
  }

  lemma SingleDelta(m: Maths, p: Params, r: real, o: State, rd: real, s: real, movm: real, weight: real)
    requires Lawful(m) && rd > 0.0
    ensures Update(m, p, State(r, rd), [o], s, movm, weight).1
         == Round2(Clamp(SingleRaw(m, rd, G(m, o.rd), Expected(m, r, o), s, movm, weight), -p.maxDelta, p.maxDelta))
  {
    SingleSum(GTerm(m, r, s), o);
    SingleSum(DTerm(m, r), o);
    GRange(m, o.rd);
    ExpectedRange(m, r, o);
    TermSignsOf(G(m, o.rd), Expected(m, r, o));
    SingleRawForm(m, rd, G(m, o.rd), Expected(m, r, o), s, movm, weight);
  }

  lemma RegroupPrecision(c: real, q: real, g: real, e: real)
    ensures c + q * q * Information(g, e) == Denominator(c, Curvature(q, g), e)
  {}

  lemma RegroupDelta(q: real, d: real, g: real, e: real, s: real, movm: real, weight: real)
    ensures Quot(q, d) * Surprise(g, e, s) * movm * weight == Scale(q, g, movm, weight) * Quot(s - e, d)
  {
    if d != 0.0 {
      var i := 1.0 / d;
      assert q / d == q * i && (s - e) / d == (s - e) * i;
    }
  }

  /** Cap and round keep order, and commute with a change of sign. */
  lemma CapAndRound(x: real, y: real, cap: real)
    requires cap > 0.0
    ensures x <= y ==> Round2(Clamp(x, -cap, cap)) <= Round2(Clamp(y, -cap, cap))
    ensures x == -y ==> Round2(Clamp(x, -cap, cap)) == -Round2(Clamp(y, -cap, cap))
  {
    if x <= y { Round2Order(Clamp(x, -cap, cap), Clamp(y, -cap, cap)); }
    if x == -y { Round2IsOdd(Clamp(y, -cap, cap)); }
  }

  /** Against one opponent the delta never rises with the player's own rating nor falls with the
      opponent's: it is a falling function of the advantage r - o alone. */
  lemma DeltaFallsWithAdvantage(m: Maths, p: Params, r1: real, o1: real, r2: real, o2: real, rd: real, oppRD: real,
                                s: real, movm: real, weight: real)
    requires Lawful(m) && GoodParams(p) && rd > 0.0 && movm >= 0.0 && weight >= 0.0
    requires 0.0 <= s <= 1.0
    requires r1 - o1 <= r2 - o2
    ensures Update(m, p, State(r2, rd), [State(o2, oppRD)], s, movm, weight).1
         <= Update(m, p, State(r1, rd), [State(o1, oppRD)], s, movm, weight).1
  {
    SingleDelta(m, p, r1, State(o1, oppRD), rd, s, movm, weight);
    SingleDelta(m, p, r2, State(o2, oppRD), rd, s, movm, weight);
    GRange(m, oppRD);
    ExpectedOrder(m, r1, r2, o1, o2, oppRD);
    ExpectedRange(m, r1, State(o1, oppRD));
    ExpectedRange(m, r2, State(o2, oppRD));
    var g, e1, e2 := G(m, oppRD), Expected(m, r1, State(o1, oppRD)), Expected(m, r2, State(o2, oppRD));
    SingleRawFalls(m, rd, g, e1, e2, s, movm, weight);
    CapAndRound(SingleRaw(m, rd, g, e2, s, movm, weight), SingleRaw(m, rd, g, e1, s, movm, weight), p.maxDelta);
  }

  lemma ScaledResponseFalls(f: real, c: real, k: real, s: real, e1: real, e2: real)
    requires NonNeg(f) && Pos(c) && NonNeg(k) && 0.0 <= s <= 1.0 && 0.0 < e1 <= e2 < 1.0
    ensures AtMost(f * Response(c, k, s, e2), f * Response(c, k, s, e1))
  {
    ResponseFalls(c, k, s, e1, e2);
    MulOrder(Response(c, k, s, e2), Response(c, k, s, e1), f);
  }

  lemma SingleRawFalls(m: Maths, rd: real, g: real, e1: real, e2: real, s: real, movm: real, weight: real)
    requires rd > 0.0 && g > 0.0 && 0.0 < e1 <= e2 < 1.0 && 0.0 <= s <= 1.0 && movm >= 0.0 && weight >= 0.0
    ensures AtMost(SingleRaw(m, rd, g, e2, s, movm, weight), SingleRaw(m, rd, g, e1, s, movm, weight))
  {
    ScaleSigns(Q(m), g, movm, weight);
    MulPos(rd, rd);
    QuotPos(1.0, rd * rd);
    ScaledResponseFalls(Scale(Q(m), g, movm, weight), Quot(1.0, rd * rd), Curvature(Q(m), g), s, e1, e2);
  }

  /** One against one at equal deviations nothing is created: whatever the ratings, what one
      side gains is exactly what the other loses. */
  lemma OneOnOneIsZeroSum(m: Maths, p: Params, a: real, b: real, rd: real, s: real, movm: real, weight: real)
    requires Lawful(m) && GoodParams(p) && rd > 0.0 && movm >= 0.0 && weight >= 0.0
    ensures Update(m, p, State(a, rd), [State(b, rd)], s, movm, weight).1
         == -Update(m, p, State(b, rd), [State(a, rd)], 1.0 - s, movm, weight).1
  {
    SingleDelta(m, p, a, State(b, rd), rd, s, movm, weight);
    SingleDelta(m, p, b, State(a, rd), rd, 1.0 - s, movm, weight);
    ExpectedComplement(m, a, b, rd);
    var e := Expected(m, a, State(b, rd));
    SingleRawIsOdd(m, rd, G(m, rd), e, s, movm, weight);
    CapAndRound(SingleRaw(m, rd, G(m, rd), e, s, movm, weight),
                SingleRaw(m, rd, G(m, rd), 1.0 - e, 1.0 - s, movm, weight), p.maxDelta);
  }

  lemma SingleRawIsOdd(m: Maths, rd: real, g: real, e: real, s: real, movm: real, weight: real)
    ensures SingleRaw(m, rd, g, e, s, movm, weight) == -SingleRaw(m, rd, g, 1.0 - e, 1.0 - s, movm, weight)
  {
    var c, k := Quot(1.0, rd * rd), Curvature(Q(m), g);
    ResponseIsOdd(c, k, s, e);
    MulNegated(Scale(Q(m), g, movm, weight), Response(c, k, s, e));
  }

  lemma MulNegated(f: real, x: real)
    ensures f * -x == -(f * x)
  {}

  lemma ResponseIsOdd(c: real, k: real, s: real, e: real)
    ensures Response(c, k, 1.0 - s, 1.0 - e) == -Response(c, k, s, e)
  {
    var d := Denominator(c, k, e);
    assert Denominator(c, k, 1.0 - e) == d;
    assert d != 0.0 ==> (e - s) / d == -((s - e) / d);
  }

  /** The margin multiplier is bounded and grows with the margin. */
  lemma MarginLaws(a: int, b: int, a': int, b': int, target: int, p: Params)
    requires GoodParams(p) && target > 0
    ensures 0.0 <= MarginOfVictory(a, b, target, p) <= p.movmCap
    ensures MarginOfVictory(a, b, target, p) == MarginOfVictory(b, a, target, p)
    ensures Abs((a - b) as real) <= Abs((a' - b') as real)
        ==> MarginOfVictory(a, b, target, p) <= MarginOfVictory(a', b', target, p)
  {
    var x, y, t := Abs((a - b) as real), Abs((a' - b') as real), target as real;
    QuotOrder(0.0, 1.0, x, t);
    assert (b - a) as real == -((a - b) as real);
    if x <= y { QuotOrderSame(x, y, t); }
  }

  lemma QuotOrderSame(x: real, y: real, t: real)
    requires x <= y && t > 0.0
    ensures Quot(x, t) <= Quot(y, t)
  {
    MulOrder(x, y, t);
    QuotOrder(x, t, y, t);
  }
}
