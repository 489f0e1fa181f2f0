/** The rating arithmetic of internal/domain/rating.go over exact reals. The transcendental
    library functions are parameters, characterised by the laws in `Lawful` and by nothing else. */
module Glicko {

  type Positive = r: real | r > 0.0 witness 1.0

  /** ln 10, pi, the square root and x -> 10^x. */
  datatype Maths = Maths(ln10: Positive, pi: Positive, sqrt: real -> real, pow10: real -> real)

  ghost predicate Lawful(m: Maths) {
    && (forall x :: x >= 0.0 ==> m.sqrt(x) >= 0.0 && m.sqrt(x) * m.sqrt(x) == x)
    && (forall x :: m.pow10(x) > 0.0 && m.pow10(x) * m.pow10(-x) == 1.0)
    && (forall x, y :: x <= y ==> m.pow10(x) <= m.pow10(y))
  }

  datatype Params = Params(
    initialRating: real, initialRD: real, rdMin: real, rdMax: real, rdGrowthPerDay: real,
    ratingMin: real, ratingMax: real, maxDelta: real, movmScale: real, movmCap: real)

  datatype State = State(rating: real, rd: real)

  /** Float division is total in the program; every theorem below has a non-zero divisor. */
  function Quot(a: real, b: real): real {
    if b == 0.0 then 0.0 else a / b
  }

  function Q(m: Maths): real { m.ln10 / 400.0 }

  function Radicand(q: real, rd: real, pi: real): real {
    1.0 + Quot(3.0 * q * q * rd * rd, pi * pi)
  }

  function G(m: Maths, rd: real): real {
    Quot(1.0, m.sqrt(Radicand(Q(m), rd, m.pi)))
  }

  function Logit(g: real, r: real, opp: real): real { -g * (r - opp) / 400.0 }

  function Expected(m: Maths, r: real, opp: State): real {
    Quot(1.0, 1.0 + m.pow10(Logit(G(m, opp.rd), r, opp.rating)))
  }

  function Abs(x: real): real { if x < 0.0 then -x else x }

  function MarginOfVictory(scoreA: int, scoreB: int, target: int, p: Params): real {
    var movm := p.movmScale + Quot(Abs((scoreA - scoreB) as real), target as real);
    if movm > p.movmCap then p.movmCap else movm
  }

  function GrowRD(m: Maths, rd: real, idleDays: int, p: Params): real {
    if idleDays <= 0 then rd
    else
      var c := p.rdGrowthPerDay * idleDays as real;
      var next := m.sqrt(rd * rd + c * c);
      if next < rd then rd else if next > p.rdMax then p.rdMax else next
  }

  /** math.Round: to the nearest integer, halves away from zero. */
  function Round(x: real): int {
    if x >= 0.0 then (x + 0.5).Floor else -(-x + 0.5).Floor
  }

  function Round2(v: real): real { Round(v * 100.0) as real / 100.0 }

  function Round4(v: real): real { Round(v * 10000.0) as real / 10000.0 }

  /** A multiple of 0.01. */
  predicate OnGrid(x: real) { (x * 100.0).Floor as real == x * 100.0 }

  function Clamp(x: real, lo: real, hi: real): real {
    var y := if x > hi then hi else x;
    if y < lo then lo else y
  }

  // ---------------------------------------------------------------- sums over opponents

  function Sum(f: State -> real, s: seq<State>): real {
    if |s| == 0 then 0.0 else Sum(f, s[..|s| - 1]) + f(s[|s| - 1])
  }

  function Surprise(g: real, e: real, outcome: real): real { g * (outcome - e) }

  function Information(g: real, e: real): real { g * g * e * (1.0 - e) }

  function GTerm(m: Maths, r: real, outcome: real): State -> real {
    (o: State) => Surprise(G(m, o.rd), Expected(m, r, o), outcome)
  }

  function DTerm(m: Maths, r: real): State -> real {
    (o: State) => Information(G(m, o.rd), Expected(m, r, o))
  }

  function ETerm(m: Maths, r: real): State -> real {
    (o: State) => Expected(m, r, o)
  }

  lemma {:induction false} SumWithout(f: State -> real, s: seq<State>, i: nat)
    requires i < |s|
    ensures Sum(f, s) == Sum(f, s[..i] + s[i + 1..]) + f(s[i])
  {
    if i == |s| - 1 {
      assert s[..i] + s[i + 1..] == s[..|s| - 1];
    } else {
      var front, last := s[..|s| - 1], s[|s| - 1];
      SumWithout(f, front, i);
      var rest := s[..i] + s[i + 1..];
      assert rest[..|rest| - 1] == front[..i] + front[i + 1..];
      assert rest[|rest| - 1] == last;
    }
  }

  lemma {:induction false} SumIgnoresOrder(f: State -> real, a: seq<State>, b: seq<State>)
    requires multiset(a) == multiset(b)
    ensures Sum(f, a) == Sum(f, b)
  {
    assert |multiset(a)| == |a| && |multiset(b)| == |b|;
    if |a| > 0 {
      var x := a[|a| - 1];
      assert a == a[..|a| - 1] + [x];
      assert x in multiset(b);
      var i :| 0 <= i < |b| && b[i] == x;
      assert b == b[..i] + ([x] + b[i + 1..]);
      SumWithout(f, b, i);
      assert multiset(b[..i] + b[i + 1..]) == multiset(b) - multiset{x};
      SumIgnoresOrder(f, a[..|a| - 1], b[..i] + b[i + 1..]);
    }
  }

  // ---------------------------------------------------------------- the update

  /** 1/d^2, as the program stores it; 0 when nobody was faced. */
  function DSq(m: Maths, dSum: real): real {
    if dSum > 0.0 then Quot(1.0, Q(m) * Q(m) * dSum) else 0.0
  }

  /** The sum of both precisions. With dSq = 0 the program divides by zero and both uses of the
      infinite sum vanish; that case is taken apart below. */
  function Precision(m: Maths, rd: real, dSum: real): real {
    Quot(1.0, rd * rd) + Quot(1.0, DSq(m, dSum))
  }

  function RawDelta(m: Maths, rd: real, gSum: real, dSum: real, movm: real, weight: real): real {
    if DSq(m, dSum) > 0.0 then Quot(Q(m), Precision(m, rd, dSum)) * gSum * movm * weight else 0.0
  }

  function RawRD(m: Maths, rd: real, dSum: real): real {
    if DSq(m, dSum) > 0.0 then m.sqrt(Quot(1.0, Precision(m, rd, dSum))) else rd
  }

  /** GlickoUpdate as a value: the new state and the recorded delta. */
  function Update(m: Maths, p: Params, st: State, opps: seq<State>, outcome: real, movm: real, weight: real)
    : (State, real)
  {
    var gSum := Sum(GTerm(m, st.rating, outcome), opps);
    var dSum := Sum(DTerm(m, st.rating), opps);
    var delta := Round2(Clamp(RawDelta(m, st.rd, gSum, dSum, movm, weight), -p.maxDelta, p.maxDelta));
    (State(Round2(Clamp(st.rating + delta, p.ratingMin, p.ratingMax)),
           Round2(Clamp(RawRD(m, st.rd, dSum), p.rdMin, p.rdMax))),
     delta)
  }

  /** GlickoUpdate: one pass over the opponents, then cap, clamp and round. */
  method GlickoUpdate(m: Maths, p: Params, st: State, opps: seq<State>, outcome: real, movm: real, weight: real)
    returns (st': State, delta: real)
    requires p.maxDelta > 0.0 && p.ratingMin < p.ratingMax && p.rdMin <= p.rdMax
    ensures (st', delta) == Update(m, p, st, opps, outcome, movm, weight)
  {
    var gSum, dSum := 0.0, 0.0;
    for i := 0 to |opps|
      invariant gSum == Sum(GTerm(m, st.rating, outcome), opps[..i])
      invariant dSum == Sum(DTerm(m, st.rating), opps[..i])
    {
      assert opps[..i + 1][..i] == opps[..i];
      gSum := gSum + GTerm(m, st.rating, outcome)(opps[i]);
      dSum := dSum + DTerm(m, st.rating)(opps[i]);
    }
    assert opps[..|opps|] == opps;
    delta := RawDelta(m, st.rd, gSum, dSum, movm, weight);
    if delta > p.maxDelta { delta := p.maxDelta; }
    if delta < -p.maxDelta { delta := -p.maxDelta; }
    delta := Round2(delta);

    var newRating := st.rating + delta;
    if newRating > p.ratingMax { newRating := p.ratingMax; }
    if newRating < p.ratingMin { newRating := p.ratingMin; }

    var newRD := RawRD(m, st.rd, dSum);
    if newRD < p.rdMin { newRD := p.rdMin; }
    if newRD > p.rdMax { newRD := p.rdMax; }
    st' := State(Round2(newRating), Round2(newRD));
  }

  /** The mean expected score over all opponents, rounded as stored. */
  function MeanExpected(m: Maths, r: real, opps: seq<State>): real {
    Round4(if |opps| == 0 then 0.0 else Sum(ETerm(m, r), opps) / |opps| as real)
  }

  /** The expectation stored beside a delta: one pass over the opponents, then their mean. */
  method ExpectedOverAll(m: Maths, r: real, opps: seq<State>) returns (e: real)
    ensures e == MeanExpected(m, r, opps)
  {
    e := 0.0;
    for i := 0 to |opps|
      invariant e == Sum(ETerm(m, r), opps[..i])
    {
      assert opps[..i + 1][..i] == opps[..i];
      e := e + Expected(m, r, opps[i]);
    }
    assert opps[..|opps|] == opps;
    if |opps| > 0 { e := e / |opps| as real; }
    e := Round4(e);
  }

  /** Opponents form a multiset: the order in which they were read cannot matter. */
  lemma UpdateIgnoresOrder(m: Maths, p: Params, st: State, a: seq<State>, b: seq<State>,
                           outcome: real, movm: real, weight: real)
    requires multiset(a) == multiset(b)
    ensures Update(m, p, st, a, outcome, movm, weight) == Update(m, p, st, b, outcome, movm, weight)
    ensures MeanExpected(m, st.rating, a) == MeanExpected(m, st.rating, b)
  {
    SumIgnoresOrder(GTerm(m, st.rating, outcome), a, b);
    SumIgnoresOrder(DTerm(m, st.rating), a, b);
    SumIgnoresOrder(ETerm(m, st.rating), a, b);
    assert |multiset(a)| == |a| && |multiset(b)| == |b|;
  }
}
