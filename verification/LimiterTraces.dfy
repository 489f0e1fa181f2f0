/** Request histories of the limiter, with and without the janitor. */
module LimiterTraces {
  import opened RateLimiter

  datatype Step = Hit(ip: string, at: real) | Tick(at: real)

  type Ips = map<string, Bucket>

  function After1(l: Limits, sweeps: bool, ips: Ips, s: Step): Ips {
    match s
    case Hit(ip, at) => Served(l, ips, ip, at)
    case Tick(at) => if sweeps then Live(l, ips, at) else ips
  }

  function After(l: Limits, sweeps: bool, ips: Ips, trace: seq<Step>): Ips
    decreases |trace|
  {
    if |trace| == 0 then ips else After(l, sweeps, After1(l, sweeps, ips, trace[0]), trace[1..])
  }

  /** Whom the limiter answered what. Idle buckets are swept at every tick, or never. */
  function Answers(l: Limits, sweeps: bool, ips: Ips, trace: seq<Step>): seq<(string, bool)>
    decreases |trace|
  {
    if |trace| == 0 then []
    else
      var rest := Answers(l, sweeps, After1(l, sweeps, ips, trace[0]), trace[1..]);
      match trace[0]
      case Hit(ip, at) => [(ip, Available(l, ips, ip, at) >= 1.0)] + rest
      case Tick(_) => rest
  }

  /** The clock never runs backwards. */
  ghost predicate Monotone(from: real, trace: seq<Step>)
    decreases |trace|
  {
    |trace| == 0 || (from <= trace[0].at && Monotone(trace[0].at, trace[1..]))
  }

  /** The size limit is never exceeded, so that a tick does exactly what Live says. */
  ghost predicate NoOverflow(l: Limits, ips: Ips, trace: seq<Step>)
    decreases |trace|
  {
    |trace| == 0 || ((trace[0].Tick? ==> |Live(l, ips, trace[0].at)| <= l.maxIPs)
                     && NoOverflow(l, After1(l, true, ips, trace[0]), trace[1..]))
  }

  /** Without overflow, any sweep the program may perform is the one of the trace. */
  lemma SweepWithoutOverflow(l: Limits, before: Ips, now: real, after: Ips)
    requires SweptTo(l, before, now, after) && |Live(l, before, now)| <= l.maxIPs
    ensures after == Live(l, before, now)
  {
    var live := Live(l, before, now);
    assert |live.Keys - after.Keys| == |live.Keys| - |after.Keys|;
  }

  // ---------------------------------------------------------------- token ranges

  ghost predicate Sane(l: Limits, ips: Ips, now: real) {
    forall ip <- ips :: 0.0 <= ips[ip].tokens <= l.burst as real && ips[ip].last <= now
  }

  lemma EarningsGrow(l: Limits, d: real, e: real)
    requires l.rate > 0.0 && d <= e
    ensures Earned(l, d) <= Earned(l, e) && Earned(l, 0.0) == 0.0
  {
    var x := (e - d) * l.rate;
    assert x == Earned(l, e) - Earned(l, d);
    assert x >= 0.0;
  }

  /** Tokens stay between 0 and the burst. */
  lemma StepKeepsSane(l: Limits, sweeps: bool, ips: Ips, s: Step, from: real)
    requires Sensible(l) && Sane(l, ips, from) && from <= s.at
    ensures Sane(l, After1(l, sweeps, ips, s), s.at)
  {
    if s.Hit? && s.ip in ips { EarningsGrow(l, 0.0, s.at - ips[s.ip].last); }
  }

  lemma {:induction false} RunKeepsSane(l: Limits, sweeps: bool, ips: Ips, trace: seq<Step>, from: real)
    requires Sensible(l) && Sane(l, ips, from) && Monotone(from, trace)
    ensures Sane(l, After(l, sweeps, ips, trace), if |trace| == 0 then from else trace[|trace| - 1].at)
    decreases |trace|
  {
    if |trace| > 0 {
      StepKeepsSane(l, sweeps, ips, trace[0], from);
      RunKeepsSane(l, sweeps, After1(l, sweeps, ips, trace[0]), trace[1..], trace[0].at);
    }
  }

  lemma EarningsAdd(l: Limits, d: real, e: real)
    ensures Earned(l, d + e) == Earned(l, d) + Earned(l, e)
  {}

  // ---------------------------------------------------------------- sweeping is invisible

  /** From now on the IP finds a full bucket. */
  ghost predicate Full(l: Limits, b: Bucket, now: real) {
    b.tokens + Earned(l, now - b.last) >= l.burst as real
  }

  /** The swept map holds the same buckets, but for some that are full anyhow. */
  ghost predicate Covers(l: Limits, swept: Ips, plain: Ips, now: real) {
    && swept.Keys <= plain.Keys && (forall ip <- swept :: swept[ip] == plain[ip])
    && (forall ip <- plain.Keys - swept.Keys :: Full(l, plain[ip], now))
  }

  lemma FullStaysFull(l: Limits, b: Bucket, now: real, later: real)
    requires l.rate > 0.0 && now <= later && Full(l, b, now)
    ensures Full(l, b, later)
  {
    EarningsGrow(l, now - b.last, later - b.last);
  }

  lemma IdleIsFull(l: Limits, b: Bucket, now: real)
    requires l.rate > 0.0 && Earned(l, l.idleTimeout) >= l.burst as real && b.tokens >= 0.0 && Idle(l, b, now)
    ensures Full(l, b, now)
  {
    EarningsGrow(l, l.idleTimeout, now - b.last);
  }

  lemma StepKeepsCover(l: Limits, swept: Ips, plain: Ips, s: Step, from: real)
    requires Sensible(l) && Earned(l, l.idleTimeout) >= l.burst as real
    requires Covers(l, swept, plain, from) && Sane(l, plain, from) && from <= s.at
    ensures Covers(l, After1(l, true, swept, s), After1(l, false, plain, s), s.at)
    ensures s.Hit? ==> Available(l, swept, s.ip, s.at) == Available(l, plain, s.ip, s.at)
  {
    forall ip | ip in plain.Keys - swept.Keys ensures Full(l, plain[ip], s.at) {
      FullStaysFull(l, plain[ip], from, s.at);
    }
    if s.Tick? {
      forall ip | ip in plain.Keys - Live(l, swept, s.at).Keys ensures Full(l, plain[ip], s.at) {
        if ip in swept { IdleIsFull(l, plain[ip], s.at); }
      }
    }
  }

  lemma {:induction false} SweepsChangeNoAnswer(l: Limits, swept: Ips, plain: Ips, trace: seq<Step>, from: real)
    requires Sensible(l) && Earned(l, l.idleTimeout) >= l.burst as real
    requires Covers(l, swept, plain, from) && Sane(l, plain, from) && Monotone(from, trace)
    ensures Answers(l, true, swept, trace) == Answers(l, false, plain, trace)
    ensures Covers(l, After(l, true, swept, trace), After(l, false, plain, trace),
                   if |trace| == 0 then from else trace[|trace| - 1].at)
    decreases |trace|
  {
    if |trace| > 0 {
      StepKeepsCover(l, swept, plain, trace[0], from);
      StepKeepsSane(l, false, plain, trace[0], from);
      SweepsChangeNoAnswer(l, After1(l, true, swept, trace[0]), After1(l, false, plain, trace[0]), trace[1..], trace[0].at);
    }
  }

  /** No history without overflow tells the janitor from its absence. */
  ghost predicate SweepsAreInvisible(l: Limits) {
    forall trace :: Monotone(0.0, trace) && NoOverflow(l, map[], trace) ==>
      Answers(l, true, map[], trace) == Answers(l, false, map[], trace)
  }

  // ---------------------------------------------------------------- bursts

  function Burst(ip: string, n: nat, at: real): seq<Step> { seq(n, _ => Hit(ip, at)) }

  function AllAllowed(ip: string, n: nat): seq<(string, bool)> { seq(n, _ => (ip, true)) }

  /** The buckets after n allowed requests at one moment. */
  function Spent(l: Limits, ips: Ips, ip: string, n: nat, at: real): Ips {
    if n == 0 then ips else ips[ip := Bucket(Available(l, ips, ip, at) - n as real, at)]
  }

  lemma SpentOneByOne(l: Limits, ips: Ips, ip: string, n: nat, at: real)
    requires Sensible(l) && 1 <= n && n as real <= Available(l, ips, ip, at)
    ensures Available(l, Served(l, ips, ip, at), ip, at) == Available(l, ips, ip, at) - 1.0
    ensures Spent(l, Served(l, ips, ip, at), ip, n - 1, at) == Spent(l, ips, ip, n, at)
  {
    EarningsGrow(l, 0.0, 0.0);
  }

  /** A burst that finds enough tokens is allowed as a whole and pays for itself. */
  lemma {:induction false} BurstIsAllowed(l: Limits, sweeps: bool, ips: Ips, ip: string, n: nat, at: real, rest: seq<Step>)
    requires Sensible(l) && n as real <= Available(l, ips, ip, at)
    ensures Answers(l, sweeps, ips, Burst(ip, n, at) + rest)
         == AllAllowed(ip, n) + Answers(l, sweeps, Spent(l, ips, ip, n, at), rest)
    decreases n
  {
    if n == 0 {
      assert Burst(ip, n, at) + rest == rest;
      assert AllAllowed(ip, n) == [];
    } else {
      var next, trace := Served(l, ips, ip, at), Burst(ip, n, at) + rest;
      SpentOneByOne(l, ips, ip, n, at);
      assert 1.0 <= n as real;
      BurstIsAllowed(l, sweeps, next, ip, n - 1, at, rest);
      assert trace == [Hit(ip, at)] + (Burst(ip, n - 1, at) + rest);
      FirstAnswer(l, sweeps, ips, ip, at, Burst(ip, n - 1, at) + rest);
      assert AllAllowed(ip, n) == [(ip, true)] + AllAllowed(ip, n - 1);
    }
  }

  lemma FirstAnswer(l: Limits, sweeps: bool, ips: Ips, ip: string, at: real, rest: seq<Step>)
    ensures Answers(l, sweeps, ips, [Hit(ip, at)] + rest)
         == [(ip, Available(l, ips, ip, at) >= 1.0)] + Answers(l, sweeps, Served(l, ips, ip, at), rest)
  {
    assert ([Hit(ip, at)] + rest)[1..] == rest;
  }

  /** A burst that asks for more tokens than there are is denied somewhere. */
  lemma {:induction false} BurstIsDenied(l: Limits, sweeps: bool, ips: Ips, ip: string, n: nat, at: real)
    requires Sensible(l) && 0.0 <= Available(l, ips, ip, at) < n as real
    ensures (ip, false) in Answers(l, sweeps, ips, Burst(ip, n, at))
    decreases n
  {
    if n > 0 {
      var trace := Burst(ip, n, at);
      assert trace[1..] == Burst(ip, n - 1, at);
      assert Answers(l, sweeps, ips, trace)[0] == (ip, Available(l, ips, ip, at) >= 1.0);
      EarningsGrow(l, 0.0, 0.0);
      if Available(l, ips, ip, at) >= 1.0 {
        BurstIsDenied(l, sweeps, Served(l, ips, ip, at), ip, n - 1, at);
      }
    }
  }

  /** A history that shows the difference: a burst, a tick just past the timeout, a burst. */
  function Probe(ip: string, n: nat, at: real): seq<Step> {
    Burst(ip, n, 0.0) + ([Tick(at)] + Burst(ip, n, at))
  }

  lemma {:induction false} BurstIsMonotone(ip: string, n: nat, at: real, rest: seq<Step>, from: real)
    requires from <= at && Monotone(at, rest)
    ensures Monotone(from, Burst(ip, n, at) + rest)
    decreases n
  {
    var trace := Burst(ip, n, at) + rest;
    if n == 0 {
      assert trace == rest;
      if |rest| > 0 { assert from <= rest[0].at; }
    } else {
      assert trace[1..] == Burst(ip, n - 1, at) + rest;
      BurstIsMonotone(ip, n - 1, at, rest, at);
    }
  }

  lemma {:induction false} BurstDoesNotOverflow(l: Limits, ips: Ips, ip: string, n: nat, at: real, rest: seq<Step>)
    requires Sensible(l) && n as real <= Available(l, ips, ip, at) && NoOverflow(l, Spent(l, ips, ip, n, at), rest)
    ensures NoOverflow(l, ips, Burst(ip, n, at) + rest)
    decreases n
  {
    var trace := Burst(ip, n, at) + rest;
    if n == 0 {
      assert trace == rest;
    } else {
      assert trace[0] == Hit(ip, at) && trace[1..] == Burst(ip, n - 1, at) + rest;
      SpentOneByOne(l, ips, ip, n, at);
      BurstDoesNotOverflow(l, Served(l, ips, ip, at), ip, n - 1, at, rest);
    }
  }

  lemma ProbeIsFair(l: Limits, ip: string, at: real)
    requires Sensible(l) && at > l.idleTimeout
    ensures Monotone(0.0, Probe(ip, l.burst, at)) && NoOverflow(l, map[], Probe(ip, l.burst, at))
  {
    var n := l.burst;
    var tail := [Tick(at)] + Burst(ip, n, at);
    assert tail[1..] == Burst(ip, n, at) && Burst(ip, n, at) + [] == Burst(ip, n, at);
    BurstIsMonotone(ip, n, at, [], at);
    BurstIsMonotone(ip, n, 0.0, tail, 0.0);
    var spent := Spent(l, map[], ip, n, 0.0);
    assert Live(l, spent, at) == map[];
    BurstDoesNotOverflow(l, map[], ip, n, at, []);
    BurstDoesNotOverflow(l, map[], ip, n, 0.0, tail);
  }

  /** If the timeout is too short to refill a bucket, the probe tells a sweeping limiter, which
      grants the second burst, from a plain one, which does not. */
  lemma ProbeTellsThemApart(l: Limits, ip: string, at: real)
    requires Sensible(l) && at > l.idleTimeout && Earned(l, at) < l.burst as real
    ensures Answers(l, true, map[], Probe(ip, l.burst, at)) != Answers(l, false, map[], Probe(ip, l.burst, at))
  {
    var n := l.burst;
    var burst := Burst(ip, n, at);
    var tail := [Tick(at)] + burst;
    var spent := Spent(l, map[], ip, n, 0.0);
    assert tail[1..] == burst && burst + [] == burst;
    BurstIsAllowed(l, true, map[], ip, n, 0.0, tail);
    BurstIsAllowed(l, false, map[], ip, n, 0.0, tail);
    assert Live(l, spent, at) == map[];
    BurstIsAllowed(l, true, map[], ip, n, at, []);
    EarningsGrow(l, 0.0, at);
    BurstIsDenied(l, false, spent, ip, n, at);
    assert Answers(l, true, spent, tail) == AllAllowed(ip, n);
    assert Answers(l, false, spent, tail) == Answers(l, false, spent, burst);
    var plain := Answers(l, false, map[], Probe(ip, n, at));
    assert plain == AllAllowed(ip, n) + Answers(l, false, spent, burst);
    assert (ip, false) in plain;
    assert (ip, false) !in Answers(l, true, map[], Probe(ip, n, at));
  }

  /** Sweeping is invisible exactly when a bucket refills within the idle timeout. */
  lemma SweepsAreInvisibleIff(l: Limits)
    requires Sensible(l)
    ensures SweepsAreInvisible(l) <==> Earned(l, l.idleTimeout) >= l.burst as real
  {
    if Earned(l, l.idleTimeout) >= l.burst as real {
      forall trace | Monotone(0.0, trace) && NoOverflow(l, map[], trace)
        ensures Answers(l, true, map[], trace) == Answers(l, false, map[], trace)
      {
        SweepsChangeNoAnswer(l, map[], map[], trace, 0.0);
      }
    } else {
      var gap := (l.burst as real - Earned(l, l.idleTimeout)) / 2.0;
      var at := l.idleTimeout + gap / l.rate;
      assert Earned(l, at) == Earned(l, l.idleTimeout) + gap;
      ProbeIsFair(l, "", at);
      ProbeTellsThemApart(l, "", at);
    }
  }

  /** The production values: ten minutes refill any bucket ten times over. */
  lemma DefaultSweepsAreInvisible(perMinute: nat)
    requires perMinute > 0
    ensures SweepsAreInvisible(Defaults(perMinute))
  {
    var l := Defaults(perMinute);
    assert Earned(l, l.idleTimeout) == 10.0 * perMinute as real;
    SweepsAreInvisibleIff(l);
  }

  // ---------------------------------------------------------------- rates

  function Grants(answers: seq<(string, bool)>, ip: string): nat { multiset(answers)[(ip, true)] }

  function End(trace: seq<Step>, from: real): real { if |trace| == 0 then from else trace[|trace| - 1].at }

  lemma GrantsOneMore(a: (string, bool), rest: seq<(string, bool)>, ip: string)
    ensures Grants([a] + rest, ip) == Grants(rest, ip) + if a == (ip, true) then 1 else 0
  {}

  /** 1 for a granted request of the IP. */
  function Cost(l: Limits, ips: Ips, s: Step, ip: string): nat {
    if s.Hit? && s.ip == ip && Available(l, ips, ip, s.at) >= 1.0 then 1 else 0
  }

  lemma StepPays(l: Limits, ips: Ips, s: Step, ip: string, from: real)
    requires Sensible(l) && from <= s.at
    ensures Cost(l, ips, s, ip) as real + Available(l, After1(l, false, ips, s), ip, s.at)
         <= Available(l, ips, ip, from) + Earned(l, s.at - from)
  {
    WaitingEarnsAtMost(l, ips, ip, from, s.at);
    if s.Hit? { HitCosts(l, ips, s.ip, s.at, ip); }
  }

  lemma AnswersCost(l: Limits, ips: Ips, trace: seq<Step>, ip: string)
    requires |trace| > 0
    ensures Grants(Answers(l, false, ips, trace), ip)
         == Cost(l, ips, trace[0], ip) + Grants(Answers(l, false, After1(l, false, ips, trace[0]), trace[1..]), ip)
  {
    var s := trace[0];
    if s.Hit? {
      GrantsOneMore((s.ip, Available(l, ips, s.ip, s.at) >= 1.0), Answers(l, false, After1(l, false, ips, s), trace[1..]), ip);
    }
  }

  /** Every grant costs a token, and only time brings tokens. */
  lemma {:induction false} GrantsArePaidFor(l: Limits, ips: Ips, trace: seq<Step>, ip: string, from: real)
    requires Sensible(l) && Sane(l, ips, from) && Monotone(from, trace)
    ensures Grants(Answers(l, false, ips, trace), ip) as real
         <= Available(l, ips, ip, from) + Earned(l, End(trace, from) - from)
    decreases |trace|
  {
    EarningsGrow(l, 0.0, 0.0);
    if |trace| == 0 {
      if ip in ips { EarningsGrow(l, 0.0, from - ips[ip].last); }
    } else {
      var s, rest := trace[0], trace[1..];
      var next := After1(l, false, ips, s);
      StepKeepsSane(l, false, ips, s, from);
      GrantsArePaidFor(l, next, rest, ip, s.at);
      StepPays(l, ips, s, ip, from);
      AnswersCost(l, ips, trace, ip);
      EarningsAdd(l, s.at - from, End(rest, s.at) - s.at);
      assert (s.at - from) + (End(rest, s.at) - s.at) == End(trace, from) - from;
    }
  }

  lemma WaitingEarnsAtMost(l: Limits, ips: Ips, ip: string, from: real, at: real)
    requires Sensible(l) && from <= at
    ensures Available(l, ips, ip, at) <= Available(l, ips, ip, from) + Earned(l, at - from)
  {
    EarningsGrow(l, 0.0, at - from);
    if ip in ips { EarningsAdd(l, from - ips[ip].last, at - from); }
  }

  lemma HitCosts(l: Limits, ips: Ips, hit: string, at: real, ip: string)
    requires Sensible(l)
    ensures Available(l, Served(l, ips, hit, at), ip, at)
         == Available(l, ips, ip, at) - if hit == ip && Available(l, ips, ip, at) >= 1.0 then 1.0 else 0.0
  {
    EarningsGrow(l, 0.0, 0.0);
  }

  /** After any history, a window is answered as by a limiter that never swept. */
  lemma PlainHistory(l: Limits, before: seq<Step>, window: seq<Step>) returns (plain: Ips)
    requires Sensible(l) && Earned(l, l.idleTimeout) >= l.burst as real
    requires Monotone(0.0, before) && Monotone(End(before, 0.0), window)
    ensures Sane(l, plain, End(before, 0.0))
    ensures Answers(l, true, After(l, true, map[], before), window) == Answers(l, false, plain, window)
  {
    SweepsChangeNoAnswer(l, map[], map[], before, 0.0);
    RunKeepsSane(l, false, map[], before, 0.0);
    plain := After(l, false, map[], before);
    SweepsChangeNoAnswer(l, After(l, true, map[], before), plain, window, End(before, 0.0));
  }

  /** The time between the first and the last step. */
  function Span(window: seq<Step>): real {
    if |window| == 0 then 0.0 else window[|window| - 1].at - window[0].at
  }

  /** At most a burst and what the window earns. */
  predicate WithinBudget(l: Limits, grants: nat, window: seq<Step>) {
    grants as real <= l.burst as real + Earned(l, Span(window))
  }

  /** In any window of any history without overflow, however long the limiter ran before, one IP
      is granted at most burst + rate * (length of the window) requests. */
  lemma WindowBound(l: Limits, before: seq<Step>, window: seq<Step>, ip: string)
    requires Sensible(l) && Earned(l, l.idleTimeout) >= l.burst as real
    requires Monotone(0.0, before) && Monotone(End(before, 0.0), window)
    ensures WithinBudget(l, Grants(Answers(l, true, After(l, true, map[], before), window), ip), window)
  {
    var plain := PlainHistory(l, before, window);
    PlainWindowBound(l, plain, window, ip, End(before, 0.0));
  }

  lemma PlainWindowBound(l: Limits, ips: Ips, window: seq<Step>, ip: string, from: real)
    requires Sensible(l) && Sane(l, ips, from) && Monotone(from, window)
    ensures WithinBudget(l, Grants(Answers(l, false, ips, window), ip), window)
  {
    if |window| > 0 {
      var first := window[0].at;
      assert Sane(l, ips, first) && Monotone(first, window);
      GrantsArePaidFor(l, ips, window, ip, first);
      AtMostABurst(l, ips, ip, first);
      assert End(window, first) - first == Span(window);
    }
  }

  lemma AtMostABurst(l: Limits, ips: Ips, ip: string, at: real)
    ensures Available(l, ips, ip, at) <= l.burst as real
  {
  }

  // ---------------------------------------------------------------- polite clients

  predicate IsHit(s: Step, ip: string) { s.Hit? && s.ip == ip }

  /** The IP's requests are at least 1/rate apart. */
  ghost predicate Spaced(l: Limits, trace: seq<Step>, ip: string) {
    forall i, j :: 0 <= i < j < |trace| && IsHit(trace[i], ip) && IsHit(trace[j], ip)
      ==> Earned(l, trace[j].at - trace[i].at) >= 1.0
  }

  /** And that far from an earlier moment. */
  ghost predicate SpacedFrom(l: Limits, last: real, trace: seq<Step>, ip: string) {
    forall i :: 0 <= i < |trace| && IsHit(trace[i], ip) ==> Earned(l, trace[i].at - last) >= 1.0
  }

  lemma SpacedTail(l: Limits, ips: Ips, trace: seq<Step>, ip: string)
    requires |trace| > 0 && Spaced(l, trace, ip) && (ip in ips ==> SpacedFrom(l, ips[ip].last, trace, ip))
    ensures var next := After1(l, false, ips, trace[0]);
      Spaced(l, trace[1..], ip) && (ip in next ==> SpacedFrom(l, next[ip].last, trace[1..], ip))
  {
    var next, rest := After1(l, false, ips, trace[0]), trace[1..];
    assert forall i :: 0 <= i < |rest| ==> rest[i] == trace[i + 1];
    if ip in next {
      forall i | 0 <= i < |rest| && IsHit(rest[i], ip) ensures Earned(l, rest[i].at - next[ip].last) >= 1.0 {
        assert IsHit(trace[i + 1], ip);
      }
    }
  }

  /** Whoever spaces requests at least 1/rate apart is never denied. */
  lemma {:induction false} SpacedIsNeverDenied(l: Limits, ips: Ips, trace: seq<Step>, ip: string, from: real)
    requires Sensible(l) && Sane(l, ips, from) && Monotone(from, trace)
    requires Spaced(l, trace, ip) && (ip in ips ==> SpacedFrom(l, ips[ip].last, trace, ip))
    ensures (ip, false) !in Answers(l, false, ips, trace)
    decreases |trace|
  {
    if |trace| > 0 {
      StepKeepsSane(l, false, ips, trace[0], from);
      SpacedTail(l, ips, trace, ip);
      SpacedIsNeverDenied(l, After1(l, false, ips, trace[0]), trace[1..], ip, trace[0].at);
      assert IsHit(trace[0], ip) && ip in ips ==> Earned(l, trace[0].at - ips[ip].last) >= 1.0;
    }
  }

  /** The same with the janitor at work. */
  lemma PoliteClientsAreServed(l: Limits, trace: seq<Step>, ip: string)
    requires Sensible(l) && Earned(l, l.idleTimeout) >= l.burst as real
    requires Monotone(0.0, trace) && Spaced(l, trace, ip)
    ensures (ip, false) !in Answers(l, true, map[], trace)
  {
    SweepsChangeNoAnswer(l, map[], map[], trace, 0.0);
    SpacedIsNeverDenied(l, map[], trace, ip, 0.0);
  }
}
