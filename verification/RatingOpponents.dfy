/** Why the agreement of ingest and rebuild is stated without placeholder and gated opponents: the
    log does not record them, and every opponent counts. Exactly when both see the same. */
module RatingOpponents {
  import opened Glicko
  import opened GlickoLaws
  import opened RatingMatch
  import opened RatingFold
  import opened RatingLog
  import opened RatingRuns
  import opened Sorting

  // ---------------------------------------------------------------- how many

  lemma {:induction false} GateSize(env: Env, date: int, ids: seq<Id>)
    ensures |Gate(env, date, ids)| <= |ids| && (|Gate(env, date, ids)| == |ids| ==> Gate(env, date, ids) == ids)
    ensures forall id <- Gate(env, date, ids) :: id in ids
    ensures Distinct(ids) ==> Distinct(Gate(env, date, ids))
  {
    if |ids| > 0 {
      var front := ids[..|ids| - 1];
      GateSize(env, date, front);
      assert ids == front + [ids[|ids| - 1]];
      assert forall i :: 0 <= i < |Gate(env, date, front)| ==> Gate(env, date, front)[i] in front;
    }
  }

  lemma EligibleAreListed(env: Env, m: RawMatch, team: Team)
    requires DistinctPlayers(env, m)
    ensures Distinct(Fielded(env, m, team)) && Enumerates(Eligible(env, m, team), IdSet(Eligible(env, m, team)))
  {
    var all := Fielded(env, m, A) + Fielded(env, m, B);
    assert forall i :: 0 <= i < |Fielded(env, m, A)| ==> all[i] == Fielded(env, m, A)[i];
    assert forall i :: 0 <= i < |Fielded(env, m, B)| ==> all[|Fielded(env, m, A)| + i] == Fielded(env, m, B)[i];
    GateSize(env, m.date, Fielded(env, m, team));
  }

  lemma SideSize(env: Env, rows: map<Id, Row>, m: RawMatch, team: Team)
    requires DistinctPlayers(env, m)
    ensures |Facing(Base(env), rows, IdSet(Eligible(env, m, team)))| == |Eligible(env, m, team)| <= |Fielded(env, m, team)|
    ensures |Eligible(env, m, team)| == |Fielded(env, m, team)| ==> Eligible(env, m, team) == Fielded(env, m, team)
    ensures |Opponents(env, rows, m, team)| == |Fielded(env, m, team)| + Placeholders(m, team)
  {
    EligibleAreListed(env, m, team);
    GateSize(env, m.date, Fielded(env, m, team));
    var ids := Eligible(env, m, team);
    SortedIdsEnumerate(IdSet(ids));
    EnumerationsAreAsLong(SortedIds(IdSet(ids)), ids);
  }

  lemma {:induction false} EnumerationsAreAsLong(a: seq<Id>, b: seq<Id>)
    requires Distinct(a) && Distinct(b) && IdSet(a) == IdSet(b)
    ensures |a| == |b|
  {
    SizeOfIdSet(a);
    SizeOfIdSet(b);
  }

  lemma {:induction false} SizeOfIdSet(a: seq<Id>)
    requires Distinct(a)
    ensures |IdSet(a)| == |a|
  {
    if |a| > 0 {
      var front := a[..|a| - 1];
      SizeOfIdSet(front);
      assert a == front + [a[|a| - 1]];
      assert IdSet(a) == IdSet(front) + {a[|a| - 1]};
    }
  }

  // ---------------------------------------------------------------- whom the log leaves out

  /** Fielded but not rated. */
  function GatedOut(env: Env, date: int, ids: seq<Id>): seq<Id> {
    if |ids| == 0 then []
    else
      var front, last := GatedOut(env, date, ids[..|ids| - 1]), ids[|ids| - 1];
      if Registered(env, date, last) then front else front + [last]
  }

  lemma {:induction false} GateSplits(env: Env, date: int, ids: seq<Id>)
    ensures |Gate(env, date, ids)| + |GatedOut(env, date, ids)| == |ids|
  {
    if |ids| > 0 { GateSplits(env, date, ids[..|ids| - 1]); }
  }

  /** What an ingest sees of a side besides its rated players. */
  function Unlogged(env: Env, rows: map<Id, Row>, m: RawMatch, team: Team): seq<State> {
    States(Base(env), rows, GatedOut(env, m.date, Fielded(env, m, team)))
    + seq(Placeholders(m, team), _ => State(env.cfg.params.initialRating, env.cfg.params.initialRD))
  }

  lemma SumOfConcat(f: State -> real, a: seq<State>, b: seq<State>)
    ensures Sum(f, a + b) == Sum(f, a) + Sum(f, b)
    decreases |b|
  {
    if |b| == 0 {
      assert a + b == a;
    } else {
      assert (a + b)[..|a + b| - 1] == a + b[..|b| - 1];
      SumOfConcat(f, a, b[..|b| - 1]);
    }
  }

  lemma SumSnoc(f: State -> real, s: seq<State>, x: State)
    ensures Sum(f, s + [x]) == Sum(f, s) + f(x)
  {
    assert (s + [x])[..|s|] == s;
  }

  lemma {:induction false} SumSplitsAtTheGate(env: Env, f: State -> real, rows: map<Id, Row>, date: int, ids: seq<Id>)
    ensures Sum(f, States(Base(env), rows, ids))
         == Sum(f, States(Base(env), rows, Gate(env, date, ids))) + Sum(f, States(Base(env), rows, GatedOut(env, date, ids)))
  {
    if |ids| > 0 {
      var base, front, last := Base(env), ids[..|ids| - 1], ids[|ids| - 1];
      SumSplitsAtTheGate(env, f, rows, date, front);
      assert ids == front + [last];
      StatesOfConcat(base, rows, front, [last]);
      StatesOfConcat(base, rows, Gate(env, date, front), [last]);
      StatesOfConcat(base, rows, GatedOut(env, date, front), [last]);
      SumSnoc(f, States(base, rows, front), StateOf(base, rows, last));
      SumSnoc(f, States(base, rows, Gate(env, date, front)), StateOf(base, rows, last));
      SumSnoc(f, States(base, rows, GatedOut(env, date, front)), StateOf(base, rows, last));
    }
  }

  /** Summed over the opponents of an ingest: what the replay sums, and what it leaves out. */
  lemma SumOverOpponents(env: Env, f: State -> real, rows: map<Id, Row>, m: RawMatch, team: Team)
    requires DistinctPlayers(env, m)
    ensures Sum(f, Opponents(env, rows, m, team))
         == Sum(f, Facing(Base(env), rows, IdSet(Eligible(env, m, team)))) + Sum(f, Unlogged(env, rows, m, team))
  {
    var base, fielded, ids := Base(env), Fielded(env, m, team), Eligible(env, m, team);
    var unknown := seq(Placeholders(m, team), _ => State(env.cfg.params.initialRating, env.cfg.params.initialRD));
    SumOfConcat(f, States(base, rows, fielded), unknown);
    SumOfConcat(f, States(base, rows, GatedOut(env, m.date, fielded)), unknown);
    SumSplitsAtTheGate(env, f, rows, m.date, fielded);
    EligibleAreListed(env, m, team);
    SortedIdsEnumerate(IdSet(ids));
    EnumerationsArePermutations(ids, SortedIds(IdSet(ids)), IdSet(ids));
    StatesOfPermutation(base, rows, ids, SortedIds(IdSet(ids)));
    SumIgnoresOrder(f, States(base, rows, ids), Facing(base, rows, IdSet(ids)));
  }

  lemma NothingUnlogged(env: Env, rows: map<Id, Row>, m: RawMatch)
    requires HasBothSides(env, m)
    ensures Replayable(env, m) <==> Unlogged(env, rows, m, A) == [] && Unlogged(env, rows, m, B) == []
  {
    GateSplits(env, m.date, Fielded(env, m, A));
    GateSplits(env, m.date, Fielded(env, m, B));
    GateSize(env, m.date, Fielded(env, m, A));
    GateSize(env, m.date, Fielded(env, m, B));
  }

  // ---------------------------------------------------------------- every opponent counts

  function Added(q2: real, dSum: real): real { q2 * dSum }

  lemma DeviationForm(m: Maths, rd: real, dSum: real)
    requires rd > 0.0 && Pos(dSum)
    ensures Pos(Quot(1.0, rd * rd)) && Pos(Added(Q(m) * Q(m), dSum))
    ensures RawRD(m, rd, dSum) == m.sqrt(Quot(1.0, Quot(1.0, rd * rd) + Added(Q(m) * Q(m), dSum)))
  {
    PrecisionForm(m, rd, dSum);
  }

  lemma AddedGrows(k: real, s: real, t: real)
    requires Pos(Added(k, s)) && Pos(s) && s < t
    ensures Added(k, s) < Added(k, t)
  {
    if k <= 0.0 {
      MulOrder(k, 0.0, s);
    } else {
      MulPos(k, t - s);
      assert k * t == k * s + k * (t - s);
    }
  }

  /** The more is added to the precision, the smaller the deviation. */
  lemma RootsOfQuotients(m: Maths, base: real, less: real, more: real)
    requires Lawful(m) && Pos(base) && Pos(less) && less < more
    ensures m.sqrt(Quot(1.0, base + more)) < m.sqrt(Quot(1.0, base + less))
  {
    var a, b := base + less, base + more;
    QuotPos(1.0, a);
    QuotPos(1.0, b);
    var x, y := m.sqrt(Quot(1.0, a)), m.sqrt(Quot(1.0, b));
    QuotStrict(a, b);
    if x <= y {
      MulOrder(x, y, x);
      MulOrder(x, y, y);
    }
  }

  lemma QuotStrict(a: real, b: real)
    requires 0.0 < a < b
    ensures Quot(1.0, b) < Quot(1.0, a)
  {
    QuotPos(1.0, a);
    QuotPos(1.0, b);
    var x, y := Quot(1.0, a), Quot(1.0, b);
    MulPos(y, b - a);
    assert y * b == y * a + y * (b - a);
    if x <= y { MulOrder(x, y, a); }
  }

  /** The deviation after a game against these opponents, before clamp and rounding. */
  function Deviation(m: Maths, st: State, opps: seq<State>): real { RawRD(m, st.rd, Sum(DTerm(m, st.rating), opps)) }

  /** The larger the sum over the opponents, the smaller the deviation. */
  lemma MoreIsMoreCertain(m: Maths, rd: real, less: real, more: real)
    requires Lawful(m) && rd > 0.0 && Pos(less) && less < more
    ensures RawRD(m, rd, more) < RawRD(m, rd, less)
  {
    DeviationForm(m, rd, less);
    DeviationForm(m, rd, more);
    AddedGrows(Q(m) * Q(m), less, more);
    RootsOfQuotients(m, Quot(1.0, rd * rd), Added(Q(m) * Q(m), less), Added(Q(m) * Q(m), more));
  }

  /** Against one side an ingest and a replay find the same deviation exactly when the log leaves
      nobody of it out. */
  lemma SideAgreesIff(env: Env, m: Maths, rows: map<Id, Row>, game: RawMatch, team: Team, st: State)
    requires Lawful(m) && DistinctPlayers(env, game) && Eligible(env, game, team) != [] && st.rd > 0.0
    ensures var (seen, logged) := (Opponents(env, rows, game, team), Facing(Base(env), rows, IdSet(Eligible(env, game, team))));
      && Deviation(m, st, seen) <= Deviation(m, st, logged)
      && (Deviation(m, st, seen) == Deviation(m, st, logged) <==> Unlogged(env, rows, game, team) == [])
  {
    var f, logged, more := DTerm(m, st.rating), Facing(Base(env), rows, IdSet(Eligible(env, game, team))), Unlogged(env, rows, game, team);
    SumOverOpponents(env, f, rows, game, team);
    SideSize(env, rows, game, team);
    SumSigns(m, st.rating, logged);
    SumSigns(m, st.rating, more);
    if more != [] {
      MoreIsMoreCertain(m, st.rd, Sum(f, logged), Sum(f, Opponents(env, rows, game, team)));
    }
  }

  /** An ingest and a replay of one game agree on the opponents of both sides, in number and in
      the deviations they lead to, whatever the players' own states, exactly when the game is
      replayable: no placeholder, and nobody gated. */
  lemma OpponentsAgreeIffReplayable(env: Env, src: Source, m: Maths, rows: map<Id, Row>, game: RawMatch, a: State, b: State)
    requires Lawful(m) && HasBothSides(env, game) && DistinctPlayers(env, game) && a.rd > 0.0 && b.rd > 0.0
    ensures var en := EntryFor(env, src, game);
      && (Replayable(env, game) <==>
            && |Opponents(env, rows, game, A)| == |Facing(Base(env), rows, en.sideA)|
            && |Opponents(env, rows, game, B)| == |Facing(Base(env), rows, en.sideB)|)
      && (Replayable(env, game) <==>
            && Deviation(m, a, Opponents(env, rows, game, B)) == Deviation(m, a, Facing(Base(env), rows, en.sideB))
            && Deviation(m, b, Opponents(env, rows, game, A)) == Deviation(m, b, Facing(Base(env), rows, en.sideA)))
  {
    SideSize(env, rows, game, A);
    SideSize(env, rows, game, B);
    SideAgreesIff(env, m, rows, game, B, a);
    SideAgreesIff(env, m, rows, game, A, b);
    NothingUnlogged(env, rows, game);
  }
}
