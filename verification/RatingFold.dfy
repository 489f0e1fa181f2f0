/** Replaying rated games. `Step` plays one game on all its players at once; `ApplyAll` plays it
    as both loops of the program do, one player after the other. The two agree. */
module RatingFold {
  import opened Glicko
  import opened Options
  import opened Sorting
  import opened RatingMatch

  /** A player's uuid as a number: uuids compare as their values do. */
  type Id = nat

  /** A row of rating_players, and a playerRuntime. */
  datatype Row = Row(rating: real, rd: real, peak: real, games: nat, wins: nat, losses: nat, last: Option<int>)

  /** A row of rating_events; its unique match key stands for its surrogate uuid. */
  datatype Event = Event(
    key: Key, kind: string, sourceId: string, date: int, createdAt: int, gameOrder: string,
    scoreA: int, scoreB: int, target: int, phaseWeight: real)

  datatype Outcome = W | L

  /** A row of rating_deltas without its key (event, player). */
  datatype Delta = Delta(team: Team, outcome: Outcome, expected: real, movm: real, delta: real, newRating: real)

  /** An event with the players the deltas table maps to its sides. */
  datatype Entry = Entry(ev: Event, sideA: set<Id>, sideB: set<Id>)

  /** The arithmetic as seen by the two loops. */
  datatype Calc = Calc(
    update: (State, seq<State>, real, real, real) -> (State, real),
    mean: (real, seq<State>) -> real,
    grow: (real, int) -> real,
    movm: (int, int, int) -> real)

  function GlickoCalc(m: Maths, p: Params): Calc {
    Calc((st, opps, outcome, movm, weight) => Update(m, p, st, opps, outcome, movm, weight),
         (r, opps) => MeanExpected(m, r, opps),
         (rd, days) => GrowRD(m, rd, days, p),
         (a, b, target) => MarginOfVictory(a, b, target, p))
  }

  predicate SameAnswers(c: Calc, st: State, a: seq<State>, b: seq<State>, outcome: real, movm: real, weight: real) {
    && c.update(st, a, outcome, movm, weight) == c.update(st, b, outcome, movm, weight)
    && c.mean(st.rating, a) == c.mean(st.rating, b)
  }

  /** Opponents matter as a multiset only. */
  ghost predicate OrderBlind(c: Calc) {
    forall st, a, b, outcome, movm, weight ::
      multiset(a) == multiset(b) ==> SameAnswers(c, st, a, b, outcome, movm, weight)
  }

  lemma GlickoIsOrderBlind(m: Maths, p: Params)
    ensures OrderBlind(GlickoCalc(m, p))
  {
    forall st, a, b, outcome, movm, weight | multiset(a) == multiset(b)
      ensures SameAnswers(GlickoCalc(m, p), st, a, b, outcome, movm, weight)
    {
      UpdateIgnoresOrder(m, p, st, a, b, outcome, movm, weight);
    }
  }

  // ---------------------------------------------------------------- one player in one game

  /** What a game contributes to every player of it. */
  datatype Terms = Terms(date: int, movm: real, weight: real)

  function TermsOf(c: Calc, ev: Event): Terms {
    Terms(ev.date, c.movm(ev.scoreA, ev.scoreB, ev.target), if ev.phaseWeight <= 0.0 then 1.0 else ev.phaseWeight)
  }

  function OutcomeA(scoreA: int, scoreB: int): real {
    if scoreA > scoreB then 1.0 else if scoreA == scoreB then 0.5 else 0.0
  }

  /** The state entering a game, after the uncertainty of the idle days. */
  function Grown(c: Calc, row: Row, date: int): State {
    State(row.rating, if row.last.Some? && date > row.last.value then c.grow(row.rd, date - row.last.value) else row.rd)
  }

  function Played(c: Calc, row: Row, opps: seq<State>, out: real, t: Terms): Row {
    var st := c.update(Grown(c, row, t.date), opps, out, t.movm, t.weight).0;
    Row(st.rating, st.rd, if st.rating > row.peak then st.rating else row.peak, row.games + 1,
        if out == 1.0 then row.wins + 1 else row.wins,
        if out == 0.0 then row.losses + 1 else row.losses, Some(t.date))
  }

  function DeltaOf(c: Calc, row: Row, team: Team, opps: seq<State>, out: real, t: Terms): Delta {
    var (st, delta) := c.update(Grown(c, row, t.date), opps, out, t.movm, t.weight);
    Delta(team, if out == 0.0 then L else W, c.mean(row.rating, opps), Round4(t.movm), delta, st.rating)
  }

  // ---------------------------------------------------------------- sets of players in order

  lemma {:induction false} LeastOf(s: set<nat>) returns (x: nat)
    requires s != {}
    ensures x in s && forall y :: y in s ==> x <= y
  {
    var first :| first in s;
    var rest := s - {first};
    x := first;
    if rest != {} {
      x := LeastOf(rest);
      if first < x { x := first; }
    }
    forall y | y in s ensures x <= y {
      assert y == first || y in rest;
    }
  }

  lemma LeastExists(s: set<nat>)
    requires s != {}
    ensures exists x :: x in s && forall y :: y in s ==> x <= y
  {
    var x := LeastOf(s);
  }

  /** The ids in ascending order. */
  function SortedIds(s: set<nat>): seq<nat> {
    if s == {} then []
    else
      LeastExists(s);
      var x :| x in s && forall y :: y in s ==> x <= y;
      [x] + SortedIds(s - {x})
  }

  ghost predicate Ascending(ids: seq<Id>) {
    forall i, j :: 0 <= i < j < |ids| ==> ids[i] < ids[j]
  }

  lemma SmallestFirst(s: set<nat>) returns (x: nat)
    requires s != {}
    ensures x in s && (forall y :: y in s ==> x <= y) && SortedIds(s) == [x] + SortedIds(s - {x})
  {
    LeastExists(s);
    x :| x in s && forall y :: y in s ==> x <= y;
  }

  lemma {:induction false} SortedIdsEnumerate(s: set<nat>)
    ensures Enumerates(SortedIds(s), s) && Ascending(SortedIds(s))
  {
    if s != {} {
      var x := SmallestFirst(s);
      SortedIdsEnumerate(s - {x});
      ConsEnumerates(x, SortedIds(s - {x}), s);
    }
  }

  lemma ConsEnumerates(x: nat, rest: seq<nat>, s: set<nat>)
    requires x in s && forall y :: y in s ==> x <= y
    requires Enumerates(rest, s - {x}) && Ascending(rest)
    ensures Enumerates([x] + rest, s) && Ascending([x] + rest)
  {
    forall i | 0 <= i < |rest| ensures x < rest[i] {
      assert rest[i] in rest;
      assert rest[i] in s - {x};
    }
    forall y ensures y in [x] + rest <==> y in s {
      assert y in rest <==> y in s - {x};
    }
  }

  ghost predicate Enumerates(ids: seq<Id>, side: set<Id>) {
    Distinct(ids) && forall x :: x in ids <==> x in side
  }

  lemma EnumerationsArePermutations(a: seq<Id>, b: seq<Id>, side: set<Id>)
    requires Enumerates(a, side) && Enumerates(b, side)
    ensures multiset(a) == multiset(b)
  {
    forall x ensures multiset(a)[x] == multiset(b)[x] {
      CountIsOne(a, x);
      CountIsOne(b, x);
    }
  }

  lemma {:induction false} CountIsOne(a: seq<Id>, x: Id)
    requires Distinct(a)
    ensures multiset(a)[x] == if x in a then 1 else 0
  {
    if |a| > 0 {
      assert a == [a[0]] + a[1..];
      CountIsOne(a[1..], x);
    }
  }

  // ---------------------------------------------------------------- the rows a game starts from

  /** A player without a row starts from base. */
  function Get(base: Id -> Row, rows: map<Id, Row>, id: Id): Row {
    if id in rows then rows[id] else base(id)
  }

  function StateOf(base: Id -> Row, rows: map<Id, Row>, id: Id): State {
    var row := Get(base, rows, id);
    State(row.rating, row.rd)
  }

  function States(base: Id -> Row, rows: map<Id, Row>, ids: seq<Id>): (r: seq<State>)
    ensures |r| == |ids|
  {
    seq(|ids|, i requires 0 <= i < |ids| => StateOf(base, rows, ids[i]))
  }

  lemma StatesOfConcat(base: Id -> Row, rows: map<Id, Row>, a: seq<Id>, b: seq<Id>)
    ensures States(base, rows, a + b) == States(base, rows, a) + States(base, rows, b)
  {}

  lemma {:induction false} StatesOfPermutation(base: Id -> Row, rows: map<Id, Row>, a: seq<Id>, b: seq<Id>)
    requires multiset(a) == multiset(b)
    ensures multiset(States(base, rows, a)) == multiset(States(base, rows, b))
  {
    assert |multiset(a)| == |a| && |multiset(b)| == |b|;
    if |a| > 0 {
      assert a[0] in multiset(b);
      var i :| 0 <= i < |b| && b[i] == a[0];
      var rest := b[..i] + b[i + 1..];
      TakeOut(a, b, i);
      assert a == [a[0]] + a[1..] && b == b[..i] + ([a[0]] + b[i + 1..]);
      StatesOfPermutation(base, rows, a[1..], rest);
      StatesOfConcat(base, rows, [a[0]], a[1..]);
      StatesOfConcat(base, rows, b[..i], [a[0]] + b[i + 1..]);
      StatesOfConcat(base, rows, [a[0]], b[i + 1..]);
      StatesOfConcat(base, rows, b[..i], b[i + 1..]);
    }
  }

  // ---------------------------------------------------------------- one game, all at once

  predicate TwoSided(en: Entry) { en.sideA != {} && en.sideB != {} }

  /** A side of the game as its opponents see it. */
  function Facing(base: Id -> Row, rows: map<Id, Row>, side: set<Id>): seq<State> {
    States(base, rows, SortedIds(side))
  }

  function StepRow(c: Calc, base: Id -> Row, rows: map<Id, Row>, en: Entry, id: Id): Row {
    var t, out := TermsOf(c, en.ev), OutcomeA(en.ev.scoreA, en.ev.scoreB);
    if id in en.sideA then Played(c, Get(base, rows, id), Facing(base, rows, en.sideB), out, t)
    else if id in en.sideB then Played(c, Get(base, rows, id), Facing(base, rows, en.sideA), 1.0 - out, t)
    else Get(base, rows, id)
  }

  function StepDelta(c: Calc, base: Id -> Row, rows: map<Id, Row>, en: Entry, id: Id): Delta {
    var t, out := TermsOf(c, en.ev), OutcomeA(en.ev.scoreA, en.ev.scoreB);
    if id in en.sideA then DeltaOf(c, Get(base, rows, id), A, Facing(base, rows, en.sideB), out, t)
    else DeltaOf(c, Get(base, rows, id), B, Facing(base, rows, en.sideA), 1.0 - out, t)
  }

  /** One game of the log. An event that lost a side plays no part. */
  function Step(c: Calc, base: Id -> Row, rows: map<Id, Row>, en: Entry): map<Id, Row> {
    if !TwoSided(en) then rows
    else map id | id in rows.Keys + en.sideA + en.sideB :: StepRow(c, base, rows, en, id)
  }

  function StepDeltas(c: Calc, base: Id -> Row, rows: map<Id, Row>, en: Entry): map<(Key, Id), Delta> {
    if !TwoSided(en) then map[]
    else map id | id in en.sideA + en.sideB :: (en.ev.key, id) := StepDelta(c, base, rows, en, id)
  }

  function Replay(c: Calc, base: Id -> Row, log: seq<Entry>): map<Id, Row> {
    if |log| == 0 then map[]
    else Step(c, base, Replay(c, base, log[..|log| - 1]), log[|log| - 1])
  }

  function ReplayDeltas(c: Calc, base: Id -> Row, log: seq<Entry>): map<(Key, Id), Delta> {
    if |log| == 0 then map[]
    else
      var front := log[..|log| - 1];
      ReplayDeltas(c, base, front) + StepDeltas(c, base, Replay(c, base, front), log[|log| - 1])
  }

  // ---------------------------------------------------------------- one game, player by player

  datatype Upd = Upd(id: Id, team: Team, out: real, opps: seq<State>)

  function SideUpdates(ids: seq<Id>, team: Team, out: real, opps: seq<State>): (r: seq<Upd>)
    ensures |r| == |ids|
  {
    seq(|ids|, i requires 0 <= i < |ids| => Upd(ids[i], team, out, opps))
  }

  /** The updates both loops queue before touching any row. */
  function Updates(a: seq<Id>, b: seq<Id>, out: real, facedByA: seq<State>, facedByB: seq<State>): seq<Upd> {
    SideUpdates(a, A, out, facedByA) + SideUpdates(b, B, 1.0 - out, facedByB)
  }

  function ApplyAll(c: Calc, base: Id -> Row, rows: map<Id, Row>, us: seq<Upd>, t: Terms): map<Id, Row> {
    if |us| == 0 then rows
    else
      var u := us[|us| - 1];
      var before := ApplyAll(c, base, rows, us[..|us| - 1], t);
      before[u.id := Played(c, Get(base, before, u.id), u.opps, u.out, t)]
  }

  function DeltasAll(c: Calc, base: Id -> Row, rows: map<Id, Row>, key: Key, us: seq<Upd>, t: Terms): map<(Key, Id), Delta> {
    if |us| == 0 then map[]
    else
      var u := us[|us| - 1];
      var before := ApplyAll(c, base, rows, us[..|us| - 1], t);
      DeltasAll(c, base, rows, key, us[..|us| - 1], t)
        [(key, u.id) := DeltaOf(c, Get(base, before, u.id), u.team, u.opps, u.out, t)]
  }

  predicate DistinctTargets(us: seq<Upd>) {
    forall i, j :: 0 <= i < j < |us| ==> us[i].id != us[j].id
  }

  function Find(us: seq<Upd>, id: Id): Option<Upd> {
    if |us| == 0 then None
    else if us[|us| - 1].id == id then Some(us[|us| - 1])
    else Find(us[..|us| - 1], id)
  }

  lemma {:induction false} FindFinds(us: seq<Upd>, id: Id)
    ensures Find(us, id).None? <==> forall i :: 0 <= i < |us| ==> us[i].id != id
    ensures Find(us, id).Some? ==> Find(us, id).value in us && Find(us, id).value.id == id
  {
    if |us| > 0 {
      FindFinds(us[..|us| - 1], id);
      assert us == us[..|us| - 1] + [us[|us| - 1]];
    }
  }

  /** Updates of different players do not see one another. */
  lemma {:induction false} ApplyAllIsSimultaneous(
    c: Calc, base: Id -> Row, rows: map<Id, Row>, key: Key, us: seq<Upd>, t: Terms, id: Id)
    requires DistinctTargets(us)
    ensures var r, d := ApplyAll(c, base, rows, us, t), DeltasAll(c, base, rows, key, us, t);
            match Find(us, id)
            case None => (id in r <==> id in rows) && (id in rows ==> r[id] == rows[id]) && (key, id) !in d
            case Some(u) =>
              && id in r && r[id] == Played(c, Get(base, rows, id), u.opps, u.out, t)
              && (key, id) in d && d[(key, id)] == DeltaOf(c, Get(base, rows, id), u.team, u.opps, u.out, t)
  {
    if |us| > 0 {
      var front, u := us[..|us| - 1], us[|us| - 1];
      ApplyAllIsSimultaneous(c, base, rows, key, front, t, id);
      FindFinds(front, u.id);
    }
  }

  lemma {:induction false} DeltasAllHaveTheKey(c: Calc, base: Id -> Row, rows: map<Id, Row>, key: Key, us: seq<Upd>, t: Terms)
    ensures forall k <- DeltasAll(c, base, rows, key, us, t) :: k.0 == key
  {
    if |us| > 0 {
      DeltasAllHaveTheKey(c, base, rows, key, us[..|us| - 1], t);
    }
  }

  lemma UpdateTargets(a: seq<Id>, b: seq<Id>, out: real, facedByA: seq<State>, facedByB: seq<State>)
    ensures forall u <- Updates(a, b, out, facedByA, facedByB) :: u.id in a || u.id in b
  {
    var us := Updates(a, b, out, facedByA, facedByB);
    assert forall i :: 0 <= i < |us| ==> us[i].id == if i < |a| then a[i] else b[i - |a|];
  }

  lemma FindInUpdates(a: seq<Id>, b: seq<Id>, out: real, facedByA: seq<State>, facedByB: seq<State>, id: Id)
    requires Distinct(a) && Distinct(b) && forall x :: !(x in a && x in b)
    ensures var us := Updates(a, b, out, facedByA, facedByB);
            && DistinctTargets(us)
            && Find(us, id) == if id in a then Some(Upd(id, A, out, facedByA))
                               else if id in b then Some(Upd(id, B, 1.0 - out, facedByB))
                               else None
  {
    var us := Updates(a, b, out, facedByA, facedByB);
    assert forall i :: 0 <= i < |us| ==> us[i].id == if i < |a| then a[i] else b[i - |a|];
    assert forall i :: 0 <= i < |a| ==> a[i] in a;
    assert forall i :: 0 <= i < |b| ==> b[i] in b;
    FindFinds(us, id);
    if id in a {
      var i :| 0 <= i < |a| && a[i] == id;
      assert us[i].id == id;
    } else if id in b {
      var i :| 0 <= i < |b| && b[i] == id;
      assert us[|a| + i].id == id;
    }
  }

  /** Player by player, in any order of either side and with the opponents read in any order,
      one game does what Step does at once. */
  lemma UpdatesPlayTheStep(c: Calc, base: Id -> Row, rows: map<Id, Row>, en: Entry,
                           a: seq<Id>, b: seq<Id>, facedByA: seq<State>, facedByB: seq<State>)
    requires TwoSided(en) && en.sideA !! en.sideB
    requires Enumerates(a, en.sideA) && Enumerates(b, en.sideB)
    requires multiset(facedByA) == multiset(States(base, rows, b))
    requires multiset(facedByB) == multiset(States(base, rows, a))
    requires OrderBlind(c) || (facedByA == Facing(base, rows, en.sideB) && facedByB == Facing(base, rows, en.sideA))
    ensures var us := Updates(a, b, OutcomeA(en.ev.scoreA, en.ev.scoreB), facedByA, facedByB);
            && ApplyAll(c, base, rows, us, TermsOf(c, en.ev)) == Step(c, base, rows, en)
            && DeltasAll(c, base, rows, en.ev.key, us, TermsOf(c, en.ev)) == StepDeltas(c, base, rows, en)
  {
    var t, out, key := TermsOf(c, en.ev), OutcomeA(en.ev.scoreA, en.ev.scoreB), en.ev.key;
    var us := Updates(a, b, out, facedByA, facedByB);
    SameOpponents(base, rows, b, en.sideB, facedByA);
    SameOpponents(base, rows, a, en.sideA, facedByB);
    var r, d := ApplyAll(c, base, rows, us, t), DeltasAll(c, base, rows, key, us, t);
    forall id: Id
      ensures id in r <==> id in rows.Keys + en.sideA + en.sideB
      ensures id in r ==> r[id] == StepRow(c, base, rows, en, id)
      ensures (key, id) in d <==> id in en.sideA + en.sideB
      ensures (key, id) in d ==> d[(key, id)] == StepDelta(c, base, rows, en, id)
    {
      UpdatesPlayOneRow(c, base, rows, en, a, b, facedByA, facedByB, id);
    }
    DeltasAllHaveTheKey(c, base, rows, key, us, t);
    DeltaMapsAgree(c, base, rows, en, d);
    RowMapsAgree(c, base, rows, en, r);
  }

  lemma RowMapsAgree(c: Calc, base: Id -> Row, rows: map<Id, Row>, en: Entry, r: map<Id, Row>)
    requires TwoSided(en)
    requires forall id: Id :: id in r <==> id in rows.Keys + en.sideA + en.sideB
    requires forall id: Id :: id in r ==> r[id] == StepRow(c, base, rows, en, id)
    ensures r == Step(c, base, rows, en)
  {
  }

  lemma DeltaMapsAgree(c: Calc, base: Id -> Row, rows: map<Id, Row>, en: Entry, d: map<(Key, Id), Delta>)
    requires TwoSided(en)
    requires forall k <- d :: k.0 == en.ev.key
    requires forall id: Id :: (en.ev.key, id) in d <==> id in en.sideA + en.sideB
    requires forall id: Id :: (en.ev.key, id) in d ==> d[(en.ev.key, id)] == StepDelta(c, base, rows, en, id)
    ensures d == StepDeltas(c, base, rows, en)
  {
    var d' := StepDeltas(c, base, rows, en);
    forall k: (Key, Id) ensures k in d <==> k in d' {
      assert k in d ==> k == (en.ev.key, k.1);
    }
    forall k | k in d ensures d[k] == d'[k] {
      assert k == (en.ev.key, k.1);
    }
  }

  lemma SameOpponents(base: Id -> Row, rows: map<Id, Row>, ids: seq<Id>, side: set<Id>, faced: seq<State>)
    requires Enumerates(ids, side) && multiset(faced) == multiset(States(base, rows, ids))
    ensures multiset(faced) == multiset(Facing(base, rows, side))
  {
    SortedIdsEnumerate(side);
    EnumerationsArePermutations(ids, SortedIds(side), side);
    StatesOfPermutation(base, rows, ids, SortedIds(side));
  }

  lemma UpdatesPlayOneRow(c: Calc, base: Id -> Row, rows: map<Id, Row>, en: Entry,
                          a: seq<Id>, b: seq<Id>, facedByA: seq<State>, facedByB: seq<State>, id: Id)
    requires TwoSided(en) && en.sideA !! en.sideB
    requires Enumerates(a, en.sideA) && Enumerates(b, en.sideB)
    requires multiset(facedByA) == multiset(Facing(base, rows, en.sideB))
    requires multiset(facedByB) == multiset(Facing(base, rows, en.sideA))
    requires OrderBlind(c) || (facedByA == Facing(base, rows, en.sideB) && facedByB == Facing(base, rows, en.sideA))
    ensures var us := Updates(a, b, OutcomeA(en.ev.scoreA, en.ev.scoreB), facedByA, facedByB);
            var r := ApplyAll(c, base, rows, us, TermsOf(c, en.ev));
            var d := DeltasAll(c, base, rows, en.ev.key, us, TermsOf(c, en.ev));
            && (id in r <==> id in rows.Keys + en.sideA + en.sideB)
            && (id in r ==> r[id] == StepRow(c, base, rows, en, id))
            && ((en.ev.key, id) in d <==> id in en.sideA + en.sideB)
            && ((en.ev.key, id) in d ==> d[(en.ev.key, id)] == StepDelta(c, base, rows, en, id))
  {
    var t, out := TermsOf(c, en.ev), OutcomeA(en.ev.scoreA, en.ev.scoreB);
    ListsAreDisjoint(a, b, en);
    FindInUpdates(a, b, out, facedByA, facedByB, id);
    ApplyAllIsSimultaneous(c, base, rows, en.ev.key, Updates(a, b, out, facedByA, facedByB), t, id);
    SameRow(c, Get(base, rows, id), A, facedByA, Facing(base, rows, en.sideB), out, t);
    SameRow(c, Get(base, rows, id), B, facedByB, Facing(base, rows, en.sideA), 1.0 - out, t);
  }

  lemma ListsAreDisjoint(a: seq<Id>, b: seq<Id>, en: Entry)
    requires en.sideA !! en.sideB && Enumerates(a, en.sideA) && Enumerates(b, en.sideB)
    ensures forall x :: !(x in a && x in b)
  {
    forall x ensures !(x in a && x in b) { assert x in a ==> x in en.sideA; assert x in b ==> x in en.sideB; }
  }

  lemma SameRow(c: Calc, row: Row, team: Team, x: seq<State>, y: seq<State>, out: real, t: Terms)
    requires multiset(x) == multiset(y) && (OrderBlind(c) || x == y)
    ensures Played(c, row, x, out, t) == Played(c, row, y, out, t)
    ensures DeltaOf(c, row, team, x, out, t) == DeltaOf(c, row, team, y, out, t)
  {
    assert x == y || SameAnswers(c, Grown(c, row, t.date), x, y, out, t.movm, t.weight);
  }

  // ---------------------------------------------------------------- rows up to base

  /** The same row for everybody, counting base rows as present. */
  ghost predicate SameGets(base: Id -> Row, r1: map<Id, Row>, r2: map<Id, Row>) {
    forall id: Id :: Get(base, r1, id) == Get(base, r2, id)
  }

  lemma StatesRespectGets(base: Id -> Row, r1: map<Id, Row>, r2: map<Id, Row>, ids: seq<Id>)
    requires SameGets(base, r1, r2)
    ensures States(base, r1, ids) == States(base, r2, ids)
  {}

  lemma StepRowRespectsGets(c: Calc, base: Id -> Row, r1: map<Id, Row>, r2: map<Id, Row>, en: Entry, id: Id)
    requires SameGets(base, r1, r2)
    ensures StepRow(c, base, r1, en, id) == StepRow(c, base, r2, en, id)
    ensures StepDelta(c, base, r1, en, id) == StepDelta(c, base, r2, en, id)
  {
    StatesRespectGets(base, r1, r2, SortedIds(en.sideA));
    StatesRespectGets(base, r1, r2, SortedIds(en.sideB));
    assert Get(base, r1, id) == Get(base, r2, id);
  }

  lemma StepRespectsGets(c: Calc, base: Id -> Row, r1: map<Id, Row>, r2: map<Id, Row>, en: Entry)
    requires SameGets(base, r1, r2)
    ensures SameGets(base, Step(c, base, r1, en), Step(c, base, r2, en))
    ensures StepDeltas(c, base, r1, en) == StepDeltas(c, base, r2, en)
  {
    StepDeltasRespectGets(c, base, r1, r2, en);
    if TwoSided(en) {
      forall id: Id ensures Get(base, Step(c, base, r1, en), id) == Get(base, Step(c, base, r2, en), id) {
        StepRowRespectsGets(c, base, r1, r2, en, id);
        GetOfStep(c, base, r1, en, id);
        GetOfStep(c, base, r2, en, id);
      }
    }
  }

  lemma StepDeltasRespectGets(c: Calc, base: Id -> Row, r1: map<Id, Row>, r2: map<Id, Row>, en: Entry)
    requires SameGets(base, r1, r2)
    ensures StepDeltas(c, base, r1, en) == StepDeltas(c, base, r2, en)
  {
    forall id: Id ensures StepDelta(c, base, r1, en, id) == StepDelta(c, base, r2, en, id) {
      StepRowRespectsGets(c, base, r1, r2, en, id);
    }
  }

  lemma GetOfStep(c: Calc, base: Id -> Row, rows: map<Id, Row>, en: Entry, id: Id)
    requires TwoSided(en)
    ensures Get(base, Step(c, base, rows, en), id) == StepRow(c, base, rows, en, id)
  {}

  /** Base rows written out for the given players. */
  function Filled(base: Id -> Row, rows: map<Id, Row>, ids: set<Id>): map<Id, Row> {
    map id | id in rows.Keys + ids :: Get(base, rows, id)
  }

  lemma FilledIsTransparent(base: Id -> Row, rows: map<Id, Row>, ids: set<Id>)
    ensures SameGets(base, rows, Filled(base, rows, ids))
  {}

  /** Filling in rows before or after a game makes no difference. */
  lemma StepOfFilled(c: Calc, base: Id -> Row, rows: map<Id, Row>, en: Entry, ids: set<Id>)
    ensures Step(c, base, Filled(base, rows, ids), en) == Filled(base, Step(c, base, rows, en), ids)
    ensures StepDeltas(c, base, Filled(base, rows, ids), en) == StepDeltas(c, base, rows, en)
  {
    FilledIsTransparent(base, rows, ids);
    StepRespectsGets(c, base, rows, Filled(base, rows, ids), en);
    if TwoSided(en) {
      var x, y := Step(c, base, Filled(base, rows, ids), en), Filled(base, Step(c, base, rows, en), ids);
      assert x.Keys == y.Keys;
      forall id | id in x ensures x[id] == y[id] {
        StepRowRespectsGets(c, base, rows, Filled(base, rows, ids), en, id);
        GetOfStep(c, base, rows, en, id);
      }
    }
  }
}
