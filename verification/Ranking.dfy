/** The standings of a stage item: its played matches are replayed in order. */
module Ranking {
  import opened Models
  import opened Sorting

  datatype Stats = Stats(wins: nat, draws: nat, losses: nat, points: real, scoreFor: nat, scoreAgainst: nat) {
    function Difference(): int { scoreFor - scoreAgainst }
  }

  /** The results of the inputs, in the order in which they were first seen. */
  datatype Entry = Entry(id: InputId, stats: Stats)

  type Table = seq<Entry>

  /** How points are given: `expected` is the expected score for a rating difference, which the
      service computes as `1 / (1 + 10 ^ (d / 400))`. */
  datatype Rules = Rules(
    kind: StageType,
    win: real,
    draw: real,
    loss: real,
    addScorePoints: bool,
    expected: real -> real)
  {
    function Initial(): real { if kind.Swiss? then START_ELO else 0.0 }

    ghost predicate ProperExpectation() { IsExpectation(expected) }
  }

  /** An expected score is a proper probability, and those of the two sides add up to one. */
  ghost predicate IsExpectation(expected: real -> real) {
    && (forall d :: 0.0 < expected(d) < 1.0)
    && (forall d :: expected(d) + expected(-d) == 1.0)
  }

  const START_ELO: real := 1200.0
  const K_FACTOR: real := 32.0

  // ----- The dictionary -----

  function Get(t: Table, x: InputId, initial: real): Stats {
    if t == [] then Stats(0, 0, 0, initial, 0, 0)
    else if t[0].id == x then t[0].stats
    else Get(t[1..], x, initial)
  }

  function Put(t: Table, x: InputId, s: Stats): Table {
    if t == [] then [Entry(x, s)]
    else if t[0].id == x then [Entry(x, s)] + t[1..]
    else [t[0]] + Put(t[1..], x, s)
  }

  ghost predicate Has(t: Table, x: InputId) { exists e :: e in t && e.id == x }

  ghost predicate UniqueKeys(t: Table) { forall i, j :: 0 <= i < j < |t| ==> t[i].id != t[j].id }

  // ----- One match -----

  datatype Side = Home | Away

  function InputOf(m: Match, side: Side): InputId
    requires m.IsDefinitive()
  {
    if side.Home? then m.input1.value else m.input2.value
  }

  function Scored(m: Match, side: Side): nat { if side.Home? then m.score1 else m.score2 }

  function Conceded(m: Match, side: Side): nat { if side.Home? then m.score2 else m.score1 }

  /** The points of a result, before any rating is applied. */
  function Gain(m: Match, side: Side, rules: Rules): real {
    (if Scored(m, side) > Conceded(m, side) then rules.win
     else if Scored(m, side) == Conceded(m, side) then rules.draw
     else rules.loss)
    + (if rules.addScorePoints then Scored(m, side) as real else 0.0)
  }

  /** Conversion to an integer drops the fraction. */
  function Truncate(x: real): int {
    if x >= 0.0 then x.Floor else -((-x).Floor)
  }

  type Ratings = (real, real)

  /** The points a match adds: in Swiss items, the whole part of an Elo change. */
  function PointsChange(m: Match, side: Side, rules: Rules, before: Ratings): real {
    if rules.kind.Swiss? then
      Truncate(K_FACTOR * (Gain(m, side, rules) - rules.expected(RatingGap(side, before)))) as real
    else Gain(m, side, rules)
  }

  function RatingGap(side: Side, before: Ratings): real {
    if side.Home? then before.1 - before.0 else before.0 - before.1
  }

  function Added(s: Stats, m: Match, side: Side, rules: Rules, before: Ratings): Stats {
    var own, other := Scored(m, side), Conceded(m, side);
    Stats(
      s.wins + if own > other then 1 else 0,
      s.draws + if own == other then 1 else 0,
      s.losses + if own < other then 1 else 0,
      s.points + PointsChange(m, side, rules, before),
      s.scoreFor + own,
      s.scoreAgainst + other)
  }

  function Record(t: Table, m: Match, side: Side, rules: Rules, before: Ratings): Table
    requires m.IsDefinitive()
  {
    var x := InputOf(m, side);
    Put(t, x, Added(Get(t, x, rules.Initial()), m, side, rules, before))
  }

  /** Reading an entry creates it. */
  function Touch(t: Table, x: InputId, rules: Rules): Table { Put(t, x, Get(t, x, rules.Initial())) }

  function Touched(t: Table, m: Match, rules: Rules): Table
    requires m.IsDefinitive()
  {
    Touch(Touch(t, m.input1.value, rules), m.input2.value, rules)
  }

  function RatingsBefore(t: Table, m: Match, rules: Rules): Ratings
    requires m.IsDefinitive()
  {
    (Get(t, m.input1.value, rules.Initial()).points, Get(t, m.input2.value, rules.Initial()).points)
  }

  /** Both sides use the ratings before the match. */
  function Play(t: Table, m: Match, rules: Rules): Table
    requires m.IsDefinitive()
  {
    var before := RatingsBefore(t, m, rules);
    Record(Record(Touched(t, m, rules), m, Home, rules, before), m, Away, rules, before)
  }

  ghost predicate AllDefinitive(ms: seq<Match>) { forall m :: m in ms ==> m.IsDefinitive() }

  function Replay(t: Table, ms: seq<Match>, rules: Rules): Table
    requires AllDefinitive(ms)
  {
    if ms == [] then t else Play(Replay(t, ms[..|ms| - 1], rules), ms[|ms| - 1], rules)
  }

  /** The table before the first match: an entry for each input that has a team. */
  function Start(inputs: seq<Input>, rules: Rules): Table {
    if inputs == [] then []
    else
      var k := |inputs| - 1;
      var t := Start(inputs[..k], rules);
      if inputs[k].team.Some? then Put(t, inputs[k].id, Stats(0, 0, 0, rules.Initial(), 0, 0)) else t
  }

  // ----- The matches that count -----

  predicate MatchByNumber(a: Match, b: Match) { a.id < b.id }

  predicate Counts(m: Match) { m.IsDefinitive() && m.IsScored() }

  function CountedIn(ms: seq<Match>): (r: seq<Match>)
    ensures AllDefinitive(r)
    ensures forall m :: m in r <==> m in ms && Counts(m)
  {
    if ms == [] then []
    else
      assert forall m :: m in ms <==> m == ms[0] || m in ms[1..];
      (if Counts(ms[0]) then [ms[0]] else []) + CountedIn(ms[1..])
  }

  function CountedOfRound(r: Round): (ms: seq<Match>)
    ensures AllDefinitive(ms)
  {
    if r.isDraft then [] else CountedIn(Sort(MatchByNumber, r.matches))
  }

  function CountedOf(rounds: seq<Round>): (ms: seq<Match>)
    ensures AllDefinitive(ms)
  {
    if rounds == [] then [] else CountedOfRound(rounds[0]) + CountedOf(rounds[1..])
  }

  function Counted(item: StageItem): (ms: seq<Match>)
    ensures AllDefinitive(ms)
  {
    CountedOf(Sort(RoundById, item.rounds))
  }

  lemma {:induction false} CountedMembers(rounds: seq<Round>, m: Match)
    ensures m in CountedOf(rounds) <==> Counts(m) && exists r :: r in rounds && !r.isDraft && m in r.matches
  {
    if rounds != [] {
      CountedMembers(rounds[1..], m);
      MemberOfPermutation(Sort(MatchByNumber, rounds[0].matches), rounds[0].matches, m);
      assert forall r :: r in rounds <==> r == rounds[0] || r in rounds[1..];
    }
  }

  /** A match counts exactly when both of its inputs are known, it has a score, and its round is no
      draft. */
  lemma {:induction false} CountedExactly(item: StageItem, m: Match)
    ensures m in Counted(item) <==>
            m.input1.Some? && m.input2.Some? && (m.score1 > 0 || m.score2 > 0)
            && exists r :: r in item.rounds && !r.isDraft && m in r.matches
  {
    var sorted := Sort(RoundById, item.rounds);
    CountedMembers(sorted, m);
    forall r
      ensures r in sorted <==> r in item.rounds
    {
      MemberOfPermutation(sorted, item.rounds, r);
    }
  }

  /** `a` is played before `b`: in an earlier round, or in the same one with a smaller id. */
  ghost predicate PlayedBefore(rounds: seq<Round>, a: Match, b: Match) {
    exists r, s ::
      r in rounds && s in rounds && a in r.matches && b in s.matches && (r.id < s.id || (r == s && a.id < b.id))
  }

  lemma {:induction false} CountedInAscends(ms: seq<Match>, i: nat, j: nat)
    requires StrictlySorted(MatchByNumber, ms) && i < j < |CountedIn(ms)|
    ensures CountedIn(ms)[i].id < CountedIn(ms)[j].id
  {
    var rest := CountedIn(ms[1..]);
    if Counts(ms[0]) {
      if i > 0 {
        CountedInAscends(ms[1..], i - 1, j - 1);
      } else {
        assert CountedIn(ms)[j] == rest[j - 1] && rest[j - 1] in rest;
        var k :| 0 <= k < |ms[1..]| && ms[1..][k] == rest[j - 1];
        assert MatchByNumber(ms[0], ms[k + 1]);
      }
    } else {
      CountedInAscends(ms[1..], i, j);
    }
  }

  lemma {:induction false} ByNumberIsOrder()
    ensures StrictWeak(MatchByNumber) && StrictWeak(RoundById)
  {
  }

  lemma {:induction false} CountedOfRoundOrder(r: Round, i: nat, j: nat)
    requires Separates(MatchByNumber, r.matches) && i < j < |CountedOfRound(r)|
    ensures CountedOfRound(r)[i].id < CountedOfRound(r)[j].id
  {
    ByNumberIsOrder();
    SortSeparated(MatchByNumber, r.matches);
    CountedInAscends(Sort(MatchByNumber, r.matches), i, j);
  }

  lemma {:induction false} CountedOfRoundMember(r: Round, m: Match)
    requires m in CountedOfRound(r)
    ensures m in r.matches
  {
    MemberOfPermutation(Sort(MatchByNumber, r.matches), r.matches, m);
  }

  lemma {:induction false} PlayedBeforeInRest(rounds: seq<Round>, a: Match, b: Match)
    requires rounds != [] && PlayedBefore(rounds[1..], a, b)
    ensures PlayedBefore(rounds, a, b)
  {
    var r, s :| r in rounds[1..] && s in rounds[1..] && a in r.matches && b in s.matches
      && (r.id < s.id || (r == s && a.id < b.id));
    assert r in rounds && s in rounds;
  }

  lemma {:induction false} PlayedBeforeInRound(rounds: seq<Round>, r: Round, a: Match, b: Match)
    requires r in rounds && a in r.matches && b in r.matches && a.id < b.id
    ensures PlayedBefore(rounds, a, b)
  {
  }

  lemma {:induction false} PlayedBeforeLater(rounds: seq<Round>, a: Match, b: Match)
    requires rounds != [] && StrictlySorted(RoundById, rounds)
    requires a in CountedOfRound(rounds[0]) && b in CountedOf(rounds[1..])
    ensures PlayedBefore(rounds, a, b)
  {
    CountedOfRoundMember(rounds[0], a);
    CountedMembers(rounds[1..], b);
    var s :| s in rounds[1..] && !s.isDraft && b in s.matches;
    var k :| 0 <= k < |rounds[1..]| && rounds[1..][k] == s;
    assert RoundById(rounds[0], rounds[k + 1]);
    assert rounds[0] in rounds && s in rounds;
  }

  lemma {:induction false} CountedOfFirst(rounds: seq<Round>, i: nat)
    requires rounds != [] && i < |CountedOf(rounds)|
    ensures CountedOf(rounds)[i] == if i < |CountedOfRound(rounds[0])| then CountedOfRound(rounds[0])[i]
                                    else CountedOf(rounds[1..])[i - |CountedOfRound(rounds[0])|]
  {
  }

  lemma {:induction false} CountedOfOrder(rounds: seq<Round>, i: nat, j: nat, a: Match, b: Match)
    requires StrictlySorted(RoundById, rounds) && forall r :: r in rounds ==> Separates(MatchByNumber, r.matches)
    requires i < j < |CountedOf(rounds)| && a == CountedOf(rounds)[i] && b == CountedOf(rounds)[j]
    ensures PlayedBefore(rounds, a, b)
  {
    var n := |CountedOfRound(rounds[0])|;
    CountedOfFirst(rounds, i);
    CountedOfFirst(rounds, j);
    assert rounds[0] in rounds;
    if j < n {
      CountedOfRoundOrder(rounds[0], i, j);
      CountedOfRoundMember(rounds[0], a);
      CountedOfRoundMember(rounds[0], b);
      PlayedBeforeInRound(rounds, rounds[0], a, b);
    } else if i < n {
      PlayedBeforeLater(rounds, a, b);
    } else {
      CountedOfOrder(rounds[1..], i - n, j - n, a, b);
      PlayedBeforeInRest(rounds, a, b);
    }
  }

  /** With unique ids the matches are replayed in the order of rounds, and by id within a round. */
  lemma {:induction false} CountedInOrder(item: StageItem, i: nat, j: nat)
    requires Separates(RoundById, item.rounds)
    requires forall r :: r in item.rounds ==> Separates(MatchByNumber, r.matches)
    requires i < j < |Counted(item)|
    ensures PlayedBefore(item.rounds, Counted(item)[i], Counted(item)[j])
  {
    var sorted := Sort(RoundById, item.rounds);
    ByNumberIsOrder();
    SortSeparated(RoundById, item.rounds);
    forall r
      ensures r in sorted <==> r in item.rounds
    {
      MemberOfPermutation(sorted, item.rounds, r);
    }
    CountedOfOrder(sorted, i, j, Counted(item)[i], Counted(item)[j]);
  }

  // ----- The replay -----

  method SetStatistics(t: Table, m: Match, side: Side, rules: Rules, before: Ratings) returns (r: Table)
    requires m.IsDefinitive()
    ensures r == Record(t, m, side, rules, before)
  {
    var x := if side.Home? then m.input1.value else m.input2.value;
    var s := Get(t, x, rules.Initial());
    var teamScore := if side.Home? then m.score1 else m.score2;
    var opponentScore := if side.Home? then m.score2 else m.score1;
    var wasDraw := m.score1 == m.score2;
    var hasWon := !wasDraw && teamScore == if m.score1 < m.score2 then m.score2 else m.score1;
    s := s.(scoreFor := s.scoreFor + teamScore, scoreAgainst := s.scoreAgainst + opponentScore);
    var gain;
    if hasWon {
      s := s.(wins := s.wins + 1);
      gain := rules.win;
    } else if wasDraw {
      s := s.(draws := s.draws + 1);
      gain := rules.draw;
    } else {
      s := s.(losses := s.losses + 1);
      gain := rules.loss;
    }
    if rules.addScorePoints {
      gain := gain + teamScore as real;
    }
    if rules.kind.Swiss? {
      var gap := (before.1 - before.0) * if side.Home? then 1.0 else -1.0;
      assert gap == RatingGap(side, before);
      s := s.(points := s.points + Truncate(K_FACTOR * (gain - rules.expected(gap))) as real);
    } else {
      s := s.(points := s.points + gain);
    }
    r := Put(t, x, s);
  }

  method StartTable(inputs: seq<Input>, rules: Rules) returns (t: Table)
    ensures t == Start(inputs, rules)
  {
    t := [];
    for k := 0 to |inputs|
      invariant t == Start(inputs[..k], rules)
    {
      assert inputs[..k + 1][..k] == inputs[..k];
      if inputs[k].team.Some? {
        t := Put(t, inputs[k].id, Stats(0, 0, 0, rules.Initial(), 0, 0));
      }
    }
    assert inputs[..|inputs|] == inputs;
  }

  method PlayMatch(t: Table, m: Match, rules: Rules) returns (r: Table)
    requires m.IsDefinitive()
    ensures r == Play(t, m, rules)
  {
    r := Touch(t, m.input1.value, rules);
    var first := Get(t, m.input1.value, rules.Initial()).points;
    var second := Get(t, m.input2.value, rules.Initial()).points;
    r := Touch(r, m.input2.value, rules);
    r := SetStatistics(r, m, Home, rules, (first, second));
    r := SetStatistics(r, m, Away, rules, (first, second));
  }

  method ReplayMatches(start: Table, ms: seq<Match>, rules: Rules) returns (t: Table)
    requires AllDefinitive(ms)
    ensures t == Replay(start, ms, rules)
  {
    t := start;
    for k := 0 to |ms|
      invariant t == Replay(start, ms[..k], rules)
    {
      assert ms[..k + 1][..k] == ms[..k];
      t := PlayMatch(t, ms[k], rules);
    }
    assert ms[..|ms|] == ms;
  }

  function Results(item: StageItem, rules: Rules): Table {
    Replay(Start(item.inputs, rules), Counted(item), rules)
  }

  method DetermineRanking(item: StageItem, rules: Rules) returns (t: Table)
    ensures t == Results(item, rules)
  {
    t := StartTable(item.inputs, rules);
    t := ReplayMatches(t, Counted(item), rules);
  }
}
