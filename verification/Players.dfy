/** The statistics of players, who share in whatever their teams achieve. */
module Players {
  import opened Models
  import opened Sorting
  import opened Ranking

  type PlayerId = int

  datatype PlayerStats = PlayerStats(wins: nat, draws: nat, losses: nat, swissScore: real)

  /** Who plays: the team of each final input, and the players of each team. */
  datatype Squads = Squads(teamOf: map<InputId, TeamId>, playersOf: map<TeamId, seq<PlayerId>>) {
    function Players(input: Option<InputId>): seq<PlayerId> {
      if input.Some? && input.value in teamOf && teamOf[input.value] in playersOf
      then playersOf[teamOf[input.value]] else []
    }

    function OfSide(m: Match, side: Side): seq<PlayerId> {
      Players(if side.Home? then m.input1 else m.input2)
    }
  }

  type RatingOf = map<PlayerId, real>
  type StatsOf = map<PlayerId, PlayerStats>

  function Rating(ratings: RatingOf, p: PlayerId): real { if p in ratings then ratings[p] else START_ELO }

  function StatsFor(stats: StatsOf, p: PlayerId): PlayerStats {
    if p in stats then stats[p] else PlayerStats(0, 0, 0, 0.0)
  }

  // ----- The matches, in schedule order -----

  function CountedInDeliveredOrder(rounds: seq<Round>): (ms: seq<Match>)
    ensures AllDefinitive(ms)
  {
    if rounds == [] then []
    else (if rounds[0].isDraft then [] else CountedIn(rounds[0].matches)) + CountedInDeliveredOrder(rounds[1..])
  }

  /** By start, unscheduled matches last, then by round and id. */
  predicate ScheduledBefore(a: Match, b: Match) {
    if a.start.Some? && b.start.None? then true
    else if a.start.None? && b.start.Some? then false
    else if a.start.Some? && b.start.Some? && a.start.value != b.start.value then a.start.value < b.start.value
    else if a.roundId != b.roundId then a.roundId < b.roundId
    else a.id < b.id
  }

  lemma {:induction false} ScheduleIsStrictWeak()
    ensures StrictWeak(ScheduledBefore)
  {
  }

  /** With unique ids the schedule order does not depend on the order of delivery. */
  lemma {:induction false} ScheduleIgnoresOrder(ms: seq<Match>, delivered: seq<Match>)
    requires (forall i, j :: 0 <= i < j < |ms| ==> ms[i].id != ms[j].id) && multiset(ms) == multiset(delivered)
    ensures Sort(ScheduledBefore, delivered) == Sort(ScheduledBefore, ms)
    ensures StrictlySorted(ScheduledBefore, Sort(ScheduledBefore, ms))
  {
    ScheduleIsStrictWeak();
    assert Separates(ScheduledBefore, ms);
    SortIgnoresOrder(ScheduledBefore, ms, delivered);
    SortSeparated(ScheduledBefore, ms);
  }

  function RoundsOf(items: seq<StageItem>): seq<Round> {
    if items == [] then [] else items[0].rounds + RoundsOf(items[1..])
  }

  function AllRounds(stages: seq<Stage>): seq<Round> {
    if stages == [] then [] else RoundsOf(stages[0].stageItems) + AllRounds(stages[1..])
  }

  function Scheduled(stages: seq<Stage>): seq<Match> {
    Sort(ScheduledBefore, CountedInDeliveredOrder(AllRounds(stages)))
  }

  lemma {:induction false} CountedMembersOf(rounds: seq<Round>, m: Match)
    ensures m in CountedInDeliveredOrder(rounds) <==>
            Counts(m) && exists r :: r in rounds && !r.isDraft && m in r.matches
  {
    if rounds != [] {
      CountedMembersOf(rounds[1..], m);
      assert forall r :: r in rounds <==> r == rounds[0] || r in rounds[1..];
    }
  }

  lemma {:induction false} RoundsOfIff(items: seq<StageItem>, r: Round)
    ensures r in RoundsOf(items) <==> exists item :: item in items && r in item.rounds
  {
    if items != [] {
      RoundsOfIff(items[1..], r);
      assert forall item :: item in items <==> item == items[0] || item in items[1..];
    }
  }

  ghost predicate HasRound(s: Stage, r: Round) { exists item :: item in s.stageItems && r in item.rounds }

  lemma {:induction false} AllRoundsIff(stages: seq<Stage>, r: Round)
    ensures r in AllRounds(stages) <==> exists s :: s in stages && HasRound(s, r)
  {
    if stages != [] {
      AllRoundsIff(stages[1..], r);
      RoundsOfIff(stages[0].stageItems, r);
      assert r in RoundsOf(stages[0].stageItems) <==> HasRound(stages[0], r);
      assert forall s :: s in stages <==> s == stages[0] || s in stages[1..];
    }
  }

  ghost predicate InPublishedRound(stages: seq<Stage>, m: Match) {
    exists s, r :: s in stages && HasRound(s, r) && !r.isDraft && m in r.matches
  }

  /** The matches that are replayed are those of published rounds with both inputs and a score. */
  lemma {:induction false} ScheduledExactly(stages: seq<Stage>, m: Match)
    ensures m in Scheduled(stages) <==>
            m.input1.Some? && m.input2.Some? && (m.score1 > 0 || m.score2 > 0) && InPublishedRound(stages, m)
  {
    var rounds := AllRounds(stages);
    MemberOfPermutation(Scheduled(stages), CountedInDeliveredOrder(rounds), m);
    CountedMembersOf(rounds, m);
    forall r
      ensures r in rounds <==> exists s :: s in stages && HasRound(s, r)
    {
      AllRoundsIff(stages, r);
    }
  }

  /** Matches with a start are replayed by it and before those without; then round and id decide. */
  lemma {:induction false} ScheduledInOrder(stages: seq<Stage>, i: nat, j: nat)
    requires i < j < |Scheduled(stages)|
    ensures var a, b := Scheduled(stages)[i], Scheduled(stages)[j];
      && (b.start.Some? ==> a.start.Some? && a.start.value <= b.start.value)
      && (a.start == b.start ==> a.roundId <= b.roundId && (a.roundId == b.roundId ==> a.id <= b.id))
  {
    ScheduleIsStrictWeak();
    SortSorts(ScheduledBefore, CountedInDeliveredOrder(AllRounds(stages)));
    assert !ScheduledBefore(Scheduled(stages)[j], Scheduled(stages)[i]);
  }

  // ----- One match -----

  function SumOfRatings(ratings: RatingOf, ps: seq<PlayerId>): real {
    if ps == [] then 0.0 else SumOfRatings(ratings, ps[..|ps| - 1]) + Rating(ratings, ps[|ps| - 1])
  }

  /** The rating of a team without players is the initial one. */
  function TeamRating(ratings: RatingOf, ps: seq<PlayerId>): real {
    if |ps| > 0 then SumOfRatings(ratings, ps) / |ps| as real else START_ELO
  }

  function ResultFor(m: Match, side: Side): real {
    if Scored(m, side) > Conceded(m, side) then 1.0
    else if Scored(m, side) == Conceded(m, side) then 0.5
    else 0.0
  }

  /** The rating points a side gains: what it achieved less what was expected of it. */
  function Change(m: Match, side: Side, teams: Ratings, expected: real -> real): real {
    K_FACTOR * (ResultFor(m, side) - expected(RatingGap(side, teams)))
  }

  function Rerate(ratings: RatingOf, ps: seq<PlayerId>, change: real): RatingOf {
    if ps == [] then ratings
    else
      var k := |ps| - 1;
      var r := Rerate(ratings, ps[..k], change);
      r[ps[k] := Rating(r, ps[k]) + change]
  }

  function Credited(s: PlayerStats, m: Match, side: Side): PlayerStats {
    var own, other := Scored(m, side), Conceded(m, side);
    PlayerStats(
      s.wins + if own > other then 1 else 0,
      s.draws + if own == other then 1 else 0,
      s.losses + if own < other then 1 else 0,
      s.swissScore + ResultFor(m, side))
  }

  function Credit(stats: StatsOf, ps: seq<PlayerId>, m: Match, side: Side): StatsOf {
    if ps == [] then stats
    else
      var k := |ps| - 1;
      var r := Credit(stats, ps[..k], m, side);
      r[ps[k] := Credited(StatsFor(r, ps[k]), m, side)]
  }

  datatype Totals = Totals(ratings: RatingOf, stats: StatsOf)

  function TeamRatings(ratings: RatingOf, m: Match, squads: Squads): Ratings {
    (TeamRating(ratings, squads.OfSide(m, Home)), TeamRating(ratings, squads.OfSide(m, Away)))
  }

  /** Both sides are rated by the ratings before the match. */
  function PlayFor(t: Totals, m: Match, side: Side, teams: Ratings, squads: Squads, expected: real -> real): Totals {
    Totals(Rerate(t.ratings, squads.OfSide(m, side), Change(m, side, teams, expected)),
           Credit(t.stats, squads.OfSide(m, side), m, side))
  }

  function PlayBoth(t: Totals, m: Match, squads: Squads, expected: real -> real): Totals {
    var teams := TeamRatings(t.ratings, m, squads);
    PlayFor(PlayFor(t, m, Home, teams, squads, expected), m, Away, teams, squads, expected)
  }

  function PlayAll(ms: seq<Match>, squads: Squads, expected: real -> real): Totals {
    if ms == [] then Totals(map[], map[])
    else PlayBoth(PlayAll(ms[..|ms| - 1], squads, expected), ms[|ms| - 1], squads, expected)
  }

  // ----- The replay -----

  method AverageRating(ratings: RatingOf, ps: seq<PlayerId>) returns (r: real)
    ensures r == TeamRating(ratings, ps)
  {
    if |ps| == 0 {
      return START_ELO;
    }
    r := 0.0;
    for k := 0 to |ps|
      invariant r == SumOfRatings(ratings, ps[..k])
    {
      assert ps[..k + 1][..k] == ps[..k];
      r := r + Rating(ratings, ps[k]);
    }
    assert ps[..|ps|] == ps;
    r := r / |ps| as real;
  }

  method CreditPlayer(stats: StatsOf, p: PlayerId, m: Match, side: Side, result: real) returns (r: StatsOf)
    requires result == ResultFor(m, side)
    ensures r == stats[p := Credited(StatsFor(stats, p), m, side)]
  {
    var score, opponentScore := Scored(m, side), Conceded(m, side);
    var s := StatsFor(stats, p);
    s := s.(swissScore := s.swissScore + result);
    if score > opponentScore {
      s := s.(wins := s.wins + 1);
    } else if score == opponentScore {
      s := s.(draws := s.draws + 1);
    } else {
      s := s.(losses := s.losses + 1);
    }
    r := stats[p := s];
  }

  method RateSide(t: Totals, m: Match, side: Side, teams: Ratings, squads: Squads, expected: real -> real)
      returns (r: Totals)
    ensures r == PlayFor(t, m, side, teams, squads, expected)
  {
    var ps := squads.OfSide(m, side);
    var score, opponentScore := Scored(m, side), Conceded(m, side);
    var gap := if side.Home? then teams.1 - teams.0 else teams.0 - teams.1;
    var result := if score > opponentScore then 1.0 else if score == opponentScore then 0.5 else 0.0;
    var change := K_FACTOR * (result - expected(gap));
    assert change == Change(m, side, teams, expected);
    var ratings, stats := t.ratings, t.stats;
    for k := 0 to |ps|
      invariant ratings == Rerate(t.ratings, ps[..k], change)
      invariant stats == Credit(t.stats, ps[..k], m, side)
    {
      assert ps[..k + 1][..k] == ps[..k];
      ratings := ratings[ps[k] := Rating(ratings, ps[k]) + change];
      stats := CreditPlayer(stats, ps[k], m, side, result);
    }
    assert ps[..|ps|] == ps;
    r := Totals(ratings, stats);
  }

  method ReplayForPlayers(ms: seq<Match>, squads: Squads, expected: real -> real) returns (t: Totals)
    ensures t == PlayAll(ms, squads, expected)
  {
    t := Totals(map[], map[]);
    for k := 0 to |ms|
      invariant t == PlayAll(ms[..k], squads, expected)
    {
      assert ms[..k + 1][..k] == ms[..k];
      var home := AverageRating(t.ratings, squads.OfSide(ms[k], Home));
      var away := AverageRating(t.ratings, squads.OfSide(ms[k], Away));
      t := RateSide(t, ms[k], Home, (home, away), squads, expected);
      t := RateSide(t, ms[k], Away, (home, away), squads, expected);
    }
    assert ms[..|ms|] == ms;
  }

  /** The nearest whole number, and of two equally near ones the even one. */
  function Rounded(x: real): int {
    var down := x.Floor;
    var rest := x - down as real;
    if rest < 0.5 || (rest == 0.5 && down % 2 == 0) then down else down + 1
  }

  lemma {:induction false} RoundedIsNearest(x: real, n: int)
    ensures -0.5 <= Rounded(x) as real - x <= 0.5
    ensures -0.5 < n as real - x < 0.5 ==> n == Rounded(x)
    ensures n as real - x == 0.5 || n as real - x == -0.5 ==> (n == Rounded(x) <==> n % 2 == 0)
  {
    var down := x.Floor;
    assert down as real <= x < (down + 1) as real;
    if -0.5 <= n as real - x <= 0.5 {
      assert n == down || n == down + 1;
    }
  }

  /** The statistics of the players, and their rounded ratings. */
  method DeterminePlayerStatistics(stages: seq<Stage>, squads: Squads, expected: real -> real)
      returns (t: Totals, ratings: map<PlayerId, int>)
    ensures t == PlayAll(Scheduled(stages), squads, expected)
    ensures ratings.Keys == t.stats.Keys && forall p :: p in ratings ==> ratings[p] == Rounded(Rating(t.ratings, p))
  {
    t := ReplayForPlayers(Scheduled(stages), squads, expected);
    ratings := map p | p in t.stats :: Rounded(Rating(t.ratings, p));
  }

  // ----- Swiss score -----

  ghost predicate ScoreFits(s: PlayerStats) { s.swissScore == s.wins as real + s.draws as real / 2.0 }

  lemma {:induction false} CreditFits(stats: StatsOf, ps: seq<PlayerId>, m: Match, side: Side)
    requires forall p :: p in stats ==> ScoreFits(stats[p])
    ensures forall p :: p in Credit(stats, ps, m, side) ==> ScoreFits(Credit(stats, ps, m, side)[p])
  {
    if ps != [] {
      CreditFits(stats, ps[..|ps| - 1], m, side);
    }
  }

  /** For every match history the swiss score of a player is the wins and half the draws. */
  lemma {:induction false} SwissScoreFits(ms: seq<Match>, squads: Squads, expected: real -> real)
    ensures forall p :: p in PlayAll(ms, squads, expected).stats ==> ScoreFits(PlayAll(ms, squads, expected).stats[p])
  {
    if ms != [] {
      var k := |ms| - 1;
      SwissScoreFits(ms[..k], squads, expected);
      var t := PlayAll(ms[..k], squads, expected);
      CreditFits(t.stats, squads.OfSide(ms[k], Home), ms[k], Home);
      CreditFits(Credit(t.stats, squads.OfSide(ms[k], Home), ms[k], Home), squads.OfSide(ms[k], Away), ms[k], Away);
    }
  }

  // ----- Results -----

  /** How often a player is on the winning and on the losing side of a match. */
  function PlayerWins(m: Match, squads: Squads, p: PlayerId): nat {
    if m.score1 > m.score2 then multiset(squads.Players(m.input1))[p]
    else if m.score1 < m.score2 then multiset(squads.Players(m.input2))[p]
    else 0
  }

  function PlayerLosses(m: Match, squads: Squads, p: PlayerId): nat {
    if m.score1 < m.score2 then multiset(squads.Players(m.input1))[p]
    else if m.score1 > m.score2 then multiset(squads.Players(m.input2))[p]
    else 0
  }

  function PlayerDraws(m: Match, squads: Squads, p: PlayerId): nat {
    if m.score1 != m.score2 then 0
    else multiset(squads.Players(m.input1))[p] + multiset(squads.Players(m.input2))[p]
  }

  function SumOver(ms: seq<Match>, f: Match -> nat): nat {
    if ms == [] then 0 else SumOver(ms[..|ms| - 1], f) + f(ms[|ms| - 1])
  }

  lemma {:induction false} CreditCounts(stats: StatsOf, ps: seq<PlayerId>, m: Match, side: Side, p: PlayerId)
    ensures var s, r, n := StatsFor(stats, p), StatsFor(Credit(stats, ps, m, side), p), multiset(ps)[p];
      && r.wins == s.wins + (if Scored(m, side) > Conceded(m, side) then n else 0)
      && r.losses == s.losses + (if Scored(m, side) < Conceded(m, side) then n else 0)
      && r.draws == s.draws + (if Scored(m, side) == Conceded(m, side) then n else 0)
  {
    if ps != [] {
      var k := |ps| - 1;
      assert ps == ps[..k] + [ps[k]];
      CreditCounts(stats, ps[..k], m, side, p);
    }
  }

  /** The wins, losses and draws of a player are those of the teams the player was in. */
  lemma {:induction false} PlayersGetTeamResults(
      ms: seq<Match>, squads: Squads, expected: real -> real, p: PlayerId)
    ensures var s := StatsFor(PlayAll(ms, squads, expected).stats, p);
      && s.wins == SumOver(ms, (m: Match) => PlayerWins(m, squads, p))
      && s.losses == SumOver(ms, (m: Match) => PlayerLosses(m, squads, p))
      && s.draws == SumOver(ms, (m: Match) => PlayerDraws(m, squads, p))
  {
    if ms != [] {
      var k := |ms| - 1;
      var t, m := PlayAll(ms[..k], squads, expected), ms[k];
      PlayersGetTeamResults(ms[..k], squads, expected, p);
      CreditCounts(t.stats, squads.OfSide(m, Home), m, Home, p);
      CreditCounts(Credit(t.stats, squads.OfSide(m, Home), m, Home), squads.OfSide(m, Away), m, Away, p);
    }
  }

  // ----- The rating of one player -----

  lemma {:induction false} RerateOne(ratings: RatingOf, ps: seq<PlayerId>, change: real, p: PlayerId)
    ensures multiset(ps)[p] == 0 ==> Rating(Rerate(ratings, ps, change), p) == Rating(ratings, p)
    ensures multiset(ps)[p] == 1 ==> Rating(Rerate(ratings, ps, change), p) == Rating(ratings, p) + change
  {
    if ps != [] {
      var k := |ps| - 1;
      assert ps == ps[..k] + [ps[k]];
      RerateOne(ratings, ps[..k], change, p);
    }
  }

  /** The average rating of a team, and 1200 for a team without players. A player who has not played yet
      counts 1200. */
  function Average(ratings: RatingOf, ps: seq<PlayerId>): real {
    if ps == [] then 1200.0 else SumKnown(ratings, ps) / |ps| as real
  }

  function SumKnown(ratings: RatingOf, ps: seq<PlayerId>): real {
    if ps == [] then 0.0
    else (if ps[0] in ratings then ratings[ps[0]] else 1200.0) + SumKnown(ratings, ps[1..])
  }

  lemma {:induction false} SumKnownLast(ratings: RatingOf, ps: seq<PlayerId>, p: PlayerId)
    ensures SumKnown(ratings, ps + [p])
         == SumKnown(ratings, ps) + (if p in ratings then ratings[p] else 1200.0)
  {
    if ps == [] {
      assert ps + [p] == [p];
    } else {
      assert (ps + [p])[1..] == ps[1..] + [p];
      SumKnownLast(ratings, ps[1..], p);
    }
  }

  lemma {:induction false} SumIsKnown(ratings: RatingOf, ps: seq<PlayerId>)
    ensures SumOfRatings(ratings, ps) == SumKnown(ratings, ps)
  {
    if ps != [] {
      var k := |ps| - 1;
      SumIsKnown(ratings, ps[..k]);
      SumKnownLast(ratings, ps[..k], ps[k]);
      assert ps == ps[..k] + [ps[k]];
    }
  }

  lemma {:induction false} TeamRatingIsAverage(ratings: RatingOf, ps: seq<PlayerId>)
    ensures TeamRating(ratings, ps) == Average(ratings, ps)
  {
    SumIsKnown(ratings, ps);
  }

  /** The players `ps` make up the team that uses the input. */
  ghost predicate IsTeamOf(squads: Squads, input: Option<InputId>, ps: seq<PlayerId>) {
    && input.Some? && input.value in squads.teamOf
    && squads.teamOf[input.value] in squads.playersOf && squads.playersOf[squads.teamOf[input.value]] == ps
  }

  /** A match moves the rating of a player of either team by what the result is worth less what was
      expected from the averages of the two teams before the match, and that of nobody else. */
  lemma {:induction false} PlayerMatch(
      t: Totals, m: Match, squads: Squads, expected: real -> real,
      home: seq<PlayerId>, away: seq<PlayerId>, p: PlayerId)
    requires IsTeamOf(squads, m.input1, home) && IsTeamOf(squads, m.input2, away)
    requires NoDuplicates(home + away)
    ensures var a, b := Average(t.ratings, home), Average(t.ratings, away);
      var before, after := Rating(t.ratings, p), Rating(PlayBoth(t, m, squads, expected).ratings, p);
      after == before +
        (if p in home then
           32.0 * ((if m.score1 > m.score2 then 1.0 else if m.score1 == m.score2 then 0.5 else 0.0) - expected(b - a))
         else if p in away then
           32.0 * ((if m.score2 > m.score1 then 1.0 else if m.score1 == m.score2 then 0.5 else 0.0) - expected(a - b))
         else 0.0)
    ensures p !in t.ratings ==> Rating(t.ratings, p) == 1200.0
  {
    var ratings := Rerate(t.ratings, home, Change(m, Home, TeamRatings(t.ratings, m, squads), expected));
    TeamRatingIsAverage(t.ratings, home);
    TeamRatingIsAverage(t.ratings, away);
    AtMostOnce(home + away, p);
    assert multiset(home + away)[p] == multiset(home)[p] + multiset(away)[p];
    RerateOne(t.ratings, home, Change(m, Home, TeamRatings(t.ratings, m, squads), expected), p);
    RerateOne(ratings, away, Change(m, Away, TeamRatings(t.ratings, m, squads), expected), p);
  }

  // ----- The sum of the ratings -----

  lemma {:induction false} SumUnchanged(ratings: RatingOf, roster: seq<PlayerId>, p: PlayerId, v: real)
    requires p !in roster
    ensures SumOfRatings(ratings[p := v], roster) == SumOfRatings(ratings, roster)
  {
    if roster != [] {
      SumUnchanged(ratings, roster[..|roster| - 1], p, v);
    }
  }

  lemma {:induction false} SumAfterOne(ratings: RatingOf, roster: seq<PlayerId>, p: PlayerId, change: real)
    requires NoDuplicates(roster) && p in roster
    ensures SumOfRatings(ratings[p := Rating(ratings, p) + change], roster) == SumOfRatings(ratings, roster) + change
  {
    var k := |roster| - 1;
    assert roster == roster[..k] + [roster[k]];
    if p == roster[k] {
      SumUnchanged(ratings, roster[..k], p, Rating(ratings, p) + change);
    } else {
      SumAfterOne(ratings, roster[..k], p, change);
    }
  }

  /** The change of a team: one for each player. */
  function Times(n: nat, x: real): real { if n == 0 then 0.0 else Times(n - 1, x) + x }

  lemma {:induction false} SumAfterSide(ratings: RatingOf, roster: seq<PlayerId>, ps: seq<PlayerId>, change: real)
    requires NoDuplicates(roster) && forall p :: p in ps ==> p in roster
    ensures SumOfRatings(Rerate(ratings, ps, change), roster) == SumOfRatings(ratings, roster) + Times(|ps|, change)
  {
    if ps != [] {
      var k := |ps| - 1;
      assert ps == ps[..k] + [ps[k]];
      SumAfterSide(ratings, roster, ps[..k], change);
      SumAfterOne(Rerate(ratings, ps[..k], change), roster, ps[k], change);
    }
  }

  lemma {:induction false} TimesOpposite(n: nat, x: real)
    ensures Times(n, -x) == -Times(n, x)
  {
    if n > 0 { TimesOpposite(n - 1, x); }
  }

  lemma {:induction false} TimesGrow(a: nat, b: nat, x: real)
    requires a < b && x != 0.0
    ensures if x > 0.0 then Times(a, x) < Times(b, x) else Times(a, x) > Times(b, x)
  {
    if a + 1 < b { TimesGrow(a, b - 1, x); }
  }

  lemma {:induction false} TimesNothing(n: nat)
    ensures Times(n, 0.0) == 0.0
  {
    if n > 0 { TimesNothing(n - 1); }
  }

  lemma {:induction false} TimesEqualIff(a: nat, b: nat, x: real)
    ensures Times(a, x) == Times(b, x) <==> a == b || x == 0.0
  {
    if x == 0.0 {
      TimesNothing(a);
      TimesNothing(b);
    } else if a < b {
      TimesGrow(a, b, x);
    } else if b < a {
      TimesGrow(b, a, x);
    }
  }

  lemma {:induction false} ChangesAreOpposite(m: Match, teams: Ratings, expected: real -> real)
    requires IsExpectation(expected)
    ensures Change(m, Away, teams, expected) == -Change(m, Home, teams, expected)
  {
    var gap := RatingGap(Home, teams);
    assert RatingGap(Away, teams) == -gap;
    assert expected(gap) + expected(-gap) == 1.0;
    assert ResultFor(m, Away) == 1.0 - ResultFor(m, Home);
  }

  /** The roster lists every player of a match. */
  ghost predicate Covers(roster: seq<PlayerId>, m: Match, squads: Squads) {
    forall side, p :: p in squads.OfSide(m, side) ==> p in roster
  }

  lemma {:induction false} PlayedRatings(t: Totals, m: Match, squads: Squads, expected: real -> real, change: real)
    requires IsExpectation(expected) && change == Change(m, Home, TeamRatings(t.ratings, m, squads), expected)
    ensures PlayBoth(t, m, squads, expected).ratings
         == Rerate(Rerate(t.ratings, squads.OfSide(m, Home), change), squads.OfSide(m, Away), -change)
  {
    ChangesAreOpposite(m, TeamRatings(t.ratings, m, squads), expected);
  }

  /** What a match does to the sum: each side adds its change for each of its players. */
  lemma {:induction false} SumAfterMatch(
      t: Totals, m: Match, squads: Squads, expected: real -> real, roster: seq<PlayerId>, change: real)
    requires NoDuplicates(roster) && Covers(roster, m, squads) && IsExpectation(expected)
    requires change == Change(m, Home, TeamRatings(t.ratings, m, squads), expected)
    ensures SumOfRatings(PlayBoth(t, m, squads, expected).ratings, roster)
         == SumOfRatings(t.ratings, roster)
            + Times(|squads.OfSide(m, Home)|, change) - Times(|squads.OfSide(m, Away)|, change)
  {
    var home, away := squads.OfSide(m, Home), squads.OfSide(m, Away);
    PlayedRatings(t, m, squads, expected, change);
    SumAfterSide(t.ratings, roster, home, change);
    SumAfterSide(Rerate(t.ratings, home, change), roster, away, -change);
    TimesOpposite(|away|, change);
  }

  /** A single match keeps the sum exactly when the teams are equally large or the result is the
      expected one. */
  lemma {:induction false} SumKeptIff(
      t: Totals, m: Match, squads: Squads, expected: real -> real, roster: seq<PlayerId>)
    requires NoDuplicates(roster) && Covers(roster, m, squads) && IsExpectation(expected)
    ensures SumOfRatings(PlayBoth(t, m, squads, expected).ratings, roster) == SumOfRatings(t.ratings, roster) <==>
            |squads.OfSide(m, Home)| == |squads.OfSide(m, Away)|
            || ResultFor(m, Home) == expected(RatingGap(Home, TeamRatings(t.ratings, m, squads)))
  {
    var change := Change(m, Home, TeamRatings(t.ratings, m, squads), expected);
    SumAfterMatch(t, m, squads, expected, roster, change);
    TimesEqualIff(|squads.OfSide(m, Home)|, |squads.OfSide(m, Away)|, change);
  }

  lemma {:induction false} InitialSum(roster: seq<PlayerId>)
    ensures SumOfRatings(map[], roster) == 1200.0 * |roster| as real
  {
    if roster != [] {
      InitialSum(roster[..|roster| - 1]);
    }
  }

  /** When the two teams of every match are equally large, ratings only change hands, also for
      players who are in several teams or on both sides: their sum stays 1200 for each player. */
  lemma {:induction false} PlayerRatingsAreConserved(
      ms: seq<Match>, squads: Squads, expected: real -> real, roster: seq<PlayerId>)
    requires NoDuplicates(roster) && IsExpectation(expected)
    requires forall m :: m in ms ==>
               Covers(roster, m, squads) && |squads.OfSide(m, Home)| == |squads.OfSide(m, Away)|
    ensures SumOfRatings(PlayAll(ms, squads, expected).ratings, roster) == 1200.0 * |roster| as real
  {
    if ms == [] {
      InitialSum(roster);
    } else {
      var k := |ms| - 1;
      assert ms == ms[..k] + [ms[k]];
      PlayerRatingsAreConserved(ms[..k], squads, expected, roster);
      SumKeptIff(PlayAll(ms[..k], squads, expected), ms[k], squads, expected, roster);
    }
  }
}
