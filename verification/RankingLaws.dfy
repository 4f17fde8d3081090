/** What every replay of matches conserves. */
module RankingLaws {
  import opened Models
  import opened Ranking

  // ----- The dictionary -----

  lemma {:induction false} GetPut(t: Table, x: InputId, s: Stats, y: InputId, initial: real)
    ensures Get(Put(t, x, s), y, initial) == if x == y then s else Get(t, y, initial)
  {
    if t != [] && t[0].id != x {
      GetPut(t[1..], x, s, y, initial);
    }
  }

  lemma {:induction false} HasPut(t: Table, x: InputId, s: Stats, y: InputId)
    ensures Has(Put(t, x, s), y) <==> x == y || Has(t, y)
  {
    var r := Put(t, x, s);
    if t == [] {
      assert r[0].id == x;
    } else if t[0].id == x {
      assert r[0].id == x && r[1..] == t[1..];
      assert forall e :: e in r <==> e == r[0] || e in t[1..];
      assert forall e :: e in t <==> e == t[0] || e in t[1..];
    } else {
      HasPut(t[1..], x, s, y);
      assert r[0] == t[0] && r[1..] == Put(t[1..], x, s);
      assert forall e :: e in r <==> e == r[0] || e in r[1..];
      assert forall e :: e in t <==> e == t[0] || e in t[1..];
    }
  }

  lemma {:induction false} PutKeepsKeys(t: Table, x: InputId, s: Stats)
    requires UniqueKeys(t)
    ensures UniqueKeys(Put(t, x, s))
  {
    if t != [] && t[0].id != x {
      PutKeepsKeys(t[1..], x, s);
      var r := Put(t[1..], x, s);
      forall i | 0 <= i < |r|
        ensures r[i].id != t[0].id
      {
        HasPut(t[1..], x, s, r[i].id);
        assert r[i] in r;
      }
    }
  }

  // ----- Totals -----

  function Total(t: Table, f: Stats -> int): int {
    if t == [] then 0 else f(t[0].stats) + Total(t[1..], f)
  }

  function WinsOf(s: Stats): int { s.wins }
  function DrawsOf(s: Stats): int { s.draws }
  function LossesOf(s: Stats): int { s.losses }
  function ForOf(s: Stats): int { s.scoreFor }
  function AgainstOf(s: Stats): int { s.scoreAgainst }

  lemma {:induction false} TotalPut(t: Table, x: InputId, s: Stats, f: Stats -> int, initial: real)
    requires f(Stats(0, 0, 0, initial, 0, 0)) == 0
    ensures Total(Put(t, x, s), f) == Total(t, f) - f(Get(t, x, initial)) + f(s)
  {
    if t != [] && t[0].id != x {
      TotalPut(t[1..], x, s, f, initial);
    }
  }

  /** What a side of the match adds to the measure. */
  ghost predicate Adds(f: Stats -> int, m: Match, side: Side, rules: Rules, before: Ratings, n: int) {
    forall s :: f(Added(s, m, side, rules, before)) == f(s) + n
  }

  lemma {:induction false} RecordTotal(
      t: Table, m: Match, side: Side, rules: Rules, before: Ratings, f: Stats -> int, n: int)
    requires m.IsDefinitive() && f(Stats(0, 0, 0, rules.Initial(), 0, 0)) == 0
    requires Adds(f, m, side, rules, before, n)
    ensures Total(Record(t, m, side, rules, before), f) == Total(t, f) + n
  {
    var x := InputOf(m, side);
    TotalPut(t, x, Added(Get(t, x, rules.Initial()), m, side, rules, before), f, rules.Initial());
  }

  lemma {:induction false} TouchedTotal(t: Table, m: Match, rules: Rules, f: Stats -> int)
    requires m.IsDefinitive() && f(Stats(0, 0, 0, rules.Initial(), 0, 0)) == 0
    ensures Total(Touched(t, m, rules), f) == Total(t, f)
  {
    var x, y := m.input1.value, m.input2.value;
    TotalPut(t, x, Get(t, x, rules.Initial()), f, rules.Initial());
    var u := Touch(t, x, rules);
    TotalPut(u, y, Get(u, y, rules.Initial()), f, rules.Initial());
  }

  lemma {:induction false} PlayTotal(t: Table, m: Match, rules: Rules, f: Stats -> int, home: int, away: int)
    requires m.IsDefinitive() && f(Stats(0, 0, 0, rules.Initial(), 0, 0)) == 0
    requires Adds(f, m, Home, rules, RatingsBefore(t, m, rules), home)
    requires Adds(f, m, Away, rules, RatingsBefore(t, m, rules), away)
    ensures Total(Play(t, m, rules), f) == Total(t, f) + home + away
  {
    var before := RatingsBefore(t, m, rules);
    var u := Touched(t, m, rules);
    TouchedTotal(t, m, rules, f);
    RecordTotal(u, m, Home, rules, before, f, home);
    RecordTotal(Record(u, m, Home, rules, before), m, Away, rules, before, f, away);
  }

  function Decided(ms: seq<Match>): nat {
    if ms == [] then 0
    else Decided(ms[..|ms| - 1]) + if ms[|ms| - 1].score1 != ms[|ms| - 1].score2 then 1 else 0
  }

  function Drawn(ms: seq<Match>): nat {
    if ms == [] then 0
    else Drawn(ms[..|ms| - 1]) + if ms[|ms| - 1].score1 == ms[|ms| - 1].score2 then 1 else 0
  }

  function Goals(ms: seq<Match>): nat {
    if ms == [] then 0 else Goals(ms[..|ms| - 1]) + ms[|ms| - 1].score1 + ms[|ms| - 1].score2
  }

  lemma {:induction false} ReplayResults(t: Table, ms: seq<Match>, rules: Rules)
    requires AllDefinitive(ms)
    ensures Total(Replay(t, ms, rules), WinsOf) == Total(t, WinsOf) + Decided(ms)
    ensures Total(Replay(t, ms, rules), LossesOf) == Total(t, LossesOf) + Decided(ms)
    ensures Total(Replay(t, ms, rules), DrawsOf) == Total(t, DrawsOf) + 2 * Drawn(ms)
  {
    if ms != [] {
      var k := |ms| - 1;
      var m, u := ms[k], Replay(t, ms[..k], rules);
      ReplayResults(t, ms[..k], rules);
      var home, away := if m.score1 > m.score2 then 1 else 0, if m.score1 < m.score2 then 1 else 0;
      var drawn := if m.score1 == m.score2 then 1 else 0;
      PlayTotal(u, m, rules, WinsOf, home, away);
      PlayTotal(u, m, rules, LossesOf, away, home);
      PlayTotal(u, m, rules, DrawsOf, drawn, drawn);
    }
  }

  lemma {:induction false} ReplayScores(t: Table, ms: seq<Match>, rules: Rules)
    requires AllDefinitive(ms)
    ensures Total(Replay(t, ms, rules), ForOf) == Total(t, ForOf) + Goals(ms)
    ensures Total(Replay(t, ms, rules), AgainstOf) == Total(t, AgainstOf) + Goals(ms)
  {
    if ms != [] {
      var k := |ms| - 1;
      var m, u := ms[k], Replay(t, ms[..k], rules);
      ReplayScores(t, ms[..k], rules);
      PlayTotal(u, m, rules, ForOf, m.score1, m.score2);
      PlayTotal(u, m, rules, AgainstOf, m.score2, m.score1);
    }
  }

  lemma {:induction false} StartTotal(inputs: seq<Input>, rules: Rules, f: Stats -> int)
    requires f(Stats(0, 0, 0, rules.Initial(), 0, 0)) == 0
    ensures Total(Start(inputs, rules), f) == 0
    ensures forall x :: Get(Start(inputs, rules), x, rules.Initial()) == Stats(0, 0, 0, rules.Initial(), 0, 0)
  {
    if inputs != [] {
      var k := |inputs| - 1;
      var t, empty := Start(inputs[..k], rules), Stats(0, 0, 0, rules.Initial(), 0, 0);
      StartTotal(inputs[..k], rules, f);
      TotalPut(t, inputs[k].id, empty, f, rules.Initial());
      forall x
        ensures Get(Put(t, inputs[k].id, empty), x, rules.Initial()) == empty
      {
        GetPut(t, inputs[k].id, empty, x, rules.Initial());
      }
    }
  }

  /** For every match history: wins equal losses, draws are twice the drawn matches, and what is
      scored equals what is conceded. */
  lemma {:induction false} ResultsBalance(item: StageItem, rules: Rules)
    ensures var t, ms := Results(item, rules), Counted(item);
      && Total(t, WinsOf) == Total(t, LossesOf) == Decided(ms)
      && Total(t, DrawsOf) == 2 * Drawn(ms)
      && Total(t, ForOf) == Total(t, AgainstOf) == Goals(ms)
  {
    var start := Start(item.inputs, rules);
    ReplayResults(start, Counted(item), rules);
    ReplayScores(start, Counted(item), rules);
    StartTotal(item.inputs, rules, WinsOf);
    StartTotal(item.inputs, rules, LossesOf);
    StartTotal(item.inputs, rules, DrawsOf);
    StartTotal(item.inputs, rules, ForOf);
    StartTotal(item.inputs, rules, AgainstOf);
  }

  // ----- The results of one input -----

  function Won(m: Match, x: InputId): nat {
    (if m.input1 == Some(x) && m.score1 > m.score2 then 1 else 0)
    + (if m.input2 == Some(x) && m.score2 > m.score1 then 1 else 0)
  }

  function Lost(m: Match, x: InputId): nat {
    (if m.input1 == Some(x) && m.score1 < m.score2 then 1 else 0)
    + (if m.input2 == Some(x) && m.score2 < m.score1 then 1 else 0)
  }

  function Drew(m: Match, x: InputId): nat {
    if m.score1 != m.score2 then 0
    else (if m.input1 == Some(x) then 1 else 0) + (if m.input2 == Some(x) then 1 else 0)
  }

  function Scores(m: Match, x: InputId): nat {
    (if m.input1 == Some(x) then m.score1 else 0) + (if m.input2 == Some(x) then m.score2 else 0)
  }

  function Concedes(m: Match, x: InputId): nat {
    (if m.input1 == Some(x) then m.score2 else 0) + (if m.input2 == Some(x) then m.score1 else 0)
  }

  function SumFor(ms: seq<Match>, x: InputId, f: (Match, InputId) -> nat): nat {
    if ms == [] then 0 else SumFor(ms[..|ms| - 1], x, f) + f(ms[|ms| - 1], x)
  }

  function CountWins(ms: seq<Match>, x: InputId): nat {
    if ms == [] then 0 else CountWins(ms[..|ms| - 1], x) + Won(ms[|ms| - 1], x)
  }

  function CountLosses(ms: seq<Match>, x: InputId): nat {
    if ms == [] then 0 else CountLosses(ms[..|ms| - 1], x) + Lost(ms[|ms| - 1], x)
  }

  lemma {:induction false} GetTouched(t: Table, m: Match, rules: Rules, y: InputId)
    requires m.IsDefinitive()
    ensures Get(Touched(t, m, rules), y, rules.Initial()) == Get(t, y, rules.Initial())
  {
    var a, b := m.input1.value, m.input2.value;
    var u := Touch(t, a, rules);
    GetPut(t, a, Get(t, a, rules.Initial()), y, rules.Initial());
    GetPut(t, a, Get(t, a, rules.Initial()), b, rules.Initial());
    GetPut(u, b, Get(u, b, rules.Initial()), y, rules.Initial());
  }

  lemma {:induction false} GetRecord(t: Table, m: Match, side: Side, rules: Rules, before: Ratings, y: InputId)
    requires m.IsDefinitive()
    ensures var s := Get(t, y, rules.Initial());
      Get(Record(t, m, side, rules, before), y, rules.Initial())
      == if InputOf(m, side) == y then Added(s, m, side, rules, before) else s
  {
    var x := InputOf(m, side);
    GetPut(t, x, Added(Get(t, x, rules.Initial()), m, side, rules, before), y, rules.Initial());
  }

  /** What a match does to the statistics of one input. */
  function PlayedStats(s: Stats, m: Match, rules: Rules, before: Ratings, y: InputId): Stats
    requires m.IsDefinitive()
  {
    var u := if m.input1.value == y then Added(s, m, Home, rules, before) else s;
    if m.input2.value == y then Added(u, m, Away, rules, before) else u
  }

  lemma {:induction false} GetPlay(t: Table, m: Match, rules: Rules, y: InputId)
    requires m.IsDefinitive()
    ensures Get(Play(t, m, rules), y, rules.Initial())
         == PlayedStats(Get(t, y, rules.Initial()), m, rules, RatingsBefore(t, m, rules), y)
  {
    var before := RatingsBefore(t, m, rules);
    var u := Touched(t, m, rules);
    GetTouched(t, m, rules, y);
    GetRecord(u, m, Home, rules, before, y);
    GetRecord(Record(u, m, Home, rules, before), m, Away, rules, before, y);
  }

  /** The replayed wins and losses of an input are the matches it has won and lost. */
  lemma {:induction false} ReplayedWinsAndLosses(t: Table, ms: seq<Match>, rules: Rules, y: InputId)
    requires AllDefinitive(ms)
    ensures Get(Replay(t, ms, rules), y, rules.Initial()).wins == Get(t, y, rules.Initial()).wins + CountWins(ms, y)
    ensures Get(Replay(t, ms, rules), y, rules.Initial()).losses
         == Get(t, y, rules.Initial()).losses + CountLosses(ms, y)
  {
    if ms != [] {
      var k := |ms| - 1;
      ReplayedWinsAndLosses(t, ms[..k], rules, y);
      GetPlay(Replay(t, ms[..k], rules), ms[k], rules, y);
    }
  }

  lemma {:induction false} PlayedCounts(s: Stats, m: Match, rules: Rules, before: Ratings, y: InputId)
    requires m.IsDefinitive()
    ensures var r := PlayedStats(s, m, rules, before, y);
      && r.draws == s.draws + Drew(m, y)
      && r.scoreFor == s.scoreFor + Scores(m, y) && r.scoreAgainst == s.scoreAgainst + Concedes(m, y)
  {
  }

  lemma {:induction false} SumForNext(ms: seq<Match>, y: InputId, f: (Match, InputId) -> nat)
    requires ms != []
    ensures SumFor(ms, y, f) == SumFor(ms[..|ms| - 1], y, f) + f(ms[|ms| - 1], y)
  {
  }

  /** And so are its draws, and what it has scored and conceded in its matches. */
  lemma {:induction false} ReplayedDrawsAndScores(t: Table, ms: seq<Match>, rules: Rules, y: InputId)
    requires AllDefinitive(ms)
    ensures var s, r := Get(t, y, rules.Initial()), Get(Replay(t, ms, rules), y, rules.Initial());
      && r.draws == s.draws + SumFor(ms, y, Drew)
      && r.scoreFor == s.scoreFor + SumFor(ms, y, Scores)
      && r.scoreAgainst == s.scoreAgainst + SumFor(ms, y, Concedes)
  {
    if ms != [] {
      var k := |ms| - 1;
      var u := Replay(t, ms[..k], rules);
      ReplayedDrawsAndScores(t, ms[..k], rules, y);
      GetPlay(u, ms[k], rules, y);
      PlayedCounts(Get(u, y, rules.Initial()), ms[k], rules, RatingsBefore(u, ms[k], rules), y);
      SumForNext(ms, y, Drew);
      SumForNext(ms, y, Scores);
      SumForNext(ms, y, Concedes);
    }
  }

  // ----- Points outside Swiss items -----

  function FormulaPoints(s: Stats, rules: Rules): real {
    rules.win * s.wins as real + rules.draw * s.draws as real + rules.loss * s.losses as real
    + if rules.addScorePoints then s.scoreFor as real else 0.0
  }

  lemma {:induction false} OneMore(p: real, n: nat)
    ensures p * (n + 1) as real == p * n as real + p
    ensures p * 0 as real == 0.0
  {
  }

  lemma {:induction false} AddedFormula(s: Stats, m: Match, side: Side, rules: Rules, before: Ratings)
    requires !rules.kind.Swiss? && s.points == FormulaPoints(s, rules)
    ensures var r := Added(s, m, side, rules, before); r.points == FormulaPoints(r, rules)
  {
    OneMore(rules.win, s.wins);
    OneMore(rules.draw, s.draws);
    OneMore(rules.loss, s.losses);
  }

  /** Outside Swiss items the points of every input equal the closed form. */
  lemma {:induction false} PointsAreFormula(item: StageItem, ms: seq<Match>, rules: Rules, y: InputId)
    requires AllDefinitive(ms) && !rules.kind.Swiss?
    ensures var s := Get(Replay(Start(item.inputs, rules), ms, rules), y, rules.Initial());
      s.points == FormulaPoints(s, rules)
  {
    var start := Start(item.inputs, rules);
    if ms == [] {
      StartTotal(item.inputs, rules, WinsOf);
      OneMore(rules.win, 0);
      OneMore(rules.draw, 0);
      OneMore(rules.loss, 0);
    } else {
      var k := |ms| - 1;
      var u, m := Replay(start, ms[..k], rules), ms[k];
      PointsAreFormula(item, ms[..k], rules, y);
      GetPlay(u, m, rules, y);
      var s, before := Get(u, y, rules.Initial()), RatingsBefore(u, m, rules);
      AddedFormula(s, m, Home, rules, before);
      if m.input1.value == y {
        AddedFormula(Added(s, m, Home, rules, before), m, Away, rules, before);
      } else {
        AddedFormula(s, m, Away, rules, before);
      }
    }
  }

  // ----- Elo -----

  /** The sum of the points above the initial ones. */
  function Excess(t: Table, initial: real): real {
    if t == [] then 0.0 else t[0].stats.points - initial + Excess(t[1..], initial)
  }

  function SumOfPoints(t: Table): real {
    if t == [] then 0.0 else t[0].stats.points + SumOfPoints(t[1..])
  }

  lemma {:induction false} ExcessIsSum(t: Table, initial: real)
    ensures Excess(t, initial) == SumOfPoints(t) - initial * |t| as real
  {
    if t != [] {
      ExcessIsSum(t[1..], initial);
      OneMore(initial, |t[1..]|);
    }
  }

  lemma {:induction false} ExcessPut(t: Table, x: InputId, s: Stats, initial: real)
    ensures Excess(Put(t, x, s), initial) == Excess(t, initial) - Get(t, x, initial).points + s.points
  {
    if t != [] && t[0].id != x {
      ExcessPut(t[1..], x, s, initial);
    }
  }

  lemma {:induction false} TruncateIsOdd(x: real)
    ensures Truncate(-x) == -Truncate(x)
  {
  }

  /** The whole part of a number, toward zero. */
  lemma {:induction false} TruncateIsWholePart(x: real)
    ensures x >= 0.0 ==> Truncate(x) as real <= x < Truncate(x) as real + 1.0
    ensures x <= 0.0 ==> Truncate(x) as real - 1.0 < x <= Truncate(x) as real
  {
    if x < 0.0 { TruncateIsOdd(-x); }
  }

  lemma {:induction false} TruncateGrows(x: real, y: real)
    requires x <= y
    ensures Truncate(x) <= Truncate(y)
  {
    TruncateIsWholePart(x);
    TruncateIsWholePart(y);
  }

  function RatingOf(side: Side, before: Ratings): real { if side.Home? then before.0 else before.1 }

  function Opponent(side: Side): Side { if side.Home? then Away else Home }

  /** When the expectation falls with the lead of the opponent, the same result is worth at least as
      much the further the opponent is ahead. */
  lemma {:induction false} StrongerOpponentPaysMore(
      m: Match, side: Side, rules: Rules, before: Ratings, other: Ratings)
    requires rules.kind.Swiss? && forall d, d' :: d <= d' ==> rules.expected(d') <= rules.expected(d)
    requires RatingOf(Opponent(side), before) - RatingOf(side, before)
          <= RatingOf(Opponent(side), other) - RatingOf(side, other)
    ensures PointsChange(m, side, rules, before) <= PointsChange(m, side, rules, other)
  {
    var e, f := rules.expected(RatingGap(side, before)), rules.expected(RatingGap(side, other));
    assert RatingGap(side, before) <= RatingGap(side, other);
    TruncateGrows(K_FACTOR * (Gain(m, side, rules) - e), K_FACTOR * (Gain(m, side, rules) - f));
  }

  /** What the result of a side is worth, with `own` scored and `other` conceded. */
  function Worth(own: nat, other: nat, rules: Rules): real {
    (if own > other then rules.win else if own < other then rules.loss else rules.draw)
    + (if rules.addScorePoints then own as real else 0.0)
  }

  /** In a Swiss item a match moves the rating of either side by what its result is worth less what
      was expected against the rating the other side had before the match, and nobody else's. An input
      that has not played yet has 1200. */
  lemma {:induction false} SwissMatch(t: Table, m: Match, rules: Rules, x: InputId, y: InputId)
    requires m.input1 == Some(x) && m.input2 == Some(y) && x != y && rules.kind.Swiss?
    ensures var p, q, u := Get(t, x, 1200.0).points, Get(t, y, 1200.0).points, Play(t, m, rules);
      && Get(u, x, 1200.0).points
         == p + Truncate(32.0 * (Worth(m.score1, m.score2, rules) - rules.expected(q - p))) as real
      && Get(u, y, 1200.0).points
         == q + Truncate(32.0 * (Worth(m.score2, m.score1, rules) - rules.expected(p - q))) as real
      && forall z :: z != x && z != y ==> Get(u, z, 1200.0) == Get(t, z, 1200.0)
  {
    assert rules.Initial() == 1200.0;
    GetPlay(t, m, rules, x);
    GetPlay(t, m, rules, y);
    forall z | z != x && z != y
      ensures Get(Play(t, m, rules), z, 1200.0) == Get(t, z, 1200.0)
    {
      GetPlay(t, m, rules, z);
    }
  }

  /** When the expectation falls with the lead of the opponent, the higher rated side gains no more
      from beating the other than the other would from beating it by as much. */
  lemma {:induction false} FavouriteGainsLess(
      t: Table, m: Match, upset: Match, rules: Rules, x: InputId, y: InputId)
    requires m.input1 == Some(x) && m.input2 == Some(y) && x != y && m.score1 > m.score2
    requires upset == m.(score1 := m.score2, score2 := m.score1)
    requires rules.kind.Swiss? && forall d, d' :: d <= d' ==> rules.expected(d') <= rules.expected(d)
    requires Get(t, y, 1200.0).points <= Get(t, x, 1200.0).points
    ensures Get(Play(t, m, rules), x, 1200.0).points - Get(t, x, 1200.0).points
         <= Get(Play(t, upset, rules), y, 1200.0).points - Get(t, y, 1200.0).points
  {
    var p, q, worth := Get(t, x, 1200.0).points, Get(t, y, 1200.0).points, Worth(m.score1, m.score2, rules);
    SwissMatch(t, m, rules, x, y);
    SwissMatch(t, upset, rules, x, y);
    assert rules.expected(p - q) <= rules.expected(q - p);
    TruncateGrows(32.0 * (worth - rules.expected(q - p)), 32.0 * (worth - rules.expected(p - q)));
  }

  /** Win and loss share one point, a draw splits it, and scores add nothing. */
  ghost predicate Shares(rules: Rules) {
    rules.win + rules.loss == 1.0 && rules.draw == 0.5 && !rules.addScorePoints
  }

  lemma {:induction false} ChangesCancel(m: Match, rules: Rules, before: Ratings)
    requires rules.kind.Swiss? && rules.ProperExpectation() && Shares(rules)
    ensures PointsChange(m, Home, rules, before) + PointsChange(m, Away, rules, before) == 0.0
  {
    var gap := RatingGap(Home, before);
    assert RatingGap(Away, before) == -gap;
    assert rules.expected(gap) + rules.expected(-gap) == 1.0;
    var h := Gain(m, Home, rules) - rules.expected(gap);
    assert Gain(m, Away, rules) - rules.expected(-gap) == -h;
    assert K_FACTOR * -h == -(K_FACTOR * h);
    TruncateIsOdd(K_FACTOR * h);
  }

  lemma {:induction false} RecordExcess(t: Table, m: Match, side: Side, rules: Rules, before: Ratings)
    requires m.IsDefinitive()
    ensures Excess(Record(t, m, side, rules, before), rules.Initial())
         == Excess(t, rules.Initial()) + PointsChange(m, side, rules, before)
  {
    var x := InputOf(m, side);
    ExcessPut(t, x, Added(Get(t, x, rules.Initial()), m, side, rules, before), rules.Initial());
  }

  lemma {:induction false} PlayExcess(t: Table, m: Match, rules: Rules)
    requires m.IsDefinitive()
    ensures Excess(Play(t, m, rules), rules.Initial())
         == Excess(t, rules.Initial()) + PointsChange(m, Home, rules, RatingsBefore(t, m, rules))
            + PointsChange(m, Away, rules, RatingsBefore(t, m, rules))
  {
    var initial, before := rules.Initial(), RatingsBefore(t, m, rules);
    var x, y := m.input1.value, m.input2.value;
    var u := Touch(t, x, rules);
    ExcessPut(t, x, Get(t, x, initial), initial);
    ExcessPut(u, y, Get(u, y, initial), initial);
    RecordExcess(Touched(t, m, rules), m, Home, rules, before);
    RecordExcess(Record(Touched(t, m, rules), m, Home, rules, before), m, Away, rules, before);
  }

  lemma {:induction false} ReplayExcess(t: Table, ms: seq<Match>, rules: Rules)
    requires AllDefinitive(ms) && rules.kind.Swiss? && rules.ProperExpectation() && Shares(rules)
    ensures Excess(Replay(t, ms, rules), START_ELO) == Excess(t, START_ELO)
  {
    if ms != [] {
      var k := |ms| - 1;
      var u := Replay(t, ms[..k], rules);
      ReplayExcess(t, ms[..k], rules);
      PlayExcess(u, ms[k], rules);
      ChangesCancel(ms[k], rules, RatingsBefore(u, ms[k], rules));
    }
  }

  lemma {:induction false} StartExcess(inputs: seq<Input>, rules: Rules)
    requires rules.kind.Swiss?
    ensures Excess(Start(inputs, rules), START_ELO) == 0.0
  {
    if inputs != [] {
      var k := |inputs| - 1;
      StartExcess(inputs[..k], rules);
      StartTotal(inputs[..k], rules, WinsOf);
      ExcessPut(Start(inputs[..k], rules), inputs[k].id, Stats(0, 0, 0, rules.Initial(), 0, 0), START_ELO);
    }
  }

  lemma {:induction false} ResultsExcess(inputs: seq<Input>, ms: seq<Match>, rules: Rules)
    requires AllDefinitive(ms) && rules.kind.Swiss? && rules.ProperExpectation() && Shares(rules)
    ensures Excess(Replay(Start(inputs, rules), ms, rules), START_ELO) == 0.0
  {
    StartExcess(inputs, rules);
    ReplayExcess(Start(inputs, rules), ms, rules);
  }

  /** Ratings only change hands: their sum stays 1200 for each entry, whatever is played. */
  lemma {:induction false} RatingsAreConserved(item: StageItem, rules: Rules)
    requires rules.kind.Swiss? && rules.ProperExpectation() && Shares(rules)
    ensures SumOfPoints(Results(item, rules)) == 1200.0 * |Results(item, rules)| as real
  {
    ResultsExcess(item.inputs, Counted(item), rules);
    ExcessIsSum(Results(item, rules), START_ELO);
  }

  predicate MovesLittle(gain: real, e: real) { -31 <= Truncate(K_FACTOR * (gain - e)) <= 31 }

  /** A rating moves by at most 31 whatever the expectation, exactly when the gain is between 0
      and 1. */
  lemma {:induction false} RatingChangeBounded(gain: real)
    ensures (forall e :: 0.0 < e < 1.0 ==> MovesLittle(gain, e)) <==> 0.0 <= gain <= 1.0
  {
    if 0.0 <= gain <= 1.0 {
      forall e | 0.0 < e < 1.0
        ensures MovesLittle(gain, e)
      {
        assert -32.0 < K_FACTOR * (gain - e) < 32.0;
      }
    } else if gain > 1.0 {
      var e := if gain < 2.0 then (gain - 1.0) else 0.5;
      assert K_FACTOR * (gain - e) >= 32.0;
      assert 0.0 < e < 1.0 && !MovesLittle(gain, e);
    } else {
      var e := if gain > -1.0 then gain + 1.0 else 0.5;
      assert K_FACTOR * (gain - e) <= -32.0;
      assert 0.0 < e < 1.0 && !MovesLittle(gain, e);
    }
  }

  /** So with results worth between 0 and 1 no single match moves a rating by more than 31. */
  lemma {:induction false} OneMatchMovesLittle(m: Match, side: Side, rules: Rules, before: Ratings)
    requires rules.kind.Swiss? && rules.ProperExpectation() && !rules.addScorePoints
    requires 0.0 <= rules.win <= 1.0 && 0.0 <= rules.draw <= 1.0 && 0.0 <= rules.loss <= 1.0
    ensures -31.0 <= PointsChange(m, side, rules, before) <= 31.0
  {
    RatingChangeBounded(Gain(m, side, rules));
    var e := rules.expected(RatingGap(side, before));
    assert 0.0 < e < 1.0;
    assert MovesLittle(Gain(m, side, rules), e);
  }

  /** That win and loss add up to one is not enough: a win for three points against an equal team
      is worth 80. */
  lemma {:induction false} LargePointsMoveMore(m: Match, rules: Rules)
    requires rules.kind.Swiss? && !rules.addScorePoints && rules.ProperExpectation()
    requires rules.win == 3.0 && rules.loss == -2.0 && m.score1 == 1 && m.score2 == 0
    ensures PointsChange(m, Home, rules, (START_ELO, START_ELO)) == 80.0
  {
    assert rules.expected(0.0) + rules.expected(-0.0) == 1.0;
    assert Gain(m, Home, rules) == 3.0;
    assert K_FACTOR * (3.0 - 0.5) == 80.0;
  }
}
