/** The standings of a played bracket: the winner of the final has won every round, and every
    other input has lost exactly once. */
module BracketStandings {
  import opened Models
  import opened Sorting
  import opened Elimination
  import opened EliminationTable
  import opened Ranking
  import opened RankingLaws
  import opened Standings

  // ----- Who is still in -----

  ghost function Next(rows: Rows, ids: seq<MatchId>, entrants: seq<InputId>): (r: seq<InputId>)
    requires |entrants| == 2 * |ids| && forall i :: 0 <= i < |ids| ==> ids[i] in rows
    ensures |r| == |ids|
    ensures forall i :: 0 <= i < |ids| ==>
              r[i] == if rows[ids[i]].score1 > rows[ids[i]].score2 then entrants[2 * i] else entrants[2 * i + 1]
  {
    seq(|ids|, i requires 0 <= i < |ids| =>
      if rows[ids[i]].score1 > rows[ids[i]].score2 then entrants[2 * i] else entrants[2 * i + 1])
  }

  ghost predicate IdsIn(rows: Rows, ids: seq<MatchId>) { forall i :: 0 <= i < |ids| ==> ids[i] in rows }

  lemma {:induction false} BracketIds(rows: Rows, layout: seq<RoundIds>, inputs: seq<InputId>, r: nat)
    requires IsBracket(rows, layout, inputs) && r < |layout|
    ensures IdsIn(rows, layout[r].matches)
  {
    BracketRound(rows, layout, inputs, r);
  }

  /** The inputs that enter round `r`, by their position in the bracket. */
  ghost function Entrants(rows: Rows, layout: seq<RoundIds>, inputs: seq<InputId>, r: nat): (s: seq<InputId>)
    requires IsBracket(rows, layout, inputs) && r <= |layout|
    ensures |s| == if r == 0 then |inputs| else |layout[r - 1].matches|
    ensures r < |layout| ==> |s| == 2 * |layout[r].matches|
  {
    assert r < |layout| ==> Halves(layout, inputs, r);
    if r == 0 then inputs
    else
      BracketIds(rows, layout, inputs, r - 1);
      Next(rows, layout[r - 1].matches, Entrants(rows, layout, inputs, r - 1))
  }

  /** Every match has a winner. */
  ghost predicate AllDecided(rows: Rows) { forall id :: id in rows ==> rows[id].score1 != rows[id].score2 }

  lemma {:induction false} EntrantsNext(rows: Rows, layout: seq<RoundIds>, inputs: seq<InputId>, r: nat, i: nat)
    requires IsBracket(rows, layout, inputs) && r < |layout| && i < |layout[r].matches|
    ensures layout[r].matches[i] in rows
    ensures var m, s := rows[layout[r].matches[i]], Entrants(rows, layout, inputs, r);
      Entrants(rows, layout, inputs, r + 1)[i] == if m.score1 > m.score2 then s[2 * i] else s[2 * i + 1]
  {
    BracketIds(rows, layout, inputs, r);
  }

  ghost predicate IsBetween(m: Match, a: InputId, b: InputId) { m.input1 == Some(a) && m.input2 == Some(b) }

  /** What a later match stores is what its sources decide. */
  lemma {:induction false} StoredWinners(
      rows: Rows, layout: seq<RoundIds>, inputs: seq<InputId>, r: nat, i: nat, a: InputId, b: InputId)
    requires IsBracket(rows, layout, inputs) && Consistent(rows)
    requires 0 < r < |layout| && i < |layout[r].matches| && 2 * i + 1 < |layout[r - 1].matches|
    requires layout[r - 1].matches[2 * i] in rows && layout[r - 1].matches[2 * i + 1] in rows
    requires rows[layout[r - 1].matches[2 * i]].Winner() == Some(a)
    requires rows[layout[r - 1].matches[2 * i + 1]].Winner() == Some(b)
    ensures layout[r].matches[i] in rows && IsBetween(rows[layout[r].matches[i]], a, b)
  {
    assert BracketMatch(rows, layout, inputs, r, i);
    assert ConsistentAt(rows, layout[r].matches[i]);
  }

  /** The match at position `i` of round `r` is between the entrants at positions `2i` and `2i+1`,
      and its winner enters the next round at position `i`. */
  lemma {:induction false} MatchOfEntrants(rows: Rows, layout: seq<RoundIds>, inputs: seq<InputId>, r: nat, i: nat)
    requires IsBracket(rows, layout, inputs) && Consistent(rows) && AllDecided(rows)
    requires r < |layout| && i < |layout[r].matches|
    ensures layout[r].matches[i] in rows
    ensures var m, s := rows[layout[r].matches[i]], Entrants(rows, layout, inputs, r);
      && IsBetween(m, s[2 * i], s[2 * i + 1])
      && m.Winner() == Some(Entrants(rows, layout, inputs, r + 1)[i])
    decreases r
  {
    var s := Entrants(rows, layout, inputs, r);
    if r > 0 {
      MatchOfEntrants(rows, layout, inputs, r - 1, 2 * i);
      MatchOfEntrants(rows, layout, inputs, r - 1, 2 * i + 1);
      StoredWinners(rows, layout, inputs, r, i, s[2 * i], s[2 * i + 1]);
    } else {
      assert BracketMatch(rows, layout, inputs, 0, i);
    }
    EntrantsNext(rows, layout, inputs, r, i);
  }

  /** No input enters a round twice. */
  lemma {:induction false} EntrantsDistinct(rows: Rows, layout: seq<RoundIds>, inputs: seq<InputId>, r: nat)
    requires IsBracket(rows, layout, inputs) && NoDuplicates(inputs) && r <= |layout|
    ensures NoDuplicates(Entrants(rows, layout, inputs, r))
  {
    if r > 0 {
      EntrantsDistinct(rows, layout, inputs, r - 1);
      BracketIds(rows, layout, inputs, r - 1);
      NextDistinct(rows, layout[r - 1].matches, Entrants(rows, layout, inputs, r - 1));
    }
  }

  lemma {:induction false} NextDistinct(rows: Rows, ids: seq<MatchId>, entrants: seq<InputId>)
    requires |entrants| == 2 * |ids| && IdsIn(rows, ids) && NoDuplicates(entrants)
    ensures NoDuplicates(Next(rows, ids, entrants))
    ensures forall x :: x in Next(rows, ids, entrants) ==> x in entrants
  {
  }

  /** So no input is in two matches of a round. */
  lemma {:induction false} OnceInARound(
      rows: Rows, layout: seq<RoundIds>, inputs: seq<InputId>, r: nat, i: nat, j: nat, x: InputId)
    requires IsBracket(rows, layout, inputs) && NoDuplicates(inputs) && Consistent(rows) && AllDecided(rows)
    requires r < |layout| && i < |layout[r].matches| && j < |layout[r].matches|
    ensures layout[r].matches[i] in rows && layout[r].matches[j] in rows
    ensures rows[layout[r].matches[i]].HasInput(x) && rows[layout[r].matches[j]].HasInput(x) ==> i == j
    ensures rows[layout[r].matches[i]].input1 != rows[layout[r].matches[i]].input2
  {
    EntrantsDistinct(rows, layout, inputs, r);
    MatchOfEntrants(rows, layout, inputs, r, i);
    MatchOfEntrants(rows, layout, inputs, r, j);
  }

  /** The inputs entering a round are a power of two. */
  lemma {:induction false} RoundSize(rows: Rows, layout: seq<RoundIds>, inputs: seq<InputId>, r: nat)
    requires IsBracket(rows, layout, inputs) && r <= |layout|
    ensures |Entrants(rows, layout, inputs, r)| == Pow2(|layout| - r)
    decreases |layout| - r
  {
    if r < |layout| {
      RoundSize(rows, layout, inputs, r + 1);
    }
  }

  // ----- Wins and losses in a round -----

  function In(s: seq<InputId>, x: InputId): nat { if x in s then 1 else 0 }

  lemma {:induction false} InPairs(s: seq<InputId>, i: nat, x: InputId)
    requires NoDuplicates(s) && 2 * i + 1 < |s|
    ensures In(s[..2 * i + 2], x) == In(s[..2 * i], x) + In([s[2 * i]], x) + In([s[2 * i + 1]], x)
  {
    assert s[..2 * i + 2] == s[..2 * i] + [s[2 * i]] + [s[2 * i + 1]];
  }

  lemma {:induction false} InNext(s: seq<InputId>, i: nat, x: InputId)
    requires NoDuplicates(s) && i < |s|
    ensures In(s[..i + 1], x) == In(s[..i], x) + In([s[i]], x)
  {
    assert s[..i + 1] == s[..i] + [s[i]];
  }

  /** What one match adds, when its winner is `won` and its loser `lost`. */
  lemma {:induction false} OneMatch(m: Match, a: InputId, b: InputId, x: InputId)
    requires m.input1 == Some(a) && m.input2 == Some(b) && m.score1 != m.score2
    ensures var won := if m.score1 > m.score2 then a else b;
      && Won(m, x) == In([won], x)
      && Won(m, x) + Lost(m, x) == In([a], x) + In([b], x)
  {
  }

  /** The match at position `i` is between the entrants at `2i` and `2i+1`, and decided for the one
      at position `i` of the next list. */
  ghost predicate DecidedAt(ms: seq<Match>, s: seq<InputId>, w: seq<InputId>, i: nat)
    requires i < |ms| == |w| && |s| == 2 * |ms|
  {
    && IsBetween(ms[i], s[2 * i], s[2 * i + 1]) && ms[i].score1 != ms[i].score2
    && ms[i].Winner() == Some(w[i])
  }

  ghost predicate DecidesRound(ms: seq<Match>, s: seq<InputId>, w: seq<InputId>) {
    && NoDuplicates(s) && NoDuplicates(w) && |ms| == |w| && |s| == 2 * |ms|
    && forall i: nat :: i < |ms| ==> DecidedAt(ms, s, w, i)
  }

  lemma {:induction false} CountsUpTo(ms: seq<Match>, s: seq<InputId>, w: seq<InputId>, n: nat, x: InputId)
    requires DecidesRound(ms, s, w) && n <= |ms|
    ensures CountWins(ms[..n], x) == In(w[..n], x)
    ensures CountWins(ms[..n], x) + CountLosses(ms[..n], x) == In(s[..2 * n], x)
  {
    if n > 0 {
      var i := n - 1;
      CountsUpTo(ms, s, w, i, x);
      assert DecidedAt(ms, s, w, i);
      InNext(w, i, x);
      InPairs(s, i, x);
      OneMatch(ms[i], s[2 * i], s[2 * i + 1], x);
      assert ms[..n][..i] == ms[..i] && ms[..n][i] == ms[i];
    }
  }

  lemma {:induction false} RoundIsDecided(rows: Rows, layout: seq<RoundIds>, inputs: seq<InputId>, r: nat)
    requires IsBracket(rows, layout, inputs) && NoDuplicates(inputs) && Consistent(rows) && AllDecided(rows)
    requires r < |layout| && IdsIn(rows, layout[r].matches)
    ensures DecidesRound(ReadRound(rows, layout[r]), Entrants(rows, layout, inputs, r),
              Entrants(rows, layout, inputs, r + 1))
  {
    var ms := ReadRound(rows, layout[r]);
    var s, w := Entrants(rows, layout, inputs, r), Entrants(rows, layout, inputs, r + 1);
    EntrantsDistinct(rows, layout, inputs, r);
    EntrantsDistinct(rows, layout, inputs, r + 1);
    forall i: nat | i < |ms|
      ensures DecidedAt(ms, s, w, i)
    {
      MatchOfEntrants(rows, layout, inputs, r, i);
    }
  }

  /** In a round, an entrant either wins and goes on, or loses and does not. */
  lemma {:induction false} RoundWins(ms: seq<Match>, s: seq<InputId>, w: seq<InputId>, x: InputId)
    requires DecidesRound(ms, s, w)
    ensures CountWins(ms, x) == In(w, x)
    ensures CountWins(ms, x) + CountLosses(ms, x) == In(s, x)
  {
    CountsUpTo(ms, s, w, |ms|, x);
    assert ms[..|ms|] == ms && w[..|ms|] == w && s[..2 * |ms|] == s;
  }

  // ----- Wins and losses in the bracket -----

  lemma {:induction false} CountAppend(a: seq<Match>, b: seq<Match>, x: InputId)
    ensures CountWins(a + b, x) == CountWins(a, x) + CountWins(b, x)
    ensures CountLosses(a + b, x) == CountLosses(a, x) + CountLosses(b, x)
  {
    if b == [] {
      assert a + b == a;
    } else {
      var k := |b| - 1;
      assert (a + b)[..|a + b| - 1] == a + b[..k];
      CountAppend(a, b[..k], x);
    }
  }

  lemma {:induction false} AllCount(ms: seq<Match>)
    requires forall m :: m in ms ==> Counts(m)
    ensures CountedIn(ms) == ms
  {
    if ms != [] {
      AllCount(ms[1..]);
    }
  }

  lemma {:induction false} SortKeeps<T(!new)>(before: (T, T) -> bool, s: seq<T>)
    requires StrictWeak(before) && StrictlySorted(before, s)
    ensures Sort(before, s) == s
  {
    SortRestores(before, s, s);
  }

  /** All matches of a decided bracket count. */
  lemma {:induction false} BracketRoundCounts(rows: Rows, layout: seq<RoundIds>, inputs: seq<InputId>, r: nat)
    requires IsBracket(rows, layout, inputs) && Consistent(rows) && AllDecided(rows)
    requires r < |layout| && IdsIn(rows, layout[r].matches)
    ensures StrictlySorted(MatchByNumber, ReadRound(rows, layout[r]))
    ensures CountedOfRound(Round(layout[r].id, false, ReadRound(rows, layout[r]))) == ReadRound(rows, layout[r])
  {
    var ms := ReadRound(rows, layout[r]);
    forall i, j | 0 <= i < j < |ms|
      ensures MatchByNumber(ms[i], ms[j])
    {
      assert BracketMatch(rows, layout, inputs, r, i) && BracketMatch(rows, layout, inputs, r, j);
      assert Earlier(r, i, r, j);
    }
    forall m | m in ms
      ensures Counts(m)
    {
      var i :| 0 <= i < |ms| && ms[i] == m;
      MatchOfEntrants(rows, layout, inputs, r, i);
    }
    SortKeeps(MatchByNumber, ms);
    AllCount(ms);
  }

  ghost predicate PlayedBracket(rows: Rows, layout: seq<RoundIds>, inputs: seq<InputId>) {
    && IsBracket(rows, layout, inputs) && NoDuplicates(inputs)
    && Consistent(rows) && AllDecided(rows)
  }

  /** Whoever is in the last list has been in all. */
  lemma {:induction false} EntrantsShrink(
      rows: Rows, layout: seq<RoundIds>, inputs: seq<InputId>, r: nat, x: InputId)
    requires IsBracket(rows, layout, inputs) && NoDuplicates(inputs) && r <= |layout|
    requires x in Entrants(rows, layout, inputs, |layout|)
    ensures x in Entrants(rows, layout, inputs, r)
    decreases |layout| - r
  {
    if r < |layout| {
      EntrantsShrink(rows, layout, inputs, r + 1, x);
      BracketIds(rows, layout, inputs, r);
      EntrantsDistinct(rows, layout, inputs, r);
      NextDistinct(rows, layout[r].matches, Entrants(rows, layout, inputs, r));
    }
  }

  lemma {:induction false} CountedFrom(rows: Rows, layout: seq<RoundIds>, inputs: seq<InputId>, r: nat)
    requires PlayedBracket(rows, layout, inputs) && AllIdsIn(rows, layout) && r < |layout|
    ensures CountedOf(ReadRounds(rows, layout)[r..])
         == ReadRound(rows, layout[r]) + CountedOf(ReadRounds(rows, layout)[r + 1..])
  {
    var rounds := ReadRounds(rows, layout);
    BracketIds(rows, layout, inputs, r);
    BracketRoundCounts(rows, layout, inputs, r);
    assert rounds[r..][0] == rounds[r] && rounds[r..][1..] == rounds[r + 1..];
  }

  ghost function WinsFrom(rows: Rows, layout: seq<RoundIds>, r: nat, x: InputId): nat
    requires AllIdsIn(rows, layout) && r <= |layout|
  {
    CountWins(CountedOf(ReadRounds(rows, layout)[r..]), x)
  }

  ghost function LossesFrom(rows: Rows, layout: seq<RoundIds>, r: nat, x: InputId): nat
    requires AllIdsIn(rows, layout) && r <= |layout|
  {
    CountLosses(CountedOf(ReadRounds(rows, layout)[r..]), x)
  }

  lemma {:induction false} ResultsStep(rows: Rows, layout: seq<RoundIds>, inputs: seq<InputId>, r: nat, x: InputId)
    requires PlayedBracket(rows, layout, inputs) && AllIdsIn(rows, layout) && r < |layout|
    ensures WinsFrom(rows, layout, r, x)
         == In(Entrants(rows, layout, inputs, r + 1), x) + WinsFrom(rows, layout, r + 1, x)
    ensures WinsFrom(rows, layout, r, x) + LossesFrom(rows, layout, r, x)
         == In(Entrants(rows, layout, inputs, r), x)
            + WinsFrom(rows, layout, r + 1, x) + LossesFrom(rows, layout, r + 1, x)
  {
    CountedFrom(rows, layout, inputs, r);
    BracketIds(rows, layout, inputs, r);
    RoundIsDecided(rows, layout, inputs, r);
    RoundWins(ReadRound(rows, layout[r]), Entrants(rows, layout, inputs, r), Entrants(rows, layout, inputs, r + 1), x);
    CountAppend(ReadRound(rows, layout[r]), CountedOf(ReadRounds(rows, layout)[r + 1..]), x);
  }

  /** The course of one input: whether it enters each round, and its wins and losses from each round
      on. */
  ghost predicate IsCourse(entered: seq<nat>, wins: seq<nat>, losses: seq<nat>) {
    && |entered| == |wins| == |losses| >= 1
    && wins[|wins| - 1] == 0 && losses[|losses| - 1] == 0
    && (forall r :: 0 <= r < |entered| ==> entered[r] <= 1)
    && (forall r :: 0 <= r < |entered| - 1 ==> entered[r + 1] <= entered[r])
    && (forall r :: 0 <= r < |entered| - 1 ==> wins[r] == entered[r + 1] + wins[r + 1])
    && (forall r :: 0 <= r < |entered| - 1 ==> wins[r] + losses[r] == entered[r] + wins[r + 1] + losses[r + 1])
  }

  /** From round `r` on an input loses once, unless it wins the final; a win or a loss takes a round;
      and who wins the final wins every round. */
  lemma {:induction false} CourseTotals(entered: seq<nat>, wins: seq<nat>, losses: seq<nat>, r: nat)
    requires IsCourse(entered, wins, losses) && r < |entered|
    ensures losses[r] + entered[|entered| - 1] == entered[r]
    ensures wins[r] + losses[r] <= |entered| - 1 - r
    ensures entered[|entered| - 1] == 1 ==> wins[r] == |entered| - 1 - r && entered[r] == 1
    decreases |entered| - r
  {
    if r < |entered| - 1 { CourseTotals(entered, wins, losses, r + 1); }
  }

  lemma {:induction false} EntrantsGoOn(
      rows: Rows, layout: seq<RoundIds>, inputs: seq<InputId>, r: nat, x: InputId)
    requires IsBracket(rows, layout, inputs) && NoDuplicates(inputs) && r < |layout|
    ensures In(Entrants(rows, layout, inputs, r + 1), x) <= In(Entrants(rows, layout, inputs, r), x)
  {
    BracketIds(rows, layout, inputs, r);
    EntrantsDistinct(rows, layout, inputs, r);
    NextDistinct(rows, layout[r].matches, Entrants(rows, layout, inputs, r));
  }

  lemma {:induction false} NothingAfterFinal(rows: Rows, layout: seq<RoundIds>, x: InputId)
    requires AllIdsIn(rows, layout)
    ensures WinsFrom(rows, layout, |layout|, x) == 0 && LossesFrom(rows, layout, |layout|, x) == 0
  {
  }

  ghost function Entered(rows: Rows, layout: seq<RoundIds>, inputs: seq<InputId>, r: nat, x: InputId): nat
    requires IsBracket(rows, layout, inputs) && r <= |layout|
  {
    In(Entrants(rows, layout, inputs, r), x)
  }

  lemma {:induction false} CourseStep(
      rows: Rows, layout: seq<RoundIds>, inputs: seq<InputId>, r: nat, x: InputId)
    requires PlayedBracket(rows, layout, inputs) && AllIdsIn(rows, layout) && r < |layout|
    ensures var now, next := Entered(rows, layout, inputs, r, x), Entered(rows, layout, inputs, r + 1, x);
      && next <= now <= 1
      && WinsFrom(rows, layout, r, x) == next + WinsFrom(rows, layout, r + 1, x)
      && WinsFrom(rows, layout, r, x) + LossesFrom(rows, layout, r, x)
         == now + WinsFrom(rows, layout, r + 1, x) + LossesFrom(rows, layout, r + 1, x)
  {
    ResultsStep(rows, layout, inputs, r, x);
    EntrantsGoOn(rows, layout, inputs, r, x);
  }

  ghost function EnteredAll(rows: Rows, layout: seq<RoundIds>, inputs: seq<InputId>, x: InputId): (s: seq<nat>)
    requires IsBracket(rows, layout, inputs)
    ensures |s| == |layout| + 1 && forall r :: 0 <= r < |s| ==> s[r] == Entered(rows, layout, inputs, r, x)
  {
    seq(|layout| + 1, r requires 0 <= r <= |layout| => Entered(rows, layout, inputs, r, x))
  }

  ghost function WinsAll(rows: Rows, layout: seq<RoundIds>, x: InputId): (s: seq<nat>)
    requires AllIdsIn(rows, layout)
    ensures |s| == |layout| + 1 && forall r :: 0 <= r < |s| ==> s[r] == WinsFrom(rows, layout, r, x)
  {
    seq(|layout| + 1, r requires 0 <= r <= |layout| => WinsFrom(rows, layout, r, x))
  }

  ghost function LossesAll(rows: Rows, layout: seq<RoundIds>, x: InputId): (s: seq<nat>)
    requires AllIdsIn(rows, layout)
    ensures |s| == |layout| + 1 && forall r :: 0 <= r < |s| ==> s[r] == LossesFrom(rows, layout, r, x)
  {
    seq(|layout| + 1, r requires 0 <= r <= |layout| => LossesFrom(rows, layout, r, x))
  }

  lemma {:induction false} BracketIsCourse(rows: Rows, layout: seq<RoundIds>, inputs: seq<InputId>, x: InputId)
    requires PlayedBracket(rows, layout, inputs) && AllIdsIn(rows, layout)
    ensures IsCourse(EnteredAll(rows, layout, inputs, x), WinsAll(rows, layout, x), LossesAll(rows, layout, x))
  {
    var entered := EnteredAll(rows, layout, inputs, x);
    var wins, losses := WinsAll(rows, layout, x), LossesAll(rows, layout, x);
    NothingAfterFinal(rows, layout, x);
    forall r | 0 <= r < |layout|
      ensures entered[r + 1] <= entered[r] && wins[r] == entered[r + 1] + wins[r + 1]
      ensures wins[r] + losses[r] == entered[r] + wins[r + 1] + losses[r + 1]
    {
      CourseStep(rows, layout, inputs, r, x);
    }
  }

  lemma {:induction false} BracketCourse(rows: Rows, layout: seq<RoundIds>, inputs: seq<InputId>, x: InputId)
    requires PlayedBracket(rows, layout, inputs) && AllIdsIn(rows, layout)
    ensures var k := |layout|;
      && LossesFrom(rows, layout, 0, x) + Entered(rows, layout, inputs, k, x)
         == Entered(rows, layout, inputs, 0, x)
      && WinsFrom(rows, layout, 0, x) + LossesFrom(rows, layout, 0, x) <= k
      && (Entered(rows, layout, inputs, k, x) == 1 ==> WinsFrom(rows, layout, 0, x) == k)
  {
    BracketIsCourse(rows, layout, inputs, x);
    CourseTotals(EnteredAll(rows, layout, inputs, x), WinsAll(rows, layout, x), LossesAll(rows, layout, x), 0);
  }

  // ----- The standings -----

  /** A stage item that reads as the played bracket, its rounds and matches in any order. */
  ghost predicate ReadsAs(
      item: StageItem, between: seq<Round>, rows: Rows, layout: seq<RoundIds>, inputs: seq<InputId>)
  {
    PlayedBracket(rows, layout, inputs) && Redelivered(BracketRounds(rows, layout, inputs), between, item.rounds)
  }

  lemma {:induction false} BracketAscends(rows: Rows, layout: seq<RoundIds>, inputs: seq<InputId>)
    requires PlayedBracket(rows, layout, inputs) && AllIdsIn(rows, layout)
    ensures StrictlySorted(RoundById, ReadRounds(rows, layout)) && UniqueMatches(ReadRounds(rows, layout))
  {
    var rounds := ReadRounds(rows, layout);
    forall r | r in rounds
      ensures Separates(MatchByNumber, r.matches)
    {
      var k :| 0 <= k < |rounds| && rounds[k] == r;
      BracketIds(rows, layout, inputs, k);
      BracketRoundCounts(rows, layout, inputs, k);
    }
  }

  lemma {:induction false} CountedOfAscending(rounds: seq<Round>, between: seq<Round>, delivered: seq<Round>)
    requires StrictlySorted(RoundById, rounds) && UniqueMatches(rounds) && Redelivered(rounds, between, delivered)
    ensures CountedOf(Sort(RoundById, delivered)) == CountedOf(rounds)
  {
    CountedIgnoresOrder(rounds, between, delivered);
    SortKeeps(RoundById, rounds);
  }

  lemma {:induction false} CountedOfBracket(
      item: StageItem, between: seq<Round>, rows: Rows, layout: seq<RoundIds>, inputs: seq<InputId>)
    requires ReadsAs(item, between, rows, layout, inputs)
    ensures AllIdsIn(rows, layout) && Counted(item) == CountedOf(ReadRounds(rows, layout))
  {
    BracketAllIds(rows, layout, inputs);
    BracketAscends(rows, layout, inputs);
    CountedOfAscending(ReadRounds(rows, layout), between, item.rounds);
  }

  lemma {:induction false} ResultOf(item: StageItem, rules: Rules, x: InputId)
    ensures Get(Results(item, rules), x, rules.Initial()).wins == CountWins(Counted(item), x)
    ensures Get(Results(item, rules), x, rules.Initial()).losses == CountLosses(Counted(item), x)
  {
    StartTotal(item.inputs, rules, WinsOf);
    ReplayedWinsAndLosses(Ranking.Start(item.inputs, rules), Counted(item), rules, x);
  }

  ghost function Champion(rows: Rows, layout: seq<RoundIds>, inputs: seq<InputId>): InputId
    requires IsBracket(rows, layout, inputs)
  {
    Entrants(rows, layout, inputs, |layout|)[0]
  }

  /** The champion is the winner of the final, and alone in the last list. */
  lemma {:induction false} ChampionWinsFinal(rows: Rows, layout: seq<RoundIds>, inputs: seq<InputId>)
    requires PlayedBracket(rows, layout, inputs)
    ensures layout[|layout| - 1].matches[0] in rows
    ensures rows[layout[|layout| - 1].matches[0]].Winner() == Some(Champion(rows, layout, inputs))
    ensures Champion(rows, layout, inputs) in inputs
    ensures forall x :: x in Entrants(rows, layout, inputs, |layout|) <==> x == Champion(rows, layout, inputs)
    ensures |inputs| == Pow2(|layout|)
  {
    RoundSize(rows, layout, inputs, 0);
    MatchOfEntrants(rows, layout, inputs, |layout| - 1, 0);
    assert Champion(rows, layout, inputs) in Entrants(rows, layout, inputs, |layout|);
    EntrantsShrink(rows, layout, inputs, 0, Champion(rows, layout, inputs));
  }

  lemma {:induction false} BracketTotals(rows: Rows, layout: seq<RoundIds>, inputs: seq<InputId>, x: InputId)
    requires PlayedBracket(rows, layout, inputs) && AllIdsIn(rows, layout) && x in inputs
    ensures var ms, k := CountedOf(ReadRounds(rows, layout)), |layout|;
      if x == Champion(rows, layout, inputs) then CountWins(ms, x) == k && CountLosses(ms, x) == 0
      else CountWins(ms, x) < k && CountLosses(ms, x) == 1
  {
    ChampionWinsFinal(rows, layout, inputs);
    BracketCourse(rows, layout, inputs, x);
    assert ReadRounds(rows, layout)[0..] == ReadRounds(rows, layout);
  }

  /** In a bracket of 2^k inputs whose matches are all decided, the winner of the final has k wins
      and no losses, and every other input has exactly one loss and fewer wins. */
  lemma {:induction false} BracketResults(
      item: StageItem, between: seq<Round>, rows: Rows, layout: seq<RoundIds>, inputs: seq<InputId>, rules: Rules,
      x: InputId)
    requires ReadsAs(item, between, rows, layout, inputs) && x in inputs
    ensures |inputs| == Pow2(|layout|)
    ensures var s := Get(Results(item, rules), x, rules.Initial());
      if x == Champion(rows, layout, inputs) then s.wins == |layout| && s.losses == 0
      else s.wins < |layout| && s.losses == 1
  {
    ChampionWinsFinal(rows, layout, inputs);
    CountedOfBracket(item, between, rows, layout, inputs);
    ResultOf(item, rules, x);
    BracketTotals(rows, layout, inputs, x);
  }

  // ----- First place -----

  lemma {:induction false} NoDraws(inputs: seq<Input>, ms: seq<Match>, rules: Rules, x: InputId)
    requires AllDefinitive(ms) && forall m :: m in ms ==> m.score1 != m.score2
    ensures Get(Replay(Ranking.Start(inputs, rules), ms, rules), x, rules.Initial()).draws == 0
  {
    if ms == [] {
      StartTotal(inputs, rules, WinsOf);
    } else {
      var k := |ms| - 1;
      assert ms == ms[..k] + [ms[k]];
      NoDraws(inputs, ms[..k], rules, x);
      GetPlay(Replay(Ranking.Start(inputs, rules), ms[..k], rules), ms[k], rules, x);
    }
  }

  lemma {:induction false} ScaledAtLeast(p: real, n: nat)
    requires 0.0 <= p && n >= 1
    ensures p * n as real >= p
  {
  }

  lemma {:induction false} FewerWins(win: real, loss: real, w: nat, k: nat)
    requires w < k && 0.0 <= win && loss < win
    ensures win * w as real + loss < win * k as real
  {
    ScaledAtLeast(win, k - w);
    assert k as real == w as real + (k - w) as real;
  }

  lemma {:induction false} PointsOfResult(s: Stats, rules: Rules, k: nat)
    requires !rules.addScorePoints && 0.0 <= rules.win && rules.loss < rules.win
    requires s.points == FormulaPoints(s, rules) && s.draws == 0
    ensures s.wins == k && s.losses == 0 ==> s.points == rules.win * k as real
    ensures s.wins < k && s.losses == 1 ==> s.points < rules.win * k as real
  {
    OneMore(rules.draw, 0);
    OneMore(rules.loss, 0);
    if s.wins < k {
      FewerWins(rules.win, rules.loss, s.wins, k);
    }
  }

  lemma {:induction false} ComparePoints(item: StageItem, rules: Rules, x: InputId, y: InputId, k: nat)
    requires !rules.kind.Swiss? && !rules.addScorePoints && 0.0 <= rules.win && rules.loss < rules.win
    requires var s := Get(Results(item, rules), x, rules.Initial()); s.wins == k && s.draws == 0 && s.losses == 0
    requires var s := Get(Results(item, rules), y, rules.Initial()); s.wins < k && s.draws == 0 && s.losses == 1
    ensures Get(Results(item, rules), y, rules.Initial()).points < Get(Results(item, rules), x, rules.Initial()).points
  {
    PointsAreFormula(item, Counted(item), rules, x);
    PointsAreFormula(item, Counted(item), rules, y);
    PointsOfResult(Get(Results(item, rules), x, rules.Initial()), rules, k);
    PointsOfResult(Get(Results(item, rules), y, rules.Initial()), rules, k);
  }

  lemma {:induction false} DecidedMatches(rows: Rows, layout: seq<RoundIds>, m: Match)
    requires AllIdsIn(rows, layout) && AllDecided(rows) && m in CountedOf(ReadRounds(rows, layout))
    ensures m.score1 != m.score2
  {
    var rounds := ReadRounds(rows, layout);
    CountedMembers(rounds, m);
    var r :| r in rounds && !r.isDraft && m in r.matches;
    var k :| 0 <= k < |rounds| && rounds[k] == r;
    var i :| 0 <= i < |r.matches| && r.matches[i] == m;
    assert m == rows[layout[k].matches[i]];
  }

  lemma {:induction false} BracketHasNoDraws(
      item: StageItem, between: seq<Round>, rows: Rows, layout: seq<RoundIds>, inputs: seq<InputId>, rules: Rules,
      x: InputId)
    requires ReadsAs(item, between, rows, layout, inputs)
    ensures Get(Results(item, rules), x, rules.Initial()).draws == 0
  {
    CountedOfBracket(item, between, rows, layout, inputs);
    forall m | m in Counted(item)
      ensures m.score1 != m.score2
    {
      DecidedMatches(rows, layout, m);
    }
    NoDraws(item.inputs, Counted(item), rules, x);
  }

  lemma {:induction false} ChampionHasMostPoints(
      item: StageItem, between: seq<Round>, rows: Rows, layout: seq<RoundIds>, inputs: seq<InputId>, rules: Rules,
      x: InputId)
    requires ReadsAs(item, between, rows, layout, inputs) && x in inputs && x != Champion(rows, layout, inputs)
    requires !rules.kind.Swiss? && !rules.addScorePoints && 0.0 <= rules.win && rules.loss < rules.win
    ensures Get(Results(item, rules), x, rules.Initial()).points
          < Get(Results(item, rules), Champion(rows, layout, inputs), rules.Initial()).points
  {
    var champion := Champion(rows, layout, inputs);
    ChampionWinsFinal(rows, layout, inputs);
    BracketResults(item, between, rows, layout, inputs, rules, champion);
    BracketResults(item, between, rows, layout, inputs, rules, x);
    BracketHasNoDraws(item, between, rows, layout, inputs, rules, champion);
    BracketHasNoDraws(item, between, rows, layout, inputs, rules, x);
    ComparePoints(item, rules, champion, x, |layout|);
  }

  /** The item is played by the teams of the bracket. */
  ghost predicate PlayedBy(item: StageItem, inputs: seq<InputId>) {
    && DistinctInputs(item.inputs) && UsesOwnInputs(item)
    && (forall i :: i in item.inputs ==> i.team.Some? && i.id in inputs)
    && (forall x :: x in inputs ==> TeamInput(item.inputs, x))
  }

  /** With a win worth more than a loss, and not less than nothing, the winner of the final is
      first in the standings. */
  lemma {:induction false} ChampionStandsFirst(
      item: StageItem, between: seq<Round>, rows: Rows, layout: seq<RoundIds>, inputs: seq<InputId>, rules: Rules)
    requires ReadsAs(item, between, rows, layout, inputs) && PlayedBy(item, inputs)
    requires !rules.kind.Swiss? && !rules.addScorePoints && 0.0 <= rules.win && rules.loss < rules.win
    ensures Known(Results(item, rules), item.inputs)
    ensures var s := StandingsOf(Results(item, rules), item.inputs);
      s != [] && s[0].id == Champion(rows, layout, inputs)
  {
    var champion, t := Champion(rows, layout, inputs), Results(item, rules);
    ChampionWinsFinal(rows, layout, inputs);
    ResultsKnown(item, rules);
    WhoIsListed(item, rules, champion);
    forall y | Has(t, y) && y != champion
      ensures Get(t, y, rules.Initial()).points < Get(t, champion, rules.Initial()).points
    {
      WhoIsListed(item, rules, y);
      assert y in inputs;
      ChampionHasMostPoints(item, between, rows, layout, inputs, rules, y);
    }
    MostPointsFirst(t, item.inputs, champion, rules.Initial());
  }
}
