/** Whole runs of a Swiss stage item: rounds are generated, published and scored. */
module SwissRuns {
  import opened Models
  import opened Matching
  import opened SwissPairings
  import opened Swiss
  import opened SwissRounds

  /** The matches have the same inputs. */
  ghost predicate SameInputs(a: seq<Match>, b: seq<Match>) {
    && |a| == |b|
    && forall i :: 0 <= i < |a| ==> a[i].input1 == b[i].input1 && a[i].input2 == b[i].input2
  }

  /** Scores, times, points, active flags or draft flags may have changed, but nobody was paired
      and nothing was deleted. */
  ghost predicate Edited(s: State, s': State) {
    && |s.inputs| == |s'.inputs|
    && (forall i :: 0 <= i < |s.inputs| ==> s.inputs[i].id == s'.inputs[i].id)
    && |s.rounds| == |s'.rounds|
    && SameInputs(MatchesOf(s.rounds), MatchesOf(s'.rounds))
  }

  /** `generated[i]` says whether step `i` generated a round. */
  ghost predicate IsRun(states: seq<State>, generated: seq<bool>) {
    && |states| == |generated| + 1
    && forall i :: 0 <= i < |generated| ==>
         if generated[i] then Generated(states[i], states[i + 1]) else Edited(states[i], states[i + 1])
  }

  function Generations(generated: seq<bool>): nat {
    if generated == [] then 0 else (if generated[0] then 1 else 0) + Generations(generated[1..])
  }

  // ----- Played pairs and counts of longer histories -----

  lemma {:induction false} PlayedPairsAppend(a: seq<Match>, b: seq<Match>)
    ensures PlayedPairs(a + b) == PlayedPairs(a) + PlayedPairs(b)
  {
    if b == [] {
      assert a + b == a;
    } else {
      assert (a + b)[..|a + b| - 1] == a + b[..|b| - 1];
      PlayedPairsAppend(a, b[..|b| - 1]);
    }
  }

  lemma {:induction false} TimesPlayedAppend(a: seq<Match>, b: seq<Match>, x: InputId)
    ensures TimesPlayed(a + b, x) == TimesPlayed(a, x) + TimesPlayed(b, x)
  {
    if b == [] {
      assert a + b == a;
    } else {
      assert (a + b)[..|a + b| - 1] == a + b[..|b| - 1];
      TimesPlayedAppend(a, b[..|b| - 1], x);
    }
  }

  lemma {:induction false} SameInputsSamePairs(a: seq<Match>, b: seq<Match>)
    requires SameInputs(a, b)
    ensures PlayedPairs(a) == PlayedPairs(b)
    ensures forall x :: TimesPlayed(a, x) == TimesPlayed(b, x)
  {
    if a != [] {
      SameInputsSamePairs(a[..|a| - 1], b[..|b| - 1]);
      var i := |a| - 1;
      assert a[i].input1 == b[i].input1;
    }
  }

  /** Everyone who is paired plays once more. */
  lemma {:induction false} TimesPlayedInRound(ms: seq<Match>, ids: seq<Pair>, x: InputId)
    requires HaveInputs(ms, ids) && AreDisjoint(ids) && forall p :: p in ids ==> p.0 != p.1
    ensures TimesPlayed(ms, x) == if x in Covered(ids) then 1 else 0
  {
    if ms != [] {
      var k := |ms| - 1;
      TimesPlayedInRound(ms[..k], ids[..k], x);
      InCovered(ids, x);
      InCovered(ids[..k], x);
      assert ids[k] in ids;
      assert ms[k].input1 == Some(ids[k].0);
      if x in Covered(ids[..k]) {
        var i :| 0 <= i < k && (ids[..k][i].0 == x || ids[..k][i].1 == x);
        assert Disjoint(ids[i], ids[k]);
      }
    }
  }

  lemma {:induction false} GeneratedMatches(s: State, s': State)
    requires |s'.rounds| == |s.rounds| + 1 && s'.rounds[..|s.rounds|] == s.rounds
    ensures MatchesOf(s'.rounds) == MatchesOf(s.rounds) + s'.rounds[|s.rounds|].matches
  {
    var round := s'.rounds[|s.rounds|];
    assert s'.rounds == s.rounds + [round];
    MatchesOfAppend(s.rounds, [round]);
    assert MatchesOf([round]) == round.matches + MatchesOf([]);
  }

  // ----- Only so many rounds -----

  /** All pairs of different inputs. */
  ghost function AllPairs(inputs: seq<Input>): set<Pair> {
    if inputs == [] then {}
    else PairsWith(inputs[0].id, inputs[1..]) + AllPairs(inputs[1..])
  }

  ghost function PairsWith(x: InputId, inputs: seq<Input>): set<Pair> {
    if inputs == [] then {} else {Edge((x, inputs[0].id))} + PairsWith(x, inputs[1..])
  }

  lemma {:induction false} UnionSize<T>(a: set<T>, b: set<T>)
    ensures |a + b| <= |a| + |b|
  {
    assert a + b == a + (b - a) && b == (b - a) + (a * b);
  }

  lemma {:induction false} PairsWithSize(x: InputId, inputs: seq<Input>)
    ensures |PairsWith(x, inputs)| <= |inputs|
  {
    if inputs != [] {
      PairsWithSize(x, inputs[1..]);
      UnionSize({Edge((x, inputs[0].id))}, PairsWith(x, inputs[1..]));
    }
  }

  lemma {:induction false} AllPairsSize(inputs: seq<Input>)
    ensures 2 * |AllPairs(inputs)| <= |inputs| * (|inputs| - 1)
  {
    if inputs != [] {
      var n := |inputs|;
      AllPairsSize(inputs[1..]);
      PairsWithSize(inputs[0].id, inputs[1..]);
      UnionSize(PairsWith(inputs[0].id, inputs[1..]), AllPairs(inputs[1..]));
      assert (n - 1) * (n - 2) + 2 * (n - 1) == n * (n - 1);
    }
  }

  lemma {:induction false} InPairsWith(x: InputId, inputs: seq<Input>, b: Input)
    requires b in inputs
    ensures Edge((x, b.id)) in PairsWith(x, inputs)
  {
    if b != inputs[0] {
      InPairsWith(x, inputs[1..], b);
    }
  }

  lemma {:induction false} InAllPairs(inputs: seq<Input>, a: Input, b: Input)
    requires a in inputs && b in inputs && a.id != b.id
    ensures Edge((a.id, b.id)) in AllPairs(inputs)
  {
    assert Edge((a.id, b.id)) == Edge((b.id, a.id));
    if a == inputs[0] {
      InPairsWith(a.id, inputs[1..], b);
    } else if b == inputs[0] {
      InPairsWith(b.id, inputs[1..], a);
    } else {
      InAllPairs(inputs[1..], a, b);
    }
  }

  lemma {:induction false} AllPairsById(a: seq<Input>, b: seq<Input>)
    requires |a| == |b| && forall i :: 0 <= i < |a| ==> a[i].id == b[i].id
    ensures AllPairs(a) == AllPairs(b)
  {
    if a != [] {
      AllPairsById(a[1..], b[1..]);
      PairsWithById(a[0].id, a[1..], b[1..]);
    }
  }

  lemma {:induction false} PairsWithById(x: InputId, a: seq<Input>, b: seq<Input>)
    requires |a| == |b| && forall i :: 0 <= i < |a| ==> a[i].id == b[i].id
    ensures PairsWith(x, a) == PairsWith(x, b)
  {
    if a != [] {
      PairsWithById(x, a[1..], b[1..]);
    }
  }

  ghost function Unplayed(s: State): set<Pair> {
    AllPairs(s.inputs) - PlayedPairs(MatchesOf(s.rounds))
  }

  /** Every generated round uses up a pair that had not met. */
  lemma {:induction false} GenerationUsesPair(s: State, s': State)
    requires Generated(s, s')
    ensures |Unplayed(s')| < |Unplayed(s)|
  {
    var round := s'.rounds[|s.rounds|];
    var q: seq<TeamPair> :| IsDraw(s, round, q);
    var e := Edge((q[0].0.id, q[0].1.id));
    GeneratedMatches(s, s');
    PlayedPairsAppend(MatchesOf(s.rounds), round.matches);
    InAllPairs(s.inputs, q[0].0, q[0].1);
    InPlayedPairs(round.matches, Ids(q), 0);
    SubsetSize(Unplayed(s'), Unplayed(s) - {e});
  }

  lemma {:induction false} InPlayedPairs(ms: seq<Match>, ids: seq<Pair>, i: nat)
    requires HaveInputs(ms, ids) && i < |ms|
    ensures Edge(ids[i]) in PlayedPairs(ms)
  {
    var k := |ms| - 1;
    if i < k {
      InPlayedPairs(ms[..k], ids[..k], i);
    } else {
      assert ms[i].input1 == Some(ids[i].0) && ids[i] == (ids[i].0, ids[i].1);
    }
  }

  lemma {:induction false} EditKeepsUnplayed(s: State, s': State)
    requires Edited(s, s')
    ensures Unplayed(s') == Unplayed(s)
  {
    AllPairsById(s.inputs, s'.inputs);
    SameInputsSamePairs(MatchesOf(s.rounds), MatchesOf(s'.rounds));
  }

  lemma {:induction false} RunUsesPairs(states: seq<State>, generated: seq<bool>)
    requires IsRun(states, generated)
    ensures Generations(generated) <= |Unplayed(states[0])|
    decreases |generated|
  {
    if generated != [] {
      assert if generated[0] then Generated(states[0], states[0 + 1]) else Edited(states[0], states[0 + 1]);
      RunUsesPairs(states[1..], generated[1..]);
      if generated[0] {
        GenerationUsesPair(states[0], states[1]);
      } else {
        EditKeepsUnplayed(states[0], states[1]);
      }
    }
  }

  /** Without deletions, n inputs see at most n(n-1)/2 generated rounds. */
  lemma {:induction false} RoundsBounded(states: seq<State>, generated: seq<bool>)
    requires IsRun(states, generated)
    ensures 2 * Generations(generated) <= |states[0].inputs| * (|states[0].inputs| - 1)
  {
    RunUsesPairs(states, generated);
    AllPairsSize(states[0].inputs);
    SubsetSize(Unplayed(states[0]), AllPairs(states[0].inputs));
  }

  // ----- Sit-outs stay balanced -----

  ghost function ActiveIds(s: State): set<InputId> {
    IdSet(ActiveTeams(s.inputs))
  }

  function SitOuts(s: State, x: InputId): int {
    |s.rounds| - TimesPlayed(MatchesOf(s.rounds), x)
  }

  /** No active team has sat out more than once more than another. */
  ghost predicate Balanced(s: State, ids: set<InputId>) {
    forall x, y :: x in ids && y in ids ==> SitOuts(s, x) <= SitOuts(s, y) + 1
  }

  /** Some largest pairing leaves out a team with the fewest sit-outs. */
  ghost predicate FairIsPossible(s: State) {
    var teams, ms := ActiveTeams(s.inputs), MatchesOf(s.rounds);
    exists o, t :: IsLargest(teams, PlayedPairs(ms), o) && t in teams && !Plays(o, t) && HasntSatOut(ms, teams, t)
  }

  /** The generated round leaves one team over. */
  ghost predicate LeavesOneOver(s: State, s': State)
    requires |s'.rounds| == |s.rounds| + 1
  {
    |ActiveTeams(s.inputs)| == 2 * |s'.rounds[|s.rounds|].matches| + 1
  }

  /** The team that is left over is one with the fewest sit-outs. */
  lemma {:induction false} FairSitOut(s: State, q: seq<TeamPair>) returns (b: Input)
    requires FairIsPossible(s) && IsBest(ActiveTeams(s.inputs), MatchesOf(s.rounds), q)
    requires |ActiveTeams(s.inputs)| % 2 == 1
    ensures b in ActiveTeams(s.inputs) && !Plays(q, b)
    ensures HasntSatOut(MatchesOf(s.rounds), ActiveTeams(s.inputs), b)
  {
    var teams, ms := ActiveTeams(s.inputs), MatchesOf(s.rounds);
    b :| IsBestSitOut(teams, ms, q, b);
    var o, t :| IsLargest(teams, PlayedPairs(ms), o) && t in teams && !Plays(o, t) && HasntSatOut(ms, teams, t);
    assert SitsOutBefore(ms, teams, b, t);
  }

  /** Everyone but the team that is left over plays. */
  lemma {:induction false} EveryoneElsePlays(
      teams: seq<Input>, played: set<Pair>, q: seq<TeamPair>, b: Input)
    requires ProperIds(teams) && IsPairing(teams, played, q) && |teams| == 2 * |q| + 1
    requires b in teams && !Plays(q, b)
    ensures Covered(Ids(q)) == IdSet(teams) - {b.id}
  {
    CoveredAreTeams(teams, played, q);
    CoveredSize(Ids(q));
    IdSetSize(teams);
    PairedTeams(teams, played, q, b);
    SubsetSize(Covered(Ids(q)), IdSet(teams) - {b.id});
  }

  lemma {:induction false} RoundCounts(s: State, s': State, q: seq<TeamPair>, x: InputId)
    requires |s'.rounds| == |s.rounds| + 1 && s'.rounds[..|s.rounds|] == s.rounds
    requires IsDraw(s, s'.rounds[|s.rounds|], q)
    ensures SitOuts(s', x) == SitOuts(s, x) + if x in Covered(Ids(q)) then 0 else 1
  {
    var ms := s'.rounds[|s.rounds|].matches;
    GeneratedMatches(s, s');
    TimesPlayedAppend(MatchesOf(s.rounds), ms, x);
    TimesPlayedInRound(ms, Ids(q), x);
  }

  lemma {:induction false} FewestSitOuts(s: State, b: Input, y: InputId)
    requires HasntSatOut(MatchesOf(s.rounds), ActiveTeams(s.inputs), b) && y in ActiveIds(s)
    ensures SitOuts(s, b.id) <= SitOuts(s, y)
  {
    var t :| t in ActiveTeams(s.inputs) && t.id == y;
  }

  lemma {:induction false} BalanceStep(s: State, s': State, ids: set<InputId>, b: InputId)
    requires Balanced(s, ids) && b in ids
    requires forall x :: x in ids ==> SitOuts(s', x) == SitOuts(s, x) + if x == b then 1 else 0
    requires forall y :: y in ids ==> SitOuts(s, b) <= SitOuts(s, y)
    ensures Balanced(s', ids)
  {
    forall x, y | x in ids && y in ids
      ensures SitOuts(s', x) <= SitOuts(s', y) + 1
    {
      assert SitOuts(s, x) <= SitOuts(s, y) + 1;
    }
  }

  lemma {:induction false} SitOutCounts(s: State, s': State, q: seq<TeamPair>, b: Input)
    requires |s'.rounds| == |s.rounds| + 1 && s'.rounds[..|s.rounds|] == s.rounds
    requires IsDraw(s, s'.rounds[|s.rounds|], q) && ProperIds(ActiveTeams(s.inputs))
    requires LeavesOneOver(s, s') && b in ActiveTeams(s.inputs) && !Plays(q, b)
    ensures forall x :: x in ActiveIds(s) ==> SitOuts(s', x) == SitOuts(s, x) + if x == b.id then 1 else 0
  {
    EveryoneElsePlays(ActiveTeams(s.inputs), PlayedPairs(MatchesOf(s.rounds)), q, b);
    forall x | x in ActiveIds(s)
      ensures SitOuts(s', x) == SitOuts(s, x) + if x == b.id then 1 else 0
    {
      RoundCounts(s, s', q, x);
    }
  }

  lemma {:induction false} OddSize(n: nat, k: nat)
    requires n == 2 * k + 1
    ensures n % 2 == 1
  {
  }

  lemma {:induction false} GenerationKeepsBalance(s: State, s': State)
    requires Generated(s, s') && ProperIds(s.inputs)
    requires LeavesOneOver(s, s') && FairIsPossible(s) && Balanced(s, ActiveIds(s))
    ensures Balanced(s', ActiveIds(s))
  {
    var q: seq<TeamPair> :| IsDraw(s, s'.rounds[|s.rounds|], q);
    OddSize(|ActiveTeams(s.inputs)|, |s'.rounds[|s.rounds|].matches|);
    var b := FairSitOut(s, q);
    ActiveProper(s.inputs);
    SitOutCounts(s, s', q, b);
    forall y | y in ActiveIds(s)
      ensures SitOuts(s, b.id) <= SitOuts(s, y)
    {
      FewestSitOuts(s, b, y);
    }
    BalanceStep(s, s', ActiveIds(s), b.id);
  }

  lemma {:induction false} EditKeepsSitOuts(s: State, s': State, x: InputId)
    requires Edited(s, s')
    ensures SitOuts(s', x) == SitOuts(s, x)
  {
    SameInputsSamePairs(MatchesOf(s.rounds), MatchesOf(s'.rounds));
  }

  /** Every generated round has an odd number of teams, the same ones each time, leaves one over
      and could leave over one with the fewest sit-outs. */
  ghost predicate IsFairRun(states: seq<State>, generated: seq<bool>, ids: set<InputId>) {
    && IsRun(states, generated)
    && (forall i :: 0 <= i < |states| ==> ProperIds(states[i].inputs) && ActiveIds(states[i]) == ids)
    && (forall i :: 0 <= i < |generated| && generated[i] ==>
         FairIsPossible(states[i]) && LeavesOneOver(states[i], states[i + 1]))
  }

  /** Over a whole run, sit-outs of any two teams never differ by more than one. */
  lemma {:induction false} SitOutsStayBalanced(
      states: seq<State>, generated: seq<bool>, ids: set<InputId>, k: nat)
    requires IsFairRun(states, generated, ids) && k < |states|
    requires states[0].rounds == []
    ensures Balanced(states[k], ids)
    decreases k
  {
    if k > 0 {
      SitOutsStayBalanced(states, generated, ids, k - 1);
      var s, s' := states[k - 1], states[k - 1 + 1];
      assert if generated[k - 1] then Generated(s, s') else Edited(s, s');
      if generated[k - 1] {
        GenerationKeepsBalance(s, s');
      } else {
        forall x, y | x in ids && y in ids
          ensures SitOuts(s', x) <= SitOuts(s', y) + 1
        {
          EditKeepsSitOuts(s, s', x);
          EditKeepsSitOuts(s, s', y);
        }
      }
    }
  }
}
