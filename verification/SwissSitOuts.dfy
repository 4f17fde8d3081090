/** What the pairing takes for never having sat out, and when it is that. */
module SwissSitOuts {
  import opened Models
  import opened Matching
  import opened Sorting
  import opened SwissPairings
  import opened Swiss
  import opened SwissRounds
  import opened SwissRuns
  import opened SwissDrafts

  // ----- In one state -----

  /** An active team passes the test exactly when no active team has missed fewer rounds. */
  lemma {:induction false} PassesIff(s: State, t: Input)
    requires t in ActiveTeams(s.inputs)
    ensures HasntSatOut(MatchesOf(s.rounds), ActiveTeams(s.inputs), t) <==>
            forall u :: u in ActiveTeams(s.inputs) ==> SitOuts(s, t.id) <= SitOuts(s, u.id)
  {
    var teams, ms := ActiveTeams(s.inputs), MatchesOf(s.rounds);
    var most :| most in teams && TimesPlayed(ms, most.id) == MostPlayed(ms, teams);
    assert SitOuts(s, t.id) <= SitOuts(s, most.id) <==> TimesPlayed(ms, most.id) <= TimesPlayed(ms, t.id);
  }

  /** Some active team passes the test. */
  lemma {:induction false} SomeonePasses(s: State) returns (b: Input)
    requires ActiveTeams(s.inputs) != []
    ensures b in ActiveTeams(s.inputs)
    ensures HasntSatOut(MatchesOf(s.rounds), ActiveTeams(s.inputs), b)
    ensures forall u :: u in ActiveTeams(s.inputs) ==> SitOuts(s, b.id) <= SitOuts(s, u.id)
  {
    var teams, ms := ActiveTeams(s.inputs), MatchesOf(s.rounds);
    assert teams[0] in teams && TimesPlayed(ms, teams[0].id) <= MostPlayed(ms, teams);
    var most :| most in teams && TimesPlayed(ms, most.id) == MostPlayed(ms, teams);
    PassesIff(s, most);
    b := most;
  }

  lemma {:induction false} TimesListed(ms: seq<Match>, x: InputId)
    ensures TimesPlayed(ms, x) <= multiset(InputsIn(ms))[x]
  {
    if ms != [] {
      var k := |ms| - 1;
      TimesListed(ms[..k], x);
      assert multiset(InputsIn(ms)) == multiset(InputsIn(ms[..k])) + multiset(InputsOfMatch(ms[k]));
      if ms[k].IsDefinitive() {
        assert InputsOfMatch(ms[k]) == [ms[k].input1.value, ms[k].input2.value];
      }
    }
  }

  /** Whoever plays at most once a round has not missed a negative number of rounds. */
  lemma {:induction false} SitOutsNotNegative(inputs: seq<Input>, rounds: seq<Round>, x: InputId)
    requires forall k :: 0 <= k < |rounds| ==> PlaysOnce(rounds[k].matches)
    ensures 0 <= SitOuts(State(inputs, rounds), x)
  {
    if rounds != [] {
      var k := |rounds| - 1;
      SitOutsNotNegative(inputs, rounds[..k], x);
      MatchesOfNext(rounds, k);
      assert rounds[..k + 1] == rounds;
      TimesPlayedAppend(MatchesOf(rounds[..k]), rounds[k].matches, x);
      TimesListed(rounds[k].matches, x);
      AtMostOnce(InputsIn(rounds[k].matches), x);
    }
  }

  /** The test means that a team has played every round exactly when some active team has. */
  lemma {:induction false} MeansEveryRoundIff(s: State)
    requires AllPlayOnce(s) && ActiveTeams(s.inputs) != []
    ensures (forall t :: t in ActiveTeams(s.inputs) ==>
              (HasntSatOut(MatchesOf(s.rounds), ActiveTeams(s.inputs), t) <==> SitOuts(s, t.id) == 0))
       <==> exists t :: t in ActiveTeams(s.inputs) && SitOuts(s, t.id) == 0
  {
    var teams := ActiveTeams(s.inputs);
    var b := SomeonePasses(s);
    forall t | t in teams
      ensures HasntSatOut(MatchesOf(s.rounds), teams, t) <==> SitOuts(s, t.id) == SitOuts(s, b.id)
      ensures 0 <= SitOuts(s, b.id) <= SitOuts(s, t.id)
    {
      PassesIff(s, t);
      SitOutsNotNegative(s.inputs, s.rounds, b.id);
    }
  }

  // ----- Over a run -----

  /** Step `i` generated a round while `x` was inactive. */
  ghost predicate AbsentAt(states: seq<State>, generated: seq<bool>, i: nat, x: InputId)
    requires i < |states| && i < |generated|
  {
    generated[i] && x !in ActiveIds(states[i])
  }

  /** Step `i` generated a round that left the active `x` out. */
  ghost predicate LeftOutAt(states: seq<State>, generated: seq<bool>, i: nat, x: InputId)
    requires i < |states| && i < |generated|
  {
    generated[i] && x in ActiveIds(states[i]) && i + 1 < |states|
    && TimesPlayed(MatchesOf(states[i + 1].rounds), x) == TimesPlayed(MatchesOf(states[i].rounds), x)
  }

  /** How many rounds were generated while `x` was not active. */
  ghost function Absences(states: seq<State>, generated: seq<bool>, k: nat, x: InputId): nat
    requires k <= |generated| < |states|
  {
    if k == 0 then 0
    else Absences(states, generated, k - 1, x) + if AbsentAt(states, generated, k - 1, x) then 1 else 0
  }

  /** How often `x` has sat out in the sense of the word: it was active and got no opponent. */
  ghost function TimesLeftOut(states: seq<State>, generated: seq<bool>, k: nat, x: InputId): nat
    requires k <= |generated| < |states|
  {
    if k == 0 then 0
    else TimesLeftOut(states, generated, k - 1, x) + if LeftOutAt(states, generated, k - 1, x) then 1 else 0
  }

  lemma {:induction false} GenerationSplits(s: State, s': State, x: InputId)
    requires Generated(s, s')
    ensures var more := TimesPlayed(MatchesOf(s'.rounds), x) - TimesPlayed(MatchesOf(s.rounds), x);
      && 0 <= more <= 1 && SitOuts(s', x) == SitOuts(s, x) + 1 - more
      && (x !in ActiveIds(s) ==> more == 0)
  {
    var round := s'.rounds[|s.rounds|];
    var q: seq<TeamPair> :| IsDraw(s, round, q);
    GeneratedMatches(s, s');
    TimesPlayedAppend(MatchesOf(s.rounds), round.matches, x);
    TimesPlayedInRound(round.matches, Ids(q), x);
    CoveredAreTeams(ActiveTeams(s.inputs), PlayedPairs(MatchesOf(s.rounds)), q);
  }

  lemma {:induction false} RunStep(states: seq<State>, generated: seq<bool>, i: nat)
    requires IsRun(states, generated) && i < |generated|
    ensures if generated[i] then Generated(states[i], states[i + 1]) else Edited(states[i], states[i + 1])
  {
  }

  lemma {:induction false} StepSplits(states: seq<State>, generated: seq<bool>, i: nat, x: InputId)
    requires IsRun(states, generated) && i < |generated|
    ensures SitOuts(states[i + 1], x) == SitOuts(states[i], x)
              + (if LeftOutAt(states, generated, i, x) then 1 else 0)
              + (if AbsentAt(states, generated, i, x) then 1 else 0)
  {
    RunStep(states, generated, i);
    if generated[i] {
      GenerationSplits(states[i], states[i + 1], x);
    } else {
      EditKeepsSitOuts(states[i], states[i + 1], x);
    }
  }

  /** The rounds a team has missed are those before it joined, or while it was inactive, and those
      in which it was left out. */
  lemma {:induction false} SitOutsSplit(states: seq<State>, generated: seq<bool>, k: nat, x: InputId)
    requires IsRun(states, generated) && k <= |generated| && states[0].rounds == []
    ensures SitOuts(states[k], x) == TimesLeftOut(states, generated, k, x) + Absences(states, generated, k, x)
  {
    if k > 0 {
      SitOutsSplit(states, generated, k - 1, x);
      StepSplits(states, generated, k - 1, x);
    }
  }

  /** The counts that decide what the test means: some active team was never left out, all such teams
      were absent equally often, and every other active team has missed more rounds than that. */
  ghost predicate CountsAgree(states: seq<State>, generated: seq<bool>, k: nat)
    requires k <= |generated| < |states|
  {
    exists b :: b in ActiveTeams(states[k].inputs) && Leads(states, generated, k, b)
  }

  ghost predicate Leads(states: seq<State>, generated: seq<bool>, k: nat, b: Input)
    requires k <= |generated| < |states|
  {
    && TimesLeftOut(states, generated, k, b.id) == 0
    && forall t :: t in ActiveTeams(states[k].inputs) ==>
         var left, absent := TimesLeftOut(states, generated, k, t.id), Absences(states, generated, k, t.id);
         if left == 0 then absent == Absences(states, generated, k, b.id)
         else Absences(states, generated, k, b.id) < left + absent
  }

  ghost predicate TestMeansNeverLeftOut(states: seq<State>, generated: seq<bool>, k: nat)
    requires k <= |generated| < |states|
  {
    var teams, ms := ActiveTeams(states[k].inputs), MatchesOf(states[k].rounds);
    forall t :: t in teams ==> (HasntSatOut(ms, teams, t) <==> TimesLeftOut(states, generated, k, t.id) == 0)
  }

  /** After any run, the test tells apart the teams that were never left out from those that were,
      exactly when the counts agree. */
  lemma {:induction false} MeansNeverLeftOutIff(states: seq<State>, generated: seq<bool>, k: nat)
    requires IsRun(states, generated) && k <= |generated| && states[0].rounds == []
    requires ActiveTeams(states[k].inputs) != []
    ensures TestMeansNeverLeftOut(states, generated, k) <==> CountsAgree(states, generated, k)
  {
    var s := states[k];
    var teams := ActiveTeams(s.inputs);
    var first := SomeonePasses(s);
    SitOutsSplit(states, generated, k, first.id);
    forall t | t in teams
      ensures SitOuts(s, t.id) == TimesLeftOut(states, generated, k, t.id) + Absences(states, generated, k, t.id)
      ensures HasntSatOut(MatchesOf(s.rounds), teams, t) <==> SitOuts(s, t.id) == SitOuts(s, first.id)
      ensures SitOuts(s, first.id) <= SitOuts(s, t.id)
    {
      SitOutsSplit(states, generated, k, t.id);
      PassesIff(s, t);
    }
    if TestMeansNeverLeftOut(states, generated, k) {
      assert Leads(states, generated, k, first);
    }
    if CountsAgree(states, generated, k) {
      var b :| b in teams && Leads(states, generated, k, b);
      assert SitOuts(s, b.id) <= SitOuts(s, first.id);
    }
  }

  /** Then the preference between two teams is the one meant: a team that was never left out sits out
      before one that was, and the lower ranked of two that are level in this. */
  lemma {:induction false} PreferenceAsMeant(
      states: seq<State>, generated: seq<bool>, k: nat, b: Input, t: Input)
    requires IsRun(states, generated) && k <= |generated| && states[0].rounds == []
    requires b in ActiveTeams(states[k].inputs) && t in ActiveTeams(states[k].inputs)
    requires CountsAgree(states, generated, k)
    ensures var never, also :=
        TimesLeftOut(states, generated, k, t.id) == 0, TimesLeftOut(states, generated, k, b.id) == 0;
      SitsOutBefore(MatchesOf(states[k].rounds), ActiveTeams(states[k].inputs), b, t)
      <==> (never ==> also) && (never == also ==> b.points <= t.points)
  {
    MeansNeverLeftOutIff(states, generated, k);
  }

  /** When nobody was ever absent, that is when some active team was never left out. */
  lemma {:induction false} NobodyAbsent(states: seq<State>, generated: seq<bool>, k: nat)
    requires IsRun(states, generated) && k <= |generated| && states[0].rounds == []
    requires ActiveTeams(states[k].inputs) != []
    requires forall t :: t in ActiveTeams(states[k].inputs) ==> Absences(states, generated, k, t.id) == 0
    ensures TestMeansNeverLeftOut(states, generated, k) <==>
            exists b :: b in ActiveTeams(states[k].inputs) && TimesLeftOut(states, generated, k, b.id) == 0
  {
    MeansNeverLeftOutIff(states, generated, k);
    if b :| b in ActiveTeams(states[k].inputs) && TimesLeftOut(states, generated, k, b.id) == 0 {
      assert Leads(states, generated, k, b);
    }
  }

  // ----- A team that joins late -----

  lemma {:induction false} OnlyPairIsBest(a: Input, b: Input, ms: seq<Match>)
    requires a.id > 0 && b.id > 0 && a.id != b.id && ms == []
    ensures IsBest([a, b], ms, [(a, b)])
  {
    var teams, q := [a, b], [(a, b)];
    assert IsPairing(teams, PlayedPairs(ms), q);
    forall o: seq<TeamPair> | IsPairing(teams, PlayedPairs(ms), o)
      ensures |o| <= 1
      ensures |o| == 1 ==> SquaredPoints(q) == SquaredPoints(o)
    {
      PairingCovers(teams, PlayedPairs(ms), o);
      if |o| == 1 {
        assert o[0].0 in teams && o[0].1 in teams && o[0].0.id != o[0].1.id;
        TotalGapIsSquares(q);
        TotalGapIsSquares(o);
        assert TotalGap(Gap, o) == Gap(o[0].0, o[0].1) + TotalGap(Gap, o[1..]);
        assert TotalGap(Gap, q) == Gap(a, b) + TotalGap(Gap, q[1..]);
      }
    }
  }

  function Inactive(t: Input): Input
    requires t.team.Some?
  {
    t.(team := Some(t.team.value.(active := false)))
  }

  /** The run: a round is drawn between `a` and `b`, then `c` becomes active. */
  function LateRun(a: Input, b: Input, c: Input, round: Round): seq<State>
    requires c.team.Some?
  {
    var before := [a, b, Inactive(c)];
    [State(before, []), State(before, [round]), State([a, b, c], [round])]
  }

  ghost predicate ThreeTeams(a: Input, b: Input, c: Input) {
    && a.team.Some? && b.team.Some? && c.team.Some?
    && a.team.value.active && b.team.value.active && c.team.value.active
    && a.id > 0 && b.id > 0 && c.id > 0 && a.id != b.id && a.id != c.id && b.id != c.id
  }

  lemma {:induction false} ThreeActive(a: Input, b: Input, c: Input)
    requires ThreeTeams(a, b, c)
    ensures ActiveTeams([a, b, c]) == [a, b, c] && ActiveTeams([a, b, Inactive(c)]) == [a, b]
  {
    var d := Inactive(c);
    assert [a, b, c][1..] == [b, c] && [b, c][1..] == [c] && [c][1..] == [];
    assert [a, b, d][1..] == [b, d] && [b, d][1..] == [d] && [d][1..] == [];
    assert ActiveTeams([c]) == [c] && ActiveTeams([d]) == [];
    assert ActiveTeams([b, c]) == [b, c] && ActiveTeams([b, d]) == [b];
  }

  lemma {:induction false} LateDraw(a: Input, b: Input, inputs: seq<Input>, round: Round, m: Match)
    requires ActiveTeams(inputs) == [a, b] && a.id > 0 && b.id > 0 && a.id != b.id && round.matches == [m]
    requires m.input1 == Some(a.id) && m.input2 == Some(b.id)
    ensures Generated(State(inputs, []), State(inputs, [round]))
  {
    OnlyPairIsBest(a, b, []);
    assert Ids([(a, b)]) == [(a.id, b.id)];
    assert [round][0] == round && [round][..0] == [];
    assert IsDraw(State(inputs, []), round, [(a, b)]);
  }

  lemma {:induction false} TwoSteps(s: State, drawn: State, edited: State)
    requires Generated(s, drawn) && Edited(drawn, edited)
    ensures IsRun([s, drawn, edited], [true, false])
  {
  }

  lemma {:induction false} Joining(a: Input, b: Input, c: Input, rounds: seq<Round>)
    requires c.team.Some?
    ensures Edited(State([a, b, Inactive(c)], rounds), State([a, b, c], rounds))
  {
  }

  lemma {:induction false} LateRunIsRun(a: Input, b: Input, c: Input, round: Round, m: Match)
    requires ThreeTeams(a, b, c) && round.matches == [m]
    requires m.input1 == Some(a.id) && m.input2 == Some(b.id)
    ensures IsRun(LateRun(a, b, c, round), [true, false])
  {
    var before := [a, b, Inactive(c)];
    ThreeActive(a, b, c);
    LateDraw(a, b, before, round, m);
    Joining(a, b, c, [round]);
    TwoSteps(State(before, []), State(before, [round]), State([a, b, c], [round]));
  }

  lemma {:induction false} OneMatchCounts(m: Match, x: InputId)
    requires m.IsDefinitive() && m.input1 != m.input2
    ensures TimesPlayed([m], x) == if m.HasInput(x) then 1 else 0
  {
    assert [m][..0] == [];
  }

  /** A team that joins late was never left out and yet fails the test, so that the code leaves out
      either of the others before it, wherever it is ranked. */
  lemma {:induction false} LateJoinerFailsTest(a: Input, b: Input, c: Input, round: Round, m: Match)
    requires ThreeTeams(a, b, c) && round.matches == [m]
    requires m.input1 == Some(a.id) && m.input2 == Some(b.id)
    ensures var states, generated := LateRun(a, b, c, round), [true, false];
      && IsRun(states, generated)
      && TimesLeftOut(states, generated, 2, c.id) == 0 && Absences(states, generated, 2, c.id) == 1
      && ActiveTeams(states[2].inputs) == [a, b, c]
      && !HasntSatOut([m], [a, b, c], c) && MatchesOf(states[2].rounds) == [m]
      && !SitsOutBefore([m], [a, b, c], c, a) && !SitsOutBefore([m], [a, b, c], c, b)
  {
    var states, generated := LateRun(a, b, c, round), [true, false];
    LateRunIsRun(a, b, c, round, m);
    ThreeActive(a, b, c);
    assert MatchesOf([round]) == [m] + MatchesOf([]);
    OneMatchCounts(m, a.id);
    OneMatchCounts(m, b.id);
    OneMatchCounts(m, c.id);
    LateCounts(a, b, c, round, m);
    assert a in [a, b, c] && b in [a, b, c] && c in [a, b, c];
  }

  lemma {:induction false} LateCounts(a: Input, b: Input, c: Input, round: Round, m: Match)
    requires ThreeTeams(a, b, c) && round.matches == [m]
    requires m.input1 == Some(a.id) && m.input2 == Some(b.id)
    ensures TimesLeftOut(LateRun(a, b, c, round), [true, false], 2, c.id) == 0
    ensures Absences(LateRun(a, b, c, round), [true, false], 2, c.id) == 1
  {
    var states, generated := LateRun(a, b, c, round), [true, false];
    ThreeActive(a, b, c);
    assert c.id !in ActiveIds(states[0]);
    assert AbsentAt(states, generated, 0, c.id) && !AbsentAt(states, generated, 1, c.id);
    assert !LeftOutAt(states, generated, 0, c.id) && !LeftOutAt(states, generated, 1, c.id);
    assert Absences(states, generated, 1, c.id) == 1 && TimesLeftOut(states, generated, 1, c.id) == 0;
  }
}
