/** Runs in which the pairings of drafts are also changed by hand, and matches and rounds deleted. */
module SwissDrafts {
  import opened Models
  import opened Matching
  import opened Sorting
  import opened SwissPairings
  import opened Swiss
  import opened SwissRounds
  import opened SwissRuns
  import Scheduling

  // ----- No input plays twice in a round -----

  ghost predicate PlaysOnce(ms: seq<Match>) { NoDuplicates(InputsIn(ms)) }

  ghost predicate AllPlayOnce(s: State) { forall k :: 0 <= k < |s.rounds| ==> PlaysOnce(s.rounds[k].matches) }

  lemma {:induction false} AddedPlaysOnce(ms: seq<Match>, m: Match)
    requires PlaysOnce(ms) && !(m.input1.Some? && m.input1 == m.input2)
    requires m.input1.Some? ==> m.input1.value !in InputsIn(ms)
    requires m.input2.Some? ==> m.input2.value !in InputsIn(ms)
    ensures PlaysOnce(ms + [m])
  {
    assert (ms + [m])[..|ms|] == ms;
  }

  lemma {:induction false} InputsInLast(ms: seq<Match>, m: Match)
    ensures InputsIn(ms + [m]) == InputsIn(ms) + InputsOfMatch(m)
  {
    assert (ms + [m])[..|ms|] == ms;
  }

  lemma {:induction false} Regroup<T>(x: seq<T>, y: seq<T>, z: seq<T>)
    ensures (x + y) + z == x + (y + z)
  {
  }

  lemma {:induction false} InputsInAppend(a: seq<Match>, b: seq<Match>)
    ensures InputsIn(a + b) == InputsIn(a) + InputsIn(b)
  {
    if b == [] {
      assert a + b == a;
    } else {
      var c, m := b[..|b| - 1], b[|b| - 1];
      calc {
        InputsIn(a + b);
        { assert a + b == (a + c) + [m]; }
        InputsIn((a + c) + [m]);
        { InputsInLast(a + c, m); }
        InputsIn(a + c) + InputsOfMatch(m);
        { InputsInAppend(a, c); }
        (InputsIn(a) + InputsIn(c)) + InputsOfMatch(m);
        { Regroup(InputsIn(a), InputsIn(c), InputsOfMatch(m)); }
        InputsIn(a) + InputsIn(b);
      }
    }
  }

  lemma {:induction false} RemovedPlaysOnce(ms: seq<Match>, i: nat)
    requires PlaysOnce(ms) && i < |ms|
    ensures PlaysOnce(Without(ms, i))
  {
    var a, b := ms[..i], ms[i + 1..];
    assert ms == a + [ms[i]] + b;
    InputsInAppend(a, [ms[i]]);
    InputsInAppend(a + [ms[i]], b);
    InputsInAppend(a, b);
    MiddleRemoved(InputsIn(a), InputsIn([ms[i]]), InputsIn(b));
  }

  lemma {:induction false} MiddleRemoved<T>(a: seq<T>, d: seq<T>, b: seq<T>)
    requires NoDuplicates(a + d + b)
    ensures NoDuplicates(a + b)
  {
    var s, n := a + d + b, |d|;
    forall i, j | 0 <= i < j < |a + b|
      ensures (a + b)[i] != (a + b)[j]
    {
      var p, q := if i < |a| then i else i + n, if j < |a| then j else j + n;
      assert s[p] == (a + b)[i] && s[q] == (a + b)[j] && p < q;
    }
  }

  lemma {:induction false} InputsInPairs(ms: seq<Match>, ids: seq<Pair>, x: InputId)
    requires HaveInputs(ms, ids)
    ensures x in InputsIn(ms) <==> exists i :: 0 <= i < |ids| && (ids[i].0 == x || ids[i].1 == x)
  {
    if ms != [] {
      var k := |ms| - 1;
      InputsInPairs(ms[..k], ids[..k], x);
      assert ms[k].input1 == Some(ids[k].0);
      if x in InputsIn(ms[..k]) {
        var i :| 0 <= i < k && (ids[..k][i].0 == x || ids[..k][i].1 == x);
        assert ids[i].0 == x || ids[i].1 == x;
      }
      if i :| 0 <= i < |ids| && (ids[i].0 == x || ids[i].1 == x) {
        assert i == k || ids[..k][i] == ids[i];
      }
    }
  }

  /** Disjoint pairs make a round in which everyone plays once. */
  lemma {:induction false} PairsPlayOnce(ms: seq<Match>, ids: seq<Pair>)
    requires HaveInputs(ms, ids) && AreDisjoint(ids) && forall i :: 0 <= i < |ids| ==> ids[i].0 != ids[i].1
    ensures PlaysOnce(ms)
  {
    if ms != [] {
      var k := |ms| - 1;
      PairsPlayOnce(ms[..k], ids[..k]);
      assert ms[k].input1 == Some(ids[k].0) && ms[k].input2 == Some(ids[k].1);
      NotInEarlierPairs(ms, ids, k, ids[k].0);
      NotInEarlierPairs(ms, ids, k, ids[k].1);
      AddedPlaysOnce(ms[..k], ms[k]);
      assert ms == ms[..k] + [ms[k]];
    }
  }

  lemma {:induction false} NotInEarlierPairs(ms: seq<Match>, ids: seq<Pair>, k: nat, x: InputId)
    requires HaveInputs(ms, ids) && AreDisjoint(ids) && k < |ids| && (x == ids[k].0 || x == ids[k].1)
    ensures x !in InputsIn(ms[..k])
  {
    InputsInPairs(ms[..k], ids[..k], x);
    forall i | 0 <= i < k
      ensures ids[..k][i].0 != x && ids[..k][i].1 != x
    {
      assert Disjoint(ids[i], ids[k]);
    }
  }

  lemma {:induction false} DrawPlaysOnce(s: State, round: Round)
    requires exists q :: IsDraw(s, round, q)
    ensures PlaysOnce(round.matches)
  {
    var q :| IsDraw(s, round, q);
    PairsPlayOnce(round.matches, Ids(q));
  }

  /** Then no two matches of the round share an input, as the planner's freedom of conflicts needs. */
  lemma {:induction false} PlaysOnceSuitsPlanner(ms: seq<Match>)
    requires PlaysOnce(ms)
    ensures Scheduling.OncePerRound(ms)
  {
    forall a, b | a in ms && b in ms && a.id != b.id && a.IsDefinitive() && b.IsDefinitive()
      ensures !Scheduling.Conflicts.ShareInput(a, b)
    {
      var i :| 0 <= i < |ms| && ms[i] == a;
      var j :| 0 <= j < |ms| && ms[j] == b;
      if i < j { PlayApart(ms, i, j); } else { PlayApart(ms, j, i); }
    }
  }

  lemma {:induction false} PlayApart(ms: seq<Match>, i: nat, j: nat)
    requires PlaysOnce(ms) && i < j < |ms| && ms[i].IsDefinitive() && ms[j].IsDefinitive()
    ensures ms[i].input1 != ms[j].input1 && ms[i].input1 != ms[j].input2
    ensures ms[i].input2 != ms[j].input1 && ms[i].input2 != ms[j].input2
  {
    var a, b := ms[..j], ms[j..];
    assert ms == a + b;
    InputsInAppend(a, b);
    InputsInMember(a, i);
    InputsInMember(b, 0);
    forall x, y | x in InputsIn(a) && y in InputsIn(b)
      ensures x != y
    {
      var p :| 0 <= p < |InputsIn(a)| && InputsIn(a)[p] == x;
      var q :| 0 <= q < |InputsIn(b)| && InputsIn(b)[q] == y;
      assert (InputsIn(a) + InputsIn(b))[p] == x && (InputsIn(a) + InputsIn(b))[|InputsIn(a)| + q] == y;
    }
  }

  lemma {:induction false} InputsInMember(ms: seq<Match>, i: nat)
    requires i < |ms| && ms[i].IsDefinitive()
    ensures ms[i].input1.value in InputsIn(ms) && ms[i].input2.value in InputsIn(ms)
  {
    var k := |ms| - 1;
    if i < k {
      InputsInMember(ms[..k], i);
    }
  }

  // ----- Histories -----

  /** Scores, times or draft flags may have changed, every match keeping its inputs and round. */
  ghost predicate EditedInPlace(s: State, s': State) {
    && Edited(s, s')
    && forall k :: 0 <= k < |s.rounds| ==> SameInputs(s.rounds[k].matches, s'.rounds[k].matches)
  }

  ghost predicate MatchCreated(s: State, s': State, k: nat, m: Match) {
    && s'.inputs == s.inputs && k < |s.rounds| && s'.rounds == WithMatch(s.rounds, k, m)
    && !(m.input1.Some? && m.input1 == m.input2)
    && (m.input1.Some? ==> m.input1.value !in InputsIn(s.rounds[k].matches))
    && (m.input2.Some? ==> m.input2.value !in InputsIn(s.rounds[k].matches))
  }

  /** What `CreateMatch` does is such a step. */
  lemma {:induction false} CreationIsStep(kind: StageType, s: State, b: NewPairing, id: MatchId, t: Tournament)
    requires CreateRefused(kind, s.rounds, b).None?
    ensures RoundIndex(s.rounds, b.roundId).Some?
    ensures var k := RoundIndex(s.rounds, b.roundId).value;
      MatchCreated(s, State(s.inputs, WithMatch(s.rounds, k, CreatedMatch(id, b, t))), k, CreatedMatch(id, b, t))
  {
  }

  datatype Step =
    | Generate
    | EditInPlace
    | Create(round: nat, m: Match)
    | Delete(round: nat, index: nat)
    | DeleteAll(round: nat)

  ghost predicate Follows(s: State, step: Step, s': State) {
    match step
    case Generate => Generated(s, s')
    case EditInPlace => EditedInPlace(s, s')
    case Create(k, m) => MatchCreated(s, s', k, m)
    case Delete(k, i) =>
      s'.inputs == s.inputs && k < |s.rounds| && i < |s.rounds[k].matches| && s'.rounds == WithoutMatch(s.rounds, k, i)
    case DeleteAll(k) => s'.inputs == s.inputs && k < |s.rounds| && s'.rounds == Without(s.rounds, k)
  }

  /** What `CreateRound` appends is a generated round. */
  lemma {:induction false} RoundIsStep(s: State, round: Round, roundId: RoundId, matchId: MatchId, t: Tournament)
    requires IsNextRound(s, round, roundId, matchId, t)
    ensures Follows(s, Generate, State(s.inputs, s.rounds + [round]))
  {
    assert (s.rounds + [round])[..|s.rounds|] == s.rounds && (s.rounds + [round])[|s.rounds|] == round;
  }

  datatype History = Begin(state: State) | Then(before: History, step: Step, state: State)

  ghost predicate Possible(h: History) {
    h.Then? ==> Possible(h.before) && Follows(h.before.state, h.step, h.state)
  }

  function First(h: History): State { if h.Begin? then h.state else First(h.before) }

  function Generations(h: History): nat {
    if h.Begin? then 0 else Generations(h.before) + if h.step.Generate? then 1 else 0
  }

  /** How many matches have been deleted. */
  function Deleted(h: History): nat {
    if h.Begin? then 0
    else
      Deleted(h.before)
      + match h.step
        case Delete(_, _) => 1
        case DeleteAll(k) => if k < |h.before.state.rounds| then |h.before.state.rounds[k].matches| else 0
        case _ => 0
  }

  lemma {:induction false} SameInputsSameList(a: seq<Match>, b: seq<Match>)
    requires SameInputs(a, b)
    ensures InputsIn(a) == InputsIn(b)
  {
    if a != [] {
      SameInputsSameList(a[..|a| - 1], b[..|b| - 1]);
      assert a[|a| - 1].input1 == b[|a| - 1].input1;
    }
  }

  lemma {:induction false} OneMoreKeeps(before: seq<Round>, after: seq<Round>)
    requires |after| == |before| + 1 && after[..|before|] == before
    requires forall k :: 0 <= k < |before| ==> PlaysOnce(before[k].matches)
    requires PlaysOnce(after[|before|].matches)
    ensures forall k :: 0 <= k < |after| ==> PlaysOnce(after[k].matches)
  {
    forall k | 0 <= k < |after|
      ensures PlaysOnce(after[k].matches)
    {
      assert k < |before| ==> after[..|before|][k] == before[k];
    }
  }

  lemma {:induction false} GeneratedPlaysOnce(s: State, s': State)
    requires Generated(s, s')
    ensures PlaysOnce(s'.rounds[|s.rounds|].matches)
  {
    DrawPlaysOnce(s, s'.rounds[|s.rounds|]);
  }

  lemma {:induction false} GenerateKeeps(s: State, s': State)
    requires AllPlayOnce(s) && Generated(s, s')
    ensures AllPlayOnce(s')
  {
    GeneratedPlaysOnce(s, s');
    OneMoreKeeps(s.rounds, s'.rounds);
  }

  lemma {:induction false} EditKeeps(s: State, s': State)
    requires AllPlayOnce(s) && EditedInPlace(s, s')
    ensures AllPlayOnce(s')
  {
    forall k | 0 <= k < |s'.rounds|
      ensures PlaysOnce(s'.rounds[k].matches)
    {
      SameInputsSameList(s.rounds[k].matches, s'.rounds[k].matches);
    }
  }

  lemma {:induction false} OneRoundKeeps(s: State, s': State, k: nat, round: Round)
    requires AllPlayOnce(s) && k < |s.rounds| && s'.rounds == s.rounds[k := round] && PlaysOnce(round.matches)
    ensures AllPlayOnce(s')
  {
  }

  lemma {:induction false} DeleteAllKeeps(s: State, s': State, k: nat)
    requires AllPlayOnce(s) && k < |s.rounds| && s'.rounds == Without(s.rounds, k)
    ensures AllPlayOnce(s')
  {
    forall i | 0 <= i < |s'.rounds|
      ensures PlaysOnce(s'.rounds[i].matches)
    {
      assert s'.rounds[i] == if i < k then s.rounds[i] else s.rounds[i + 1];
    }
  }

  lemma {:induction false} StepPlaysOnce(s: State, step: Step, s': State)
    requires AllPlayOnce(s) && Follows(s, step, s')
    ensures AllPlayOnce(s')
  {
    match step
    case Generate => GenerateKeeps(s, s');
    case EditInPlace => EditKeeps(s, s');
    case Create(k, m) =>
      AddedPlaysOnce(s.rounds[k].matches, m);
      OneRoundKeeps(s, s', k, s'.rounds[k]);
    case Delete(k, i) =>
      RemovedPlaysOnce(s.rounds[k].matches, i);
      OneRoundKeeps(s, s', k, s'.rounds[k]);
    case DeleteAll(k) => DeleteAllKeeps(s, s', k);
  }

  /** Whatever is generated, created and deleted, no input ever plays twice in a round. */
  lemma {:induction false} NobodyPlaysTwice(h: History)
    requires Possible(h) && AllPlayOnce(First(h))
    ensures AllPlayOnce(h.state)
  {
    if h.Then? {
      NobodyPlaysTwice(h.before);
      StepPlaysOnce(h.before.state, h.step, h.state);
    }
  }

  // ----- How many rounds there can be -----

  /** Matches `gone` left the list. */
  lemma {:induction false} PairsAfterRemoval(a: seq<Match>, gone: seq<Match>, b: seq<Match>)
    ensures PlayedPairs(a + gone + b) == PlayedPairs(a + b) + PlayedPairs(gone)
  {
    PlayedPairsAppend(a, gone);
    PlayedPairsAppend(a + gone, b);
    PlayedPairsAppend(a, b);
  }

  lemma {:induction false} PlayedPairsSize(ms: seq<Match>)
    ensures |PlayedPairs(ms)| <= |ms|
  {
    if ms != [] {
      var m := ms[|ms| - 1];
      PlayedPairsSize(ms[..|ms| - 1]);
      var last: set<Pair> := if m.IsDefinitive() then {Edge((m.input1.value, m.input2.value))} else {};
      UnionSize(PlayedPairs(ms[..|ms| - 1]), last);
    }
  }

  lemma {:induction false} MatchesAround(rounds: seq<Round>, k: nat, ms: seq<Match>)
    requires k < |rounds|
    ensures MatchesOf(rounds) == MatchesOf(rounds[..k]) + rounds[k].matches + MatchesOf(rounds[k + 1..])
    ensures MatchesOf(rounds[k := rounds[k].(matches := ms)])
         == MatchesOf(rounds[..k]) + ms + MatchesOf(rounds[k + 1..])
    ensures MatchesOf(Without(rounds, k)) == MatchesOf(rounds[..k]) + MatchesOf(rounds[k + 1..])
  {
    var changed := rounds[k := rounds[k].(matches := ms)];
    assert rounds == rounds[..k] + ([rounds[k]] + rounds[k + 1..]);
    assert changed == rounds[..k] + ([changed[k]] + rounds[k + 1..]);
    MatchesOfAppend(rounds[..k], [rounds[k]] + rounds[k + 1..]);
    MatchesOfAppend(rounds[..k], [changed[k]] + rounds[k + 1..]);
    MatchesOfAppend(rounds[..k], rounds[k + 1..]);
  }

  /** A deletion frees at most as many pairs as there were matches deleted. */
  lemma {:induction false} RemovalFrees(s: State, s': State, a: seq<Match>, gone: seq<Match>, b: seq<Match>)
    requires s'.inputs == s.inputs
    requires MatchesOf(s.rounds) == a + gone + b && MatchesOf(s'.rounds) == a + b
    ensures |Unplayed(s')| <= |Unplayed(s)| + |gone|
  {
    PairsAfterRemoval(a, gone, b);
    PlayedPairsSize(gone);
    SubsetSize(Unplayed(s'), Unplayed(s) + PlayedPairs(gone));
    UnionSize(Unplayed(s), PlayedPairs(gone));
  }

  lemma {:induction false} CreationUses(s: State, s': State, k: nat, m: Match)
    requires MatchCreated(s, s', k, m)
    ensures |Unplayed(s')| <= |Unplayed(s)|
  {
    var ms := s.rounds[k].matches;
    var a, b := MatchesOf(s.rounds[..k]), MatchesOf(s.rounds[k + 1..]);
    MatchesAround(s.rounds, k, ms + [m]);
    assert a + (ms + [m]) + b == a + ms + [m] + b;
    PairsAfterRemoval(a + ms, [m], b);
    SubsetSize(Unplayed(s'), Unplayed(s));
  }

  lemma {:induction false} SplitAround(a: seq<Match>, ms: seq<Match>, i: nat, b: seq<Match>)
    requires i < |ms|
    ensures a + ms + b == (a + ms[..i]) + [ms[i]] + (ms[i + 1..] + b)
    ensures a + Without(ms, i) + b == (a + ms[..i]) + (ms[i + 1..] + b)
  {
    assert ms == ms[..i] + [ms[i]] + ms[i + 1..];
  }

  lemma {:induction false} DeletionFrees(s: State, s': State, k: nat, i: nat)
    requires Follows(s, Delete(k, i), s')
    ensures |Unplayed(s')| <= |Unplayed(s)| + 1
  {
    var ms := s.rounds[k].matches;
    var a, b := MatchesOf(s.rounds[..k]), MatchesOf(s.rounds[k + 1..]);
    MatchesAround(s.rounds, k, Without(ms, i));
    SplitAround(a, ms, i, b);
    RemovalFrees(s, s', a + ms[..i], [ms[i]], ms[i + 1..] + b);
  }

  lemma {:induction false} RoundDeletionFrees(s: State, s': State, k: nat)
    requires Follows(s, DeleteAll(k), s')
    ensures |Unplayed(s')| <= |Unplayed(s)| + |s.rounds[k].matches|
  {
    MatchesAround(s.rounds, k, []);
    RemovalFrees(s, s', MatchesOf(s.rounds[..k]), s.rounds[k].matches, MatchesOf(s.rounds[k + 1..]));
  }

  lemma {:induction false} HistoryUsesPairs(h: History)
    requires Possible(h)
    ensures |h.state.inputs| == |First(h).inputs|
    ensures Generations(h) + |Unplayed(h.state)| <= |Unplayed(First(h))| + Deleted(h)
  {
    if h.Then? {
      var s, s' := h.before.state, h.state;
      HistoryUsesPairs(h.before);
      match h.step
      case Generate => GenerationUsesPair(s, s');
      case EditInPlace => EditKeepsUnplayed(s, s');
      case Create(k, m) => CreationUses(s, s', k, m);
      case Delete(k, i) => DeletionFrees(s, s', k, i);
      case DeleteAll(k) => RoundDeletionFrees(s, s', k);
    }
  }

  /** In any history over n inputs, the rounds generated are at most n(n-1)/2 plus the number of
      matches deleted. */
  lemma {:induction false} GenerationsBounded(h: History)
    requires Possible(h)
    ensures 2 * Generations(h) <= |First(h).inputs| * (|First(h).inputs| - 1) + 2 * Deleted(h)
  {
    HistoryUsesPairs(h);
    AllPairsSize(First(h).inputs);
    SubsetSize(Unplayed(First(h)), AllPairs(First(h).inputs));
  }
}
