/** The rows of a single elimination stage item, and the two ways its inputs are updated. */
module EliminationItem {
  import opened Models
  import opened Sorting
  import opened Elimination

  // ----- Writing updates -----

  /** Writes the inputs of one match, if it is still in the same round. */
  function SetInputIds(rows: Rows, m: Match): Rows {
    if m.id in rows && rows[m.id].roundId == m.roundId then
      rows[m.id := rows[m.id].WithInputs(m.input1, m.input2)]
    else rows
  }

  function WriteAll(rows: Rows, updates: Affected): Rows {
    map id | id in rows ::
      if id in updates && updates[id].roundId == rows[id].roundId then
        rows[id].WithInputs(updates[id].input1, updates[id].input2)
      else rows[id]
  }

  function WithScore(rows: Rows, x: MatchId, score1: nat, score2: nat): Rows
    requires x in rows
  {
    rows[x := rows[x].(score1 := score1, score2 := score2)]
  }

  /** Saving a score: the score is written, then the inputs that follow from it. */
  function SaveStep(rows: Rows, rounds: seq<Round>, x: MatchId, score1: nat, score2: nat): Rows
    requires x in rows && HasRound(rounds, rows[x].roundId)
  {
    var scored := WithScore(rows, x, score1, score2);
    WriteAll(scored, InputsToUpdate(rows[x].roundId, rounds, Some({x})))
  }

  // ----- What a save means for the stored rows -----

  /** The same matches: only scores, and inputs that come from a source, may differ. */
  ghost predicate SameMatches(before: Rows, after: Rows) {
    && after.Keys == before.Keys
    && forall id :: id in before ==>
         var m, n := before[id], after[id];
         && n.(score1 := m.score1, score2 := m.score2, input1 := m.input1, input2 := m.input2) == m
         && (m.source1.None? ==> n.input1 == m.input1) && (m.source2.None? ==> n.input2 == m.input2)
  }

  /** Match `x` has the new score, and every other match has the one it had. */
  ghost predicate OnlyScored(before: Rows, after: Rows, x: MatchId, score1: nat, score2: nat) {
    && SameMatches(before, after) && x in after
    && after[x].score1 == score1 && after[x].score2 == score2
    && forall id :: id in before && id != x ==>
         after[id].score1 == before[id].score1 && after[id].score2 == before[id].score2
  }

  /** `input` is the side of match `x` with the higher score, and nobody after a draw. */
  ghost predicate IsWinnerOf(rows: Rows, input: Option<InputId>, x: MatchId) {
    && x in rows
    && (rows[x].score1 > rows[x].score2 ==> input == rows[x].input1)
    && (rows[x].score1 < rows[x].score2 ==> input == rows[x].input2)
    && (rows[x].score1 == rows[x].score2 ==> input == None)
  }

  /** Every match that waits for another one has the winner of that one. */
  ghost predicate WinnersStored(rows: Rows) {
    forall id, x ::
      && (id in rows && rows[id].source1 == Some(x) ==> IsWinnerOf(rows, rows[id].input1, x))
      && (id in rows && rows[id].source2 == Some(x) ==> IsWinnerOf(rows, rows[id].input2, x))
  }

  lemma {:induction false} ConsistentWinners(rows: Rows)
    requires Consistent(rows)
    ensures WinnersStored(rows)
  {
    forall id | id in rows
      ensures forall x :: rows[id].source1 == Some(x) ==> IsWinnerOf(rows, rows[id].input1, x)
      ensures forall x :: rows[id].source2 == Some(x) ==> IsWinnerOf(rows, rows[id].input2, x)
    {
      assert ConsistentAt(rows, id);
    }
  }

  lemma {:induction false} ScoredMatches(rows: Rows, saved: Rows, x: MatchId, score1: nat, score2: nat)
    requires x in rows && SameTree(WithScore(rows, x, score1, score2), saved)
    ensures OnlyScored(rows, saved, x, score1, score2)
  {
    var scored := WithScore(rows, x, score1, score2);
    forall id | id in rows
      ensures id != x ==> scored[id] == rows[id]
      ensures saved[id] == scored[id].WithInputs(saved[id].input1, saved[id].input2)
    {
    }
  }

  // ----- Saving a score makes its match trustworthy -----

  lemma {:induction false} StartOfOne(ms: seq<Match>, x: MatchId, rows: Rows, bound: RoundId)
    requires RowsOfRound(rows, bound, ms) && x in rows && rows[x].id == x
    ensures Start(ms, Some({x})) == if rows[x] in ms then map[x := rows[x]] else map[]
  {
    if ms != [] {
      LastOfRound(rows, bound, ms);
      var k := |ms| - 1;
      StartOfOne(ms[..k], x, rows, bound);
      assert ms == ms[..k] + [ms[k]];
      assert ms[k].id == x <==> ms[k] == rows[x];
      assert ms[k] !in ms[..k];
    }
  }

  /** A new score only puts the edges to the match itself in doubt. */
  lemma {:induction false} ScoredTrust(rows: Rows, trusted: set<MatchId>, x: MatchId, score1: nat, score2: nat)
    requires Trusted(rows, trusted) && x in rows
    ensures Trusted(WithScore(rows, x, score1, score2), trusted - {x})
  {
    var scored := WithScore(rows, x, score1, score2);
    forall id | id in scored
      ensures TrustedAt(scored, trusted - {x}, id)
    {
      assert TrustedAt(rows, trusted, id);
    }
  }

  lemma {:induction false} ScoredWellFormed(rows: Rows, x: MatchId, score1: nat, score2: nat)
    requires WellFormed(rows) && x in rows
    ensures WellFormed(WithScore(rows, x, score1, score2))
  {
    var scored := WithScore(rows, x, score1, score2);
    forall id | id in scored
      ensures SourcesEarlier(scored, id)
    {
      assert SourcesEarlier(rows, id);
    }
  }

  /** At the start only the saved match is affected, and no earlier match depends on it. */
  lemma {:induction false} StartInvariant(rows: Rows, trusted: set<MatchId>, x: MatchId)
    requires WellFormed(rows) && Trusted(rows, trusted - {x}) && x in rows
    ensures PassInvariant(rows, x, trusted, map[x := rows[x]], Before(rows, rows[x].roundId + 1))
  {
    var start: Affected := map[x := rows[x]];
    assert Current(rows, start) == rows;
    forall id | id in Before(rows, rows[x].roundId + 1)
      ensures TrustedAt(rows, trusted, id)
    {
      assert SourcesEarlier(rows, id) && TrustedAt(rows, trusted - {x}, id);
    }
  }

  lemma {:induction false} PassFromMatch(rows: Rows, rounds: seq<Round>, trusted: set<MatchId>, x: MatchId)
    requires WellFormed(rows) && Trusted(rows, trusted - {x}) && x in rows && SnapshotOf(rounds, rows)
    ensures HasRound(rounds, rows[x].roundId)
    ensures PassInvariant(rows, x, trusted,
              Pass(Start(RoundWithId(rounds, rows[x].roundId).matches, Some({x})),
                MatchesOf(SubsequentRounds(rounds, rows[x].roundId))),
              rows.Keys)
  {
    assert IsListed(rounds, rows[x]);
    var r :| r in rounds && r.id == rows[x].roundId && rows[x] in r.matches;
    var round := RoundWithId(rounds, rows[x].roundId);
    assert round == r;
    StartOfOne(round.matches, x, rows, r.id);
    StartInvariant(rows, trusted, x);
    SubsequentRoundsCover(rows, rounds, r.id);
    PassRounds(rows, x, trusted, map[x := rows[x]], SubsequentRounds(rounds, r.id), r.id + 1);
  }

  lemma {:induction false} WriteInvariant(rows: Rows, trusted: set<MatchId>, x: MatchId, affected: Affected)
    requires PassInvariant(rows, x, trusted, affected, rows.Keys)
    ensures WriteAll(rows, Updates(affected, Some({x}))) == Current(rows, affected)
    ensures SameTree(rows, Current(rows, affected)) && Trusted(Current(rows, affected), trusted)
  {
    forall id | id in rows
      ensures WriteAll(rows, Updates(affected, Some({x})))[id] == Current(rows, affected)[id]
    {
      if id in affected {
        assert affected[id] == rows[id].WithInputs(affected[id].input1, affected[id].input2);
      }
    }
  }

  /** A save makes every match agree with the saved one, and puts no other agreement in doubt,
      whatever the tree looked like. */
  lemma {:induction false} SaveTrusts(
      rows: Rows, rounds: seq<Round>, trusted: set<MatchId>, x: MatchId, score1: nat, score2: nat)
    requires WellFormed(rows) && Trusted(rows, trusted) && x in rows
    requires SnapshotOf(rounds, WithScore(rows, x, score1, score2))
    ensures HasRound(rounds, rows[x].roundId)
    ensures Trusted(SaveStep(rows, rounds, x, score1, score2), trusted + {x})
    ensures SameTree(WithScore(rows, x, score1, score2), SaveStep(rows, rounds, x, score1, score2))
  {
    var scored := WithScore(rows, x, score1, score2);
    ScoredWellFormed(rows, x, score1, score2);
    ScoredTrust(rows, trusted, x, score1, score2);
    assert trusted + {x} - {x} == trusted - {x};
    PassFromMatch(scored, rounds, trusted + {x}, x);
    var affected := Pass(Start(RoundWithId(rounds, scored[x].roundId).matches, Some({x})),
      MatchesOf(SubsequentRounds(rounds, scored[x].roundId)));
    WriteInvariant(scored, trusted + {x}, x, affected);
  }

  /** The matches that others wait for. */
  ghost predicate SourcesWithin(rows: Rows, trusted: set<MatchId>) {
    forall id {:trigger SourcesIn(rows, trusted, id)} :: id in rows ==> SourcesIn(rows, trusted, id)
  }

  /** A tree is consistent once all of its sources can be trusted. */
  lemma {:induction false} TrustIsConsistency(rows: Rows, trusted: set<MatchId>)
    requires WellFormed(rows)
    ensures SourcesWithin(rows, trusted) && Trusted(rows, trusted) ==> Consistent(rows)
    ensures Consistent(rows) ==> Trusted(rows, trusted)
  {
    forall id | id in rows
      ensures SourcesIn(rows, trusted, id) && TrustedAt(rows, trusted, id) ==> ConsistentAt(rows, id)
      ensures ConsistentAt(rows, id) ==> TrustedAt(rows, trusted, id)
    {
      assert SourcesEarlier(rows, id);
    }
    if SourcesWithin(rows, trusted) && Trusted(rows, trusted) {
      forall id | id in rows
        ensures ConsistentAt(rows, id)
      {
        assert SourcesIn(rows, trusted, id) && TrustedAt(rows, trusted, id);
      }
    }
    if Consistent(rows) {
      forall id | id in rows
        ensures TrustedAt(rows, trusted, id)
      {
        assert ConsistentAt(rows, id);
      }
    }
  }

  /** In a consistent tree, the pass that stops at unchanged matches agrees with evaluating the
      whole tree again. */
  lemma {:induction false} SaveIsRecompute(
      rows: Rows, rounds: seq<Round>, x: MatchId, score1: nat, score2: nat)
    requires WellFormed(rows) && Consistent(rows) && x in rows
    requires SnapshotOf(rounds, WithScore(rows, x, score1, score2))
    ensures HasRound(rounds, rows[x].roundId)
    ensures WellFormed(WithScore(rows, x, score1, score2))
    ensures SaveStep(rows, rounds, x, score1, score2) == Recompute(WithScore(rows, x, score1, score2))
    ensures Consistent(SaveStep(rows, rounds, x, score1, score2))
    ensures SameTree(WithScore(rows, x, score1, score2), SaveStep(rows, rounds, x, score1, score2))
    ensures OnlyScored(rows, SaveStep(rows, rounds, x, score1, score2), x, score1, score2)
    ensures WinnersStored(SaveStep(rows, rounds, x, score1, score2))
  {
    var scored := WithScore(rows, x, score1, score2);
    ScoredWellFormed(rows, x, score1, score2);
    TrustIsConsistency(rows, rows.Keys);
    SaveTrusts(rows, rounds, rows.Keys, x, score1, score2);
    var saved := SaveStep(rows, rounds, x, score1, score2);
    SameTreeWellFormed(scored, saved);
    AllSourcesKnown(saved, rows.Keys + {x});
    TrustIsConsistency(saved, rows.Keys + {x});
    ConsistentIsRecomputed(scored, saved);
    ScoredMatches(rows, saved, x, score1, score2);
    ConsistentWinners(saved);
  }

  lemma {:induction false} AllSourcesKnown(rows: Rows, all: set<MatchId>)
    requires WellFormed(rows) && rows.Keys <= all
    ensures SourcesWithin(rows, all)
  {
    forall id | id in rows
      ensures SourcesIn(rows, all, id)
    {
      assert SourcesEarlier(rows, id);
    }
  }

  // ----- Runs -----

  datatype Save = Save(id: MatchId, score1: nat, score2: nat)

  /** Any tree, the saves made to it, each of which reads the scored rows back from the database as
      `snapshot`, and deactivations of its stage, which clear all scores and nothing else. */
  datatype Run =
    | Built(rows: Rows)
    | Saved(before: Run, save: Save, snapshot: seq<Round>)
    | Deactivated(before: Run)

  /** What can be read back from the database. */
  ghost function SnapshotsOf(rows: Rows): iset<seq<Round>> {
    iset rounds: seq<Round> | SnapshotOf(rounds, rows)
  }

  ghost predicate CanSave(rows: Rows, s: Save, snapshot: seq<Round>) {
    && s.id in rows && HasRound(snapshot, rows[s.id].roundId)
    && snapshot in SnapshotsOf(WithScore(rows, s.id, s.score1, s.score2))
  }

  ghost predicate IsRun(run: Run)
    decreases run, 0
  {
    match run
    case Built(rows) => WellFormed(rows)
    case Saved(before, save, snapshot) => IsRun(before) && CanSave(State(before), save, snapshot)
    case Deactivated(before) => IsRun(before)
  }

  /** The rows at the end of a run. */
  ghost function State(run: Run): Rows
    requires IsRun(run)
    decreases run, 1
  {
    match run
    case Built(rows) => rows
    case Saved(before, save, snapshot) => SaveStep(State(before), snapshot, save.id, save.score1, save.score2)
    case Deactivated(before) => AllCleared(State(before))
  }

  function AllCleared(rows: Rows): Rows { ClearScores(rows, rows.Keys) }

  /** The rows with the bare scores of a run, without any propagation. */
  ghost function ScoresOnly(run: Run): Rows {
    match run
    case Built(rows) => rows
    case Saved(before, save, _) =>
      if save.id in ScoresOnly(before) then
        WithScore(ScoresOnly(before), save.id, save.score1, save.score2)
      else ScoresOnly(before)
    case Deactivated(before) => AllCleared(ScoresOnly(before))
  }

  /** The matches that later ones are known to agree with: all of them in a tree that is consistent
      to begin with, none after a deactivation, and every match that has been saved since. */
  ghost function TrustOf(run: Run): set<MatchId> {
    match run
    case Built(rows) => if Consistent(rows) then rows.Keys else {}
    case Saved(before, save, _) => TrustOf(before) + {save.id}
    case Deactivated(_) => {}
  }

  /** The tree a run starts from. */
  ghost function Origin(run: Run): Rows {
    match run
    case Built(rows) => rows
    case Saved(before, _, _) => Origin(before)
    case Deactivated(before) => Origin(before)
  }

  /** The score that was last saved for a match, which a deactivation makes 0:0. */
  ghost function LastScore(run: Run, id: MatchId): (nat, nat) {
    match run
    case Built(rows) => if id in rows then (rows[id].score1, rows[id].score2) else (0, 0)
    case Saved(before, save, _) => if save.id == id then (save.score1, save.score2) else LastScore(before, id)
    case Deactivated(_) => (0, 0)
  }

  lemma {:induction false} SameTreeScored(a: Rows, b: Rows, x: MatchId, score1: nat, score2: nat)
    requires SameTree(a, b) && x in a
    ensures SameTree(WithScore(a, x, score1, score2), WithScore(b, x, score1, score2))
  {
  }

  lemma {:induction false} SameTreeTransitive(a: Rows, b: Rows, c: Rows)
    requires SameTree(a, b) && SameTree(b, c)
    ensures SameTree(a, c)
  {
  }

  lemma {:induction false} SameTreeCleared(a: Rows, b: Rows)
    requires SameTree(a, b)
    ensures SameTree(AllCleared(a), AllCleared(b))
  {
  }

  lemma {:induction false} ClearedWellFormed(rows: Rows)
    requires WellFormed(rows)
    ensures WellFormed(AllCleared(rows))
  {
    forall id | id in rows
      ensures SourcesEarlier(AllCleared(rows), id)
    {
      assert SourcesEarlier(rows, id);
    }
  }

  /** If `raw` and `before` are the same tree, they still are after a save. */
  lemma {:induction false} SaveKeeps(raw: Rows, before: Rows, trusted: set<MatchId>, rounds: seq<Round>, s: Save)
    requires WellFormed(raw) && SameTree(raw, before) && Trusted(before, trusted) && CanSave(before, s, rounds)
    ensures WellFormed(WithScore(raw, s.id, s.score1, s.score2))
    ensures var after := SaveStep(before, rounds, s.id, s.score1, s.score2);
      SameTree(WithScore(raw, s.id, s.score1, s.score2), after) && Trusted(after, trusted + {s.id})
  {
    SameTreeWellFormed(raw, before);
    SaveTrusts(before, rounds, trusted, s.id, s.score1, s.score2);
    SameTreeScored(raw, before, s.id, s.score1, s.score2);
    SameTreeTransitive(WithScore(raw, s.id, s.score1, s.score2),
      WithScore(before, s.id, s.score1, s.score2), SaveStep(before, rounds, s.id, s.score1, s.score2));
    ScoredWellFormed(raw, s.id, s.score1, s.score2);
  }

  lemma {:induction false} NothingTrusted(rows: Rows)
    ensures Trusted(rows, {})
  {
  }

  lemma {:induction false} RunKeeps(run: Run)
    requires IsRun(run)
    ensures WellFormed(ScoresOnly(run)) && SameTree(ScoresOnly(run), State(run)) && Trusted(State(run), TrustOf(run))
  {
    match run
    case Built(rows) =>
      TrustIsConsistency(rows, rows.Keys);
      NothingTrusted(rows);
    case Saved(before, save, snapshot) =>
      RunKeeps(before);
      SaveKeeps(ScoresOnly(before), State(before), TrustOf(before), snapshot, save);
    case Deactivated(before) =>
      RunKeeps(before);
      ClearedWellFormed(ScoresOnly(before));
      SameTreeCleared(ScoresOnly(before), State(before));
      NothingTrusted(AllCleared(State(before)));
  }

  /** Whatever was saved in between, every match has its last score, and is otherwise as it was built,
      apart from inputs that come from a source. */
  lemma {:induction false} LastScoresStored(run: Run, id: MatchId)
    requires IsRun(run)
    ensures SameMatches(Origin(run), State(run))
    ensures id in State(run) ==> (State(run)[id].score1, State(run)[id].score2) == LastScore(run, id)
  {
    match run
    case Built(rows) =>
    case Saved(before, save, snapshot) =>
      LastScoresStored(before, id);
      RunKeeps(before);
      SameTreeWellFormed(ScoresOnly(before), State(before));
      SaveTrusts(State(before), snapshot, TrustOf(before), save.id, save.score1, save.score2);
      ScoredMatches(State(before), State(run), save.id, save.score1, save.score2);
    case Deactivated(before) =>
      LastScoresStored(before, id);
  }

  /** From any tree, with saves and deactivations in any order: once every match that another waits
      for has been saved since the last deactivation, or if the tree was consistent and never
      deactivated, the rows are what evaluating the leaves and the last scores gives. The order of
      the saves and the intermediate winners leave no trace. */
  lemma {:induction false} RunIsRecompute(run: Run)
    requires IsRun(run) && SourcesWithin(State(run), TrustOf(run))
    ensures WellFormed(ScoresOnly(run)) && Consistent(State(run))
    ensures State(run) == Recompute(ScoresOnly(run)) && WinnersStored(State(run))
  {
    RunKeeps(run);
    SameTreeWellFormed(ScoresOnly(run), State(run));
    TrustIsConsistency(State(run), TrustOf(run));
    ConsistentIsRecomputed(ScoresOnly(run), State(run));
    ConsistentWinners(State(run));
  }

  /** A consistent tree and saves only. */
  ghost predicate OnlySaves(run: Run) {
    match run
    case Built(rows) => Consistent(rows)
    case Saved(before, _, _) => OnlySaves(before)
    case Deactivated(_) => false
  }

  lemma {:induction false} OnlySavesTrusted(run: Run)
    requires IsRun(run) && OnlySaves(run)
    ensures State(run).Keys <= TrustOf(run)
  {
    if run.Saved? {
      OnlySavesTrusted(run.before);
      RunKeeps(run.before);
      RunKeeps(run);
    }
  }

  /** In particular a consistent tree stays evaluated over every sequence of saves. */
  lemma {:induction false} SavesStayEvaluated(run: Run)
    requires IsRun(run) && OnlySaves(run)
    ensures WellFormed(ScoresOnly(run)) && Consistent(State(run))
    ensures State(run) == Recompute(ScoresOnly(run)) && WinnersStored(State(run))
  {
    OnlySavesTrusted(run);
    RunKeeps(run);
    SameTreeWellFormed(ScoresOnly(run), State(run));
    AllSourcesKnown(State(run), TrustOf(run));
    RunIsRecompute(run);
  }

  // ----- The complete pass -----

  /** One pass from every round, all of them reading the same snapshot. */
  function CompletePass(rows: Rows, rounds: seq<Round>, k: nat): Rows
    requires k <= |rounds|
  {
    if k == 0 then rows
    else
      assert rounds[k - 1] in rounds;
      WriteAll(CompletePass(rows, rounds, k - 1), InputsToUpdate(rounds[k - 1].id, rounds, None))
  }

  lemma {:induction false} PassTouches(rows: Rows, start: Affected, ms: seq<Match>)
    requires OnlyInputs(rows, start)
    requires forall m :: m in ms ==> m.id in rows && rows[m.id] == m
    ensures OnlyInputs(rows, Pass(start, ms))
    ensures forall id :: id in Pass(start, ms) ==> id in start || id in IdsOf(ms)
    ensures forall id :: id in start && id !in IdsOf(ms) ==> id in Pass(start, ms) && Pass(start, ms)[id] == start[id]
  {
    if ms != [] {
      var k := |ms| - 1;
      assert ms[k] in ms && forall m :: m in ms[..k] ==> m in ms;
      assert ms == ms[..k] + [ms[k]];
      PassTouches(rows, start, ms[..k]);
    }
  }

  /** Affected matches are rows, apart from their inputs. */
  ghost predicate OnlyInputs(rows: Rows, affected: Affected) {
    forall id :: id in affected ==>
      id in rows && affected[id] == rows[id].WithInputs(affected[id].input1, affected[id].input2)
  }

  lemma {:induction false} StartOfAll(ms: seq<Match>, rows: Rows, bound: RoundId)
    requires RowsOfRound(rows, bound, ms)
    ensures Start(ms, None).Keys == IdsOf(ms)
    ensures forall id :: id in Start(ms, None) ==> id in rows && Start(ms, None)[id] == rows[id]
  {
    if ms != [] {
      LastOfRound(rows, bound, ms);
      StartOfAll(ms[..|ms| - 1], rows, bound);
    }
  }

  lemma {:induction false} InMatchesOf(rounds: seq<Round>, m: Match)
    ensures m in MatchesOf(rounds) <==> exists r :: r in rounds && m in r.matches
  {
    if rounds != [] {
      InMatchesOf(rounds[1..], m);
      assert rounds[0] in rounds;
      assert forall r :: r in rounds[1..] ==> r in rounds;
      assert forall r :: r in rounds ==> r == rounds[0] || r in rounds[1..];
    }
  }

  /** The updates write one round as it is in `rows`, and otherwise only later rounds. */
  ghost predicate RewritesRound(rows: Rows, updates: Affected, id: RoundId) {
    && OnlyInputs(rows, updates)
    && (forall x :: x in updates ==> rows[x].roundId >= id)
    && (forall x :: x in rows && rows[x].roundId == id ==> x in updates && updates[x] == rows[x])
  }

  /** The pass of a round writes that round as it was read, and otherwise only later rounds. */
  lemma {:induction false} FullRoundUpdates(rows: Rows, rounds: seq<Round>, current: Round)
    requires SnapshotOf(rounds, rows) && current in rounds
    requires forall id :: id in rows ==> rows[id].id == id
    ensures HasRound(rounds, current.id)
    ensures RewritesRound(rows, InputsToUpdate(current.id, rounds, None), current.id)
  {
    var round := RoundWithId(rounds, current.id);
    var start := Start(round.matches, None);
    var later := SubsequentRounds(rounds, current.id);
    var ms := MatchesOf(later);
    assert RowsOfRound(rows, current.id, round.matches);
    StartOfAll(round.matches, rows, current.id);
    SubsequentRoundsCover(rows, rounds, current.id);
    forall m | m in ms
      ensures m.id in rows && rows[m.id] == m && m.roundId > current.id
    {
      InMatchesOf(later, m);
      var r :| r in later && m in r.matches;
      assert RowsOfRound(rows, r.id, r.matches);
    }
    PassTouches(rows, start, ms);
    forall id | id in rows && rows[id].roundId == current.id
      ensures id in start && id !in IdsOf(ms)
    {
      assert IsListed(rounds, rows[id]);
      var r :| r in rounds && r.id == rows[id].roundId && rows[id] in r.matches;
    }
  }

  /** The passes so far changed inputs only, and none of the rounds they started from. */
  ghost predicate CompleteUpTo(rows: Rows, now: Rows, rounds: seq<Round>, k: nat)
    requires k <= |rounds|
  {
    && OnlyInputs(rows, now) && now.Keys == rows.Keys
    && forall id, i :: id in rows && 0 <= i < k && rows[id].roundId == rounds[i].id ==> now[id] == rows[id]
  }

  lemma {:induction false} CompleteStep(rows: Rows, before: Rows, rounds: seq<Round>, k: nat, updates: Affected)
    requires k < |rounds| && StrictlySorted(RoundById, rounds) && CompleteUpTo(rows, before, rounds, k)
    requires RewritesRound(rows, updates, rounds[k].id)
    ensures CompleteUpTo(rows, WriteAll(before, updates), rounds, k + 1)
  {
    var after := WriteAll(before, updates);
    forall id, i | id in rows && 0 <= i < k + 1 && rows[id].roundId == rounds[i].id
      ensures after[id] == rows[id]
    {
      assert i == k || RoundById(rounds[i], rounds[k]);
      assert before[id] == rows[id].WithInputs(before[id].input1, before[id].input2);
    }
  }

  ghost predicate RewritesAt(rows: Rows, rounds: seq<Round>, k: nat)
    requires k < |rounds|
  {
    && HasRound(rounds, rounds[k].id)
    && RewritesRound(rows, InputsToUpdate(rounds[k].id, rounds, None), rounds[k].id)
  }

  ghost predicate AllRewrite(rows: Rows, rounds: seq<Round>) {
    forall k {:trigger RewritesAt(rows, rounds, k)} :: 0 <= k < |rounds| ==> RewritesAt(rows, rounds, k)
  }

  lemma {:induction false} SnapshotRewrites(rows: Rows, rounds: seq<Round>)
    requires SnapshotOf(rounds, rows)
    requires forall id :: id in rows ==> rows[id].id == id
    ensures AllRewrite(rows, rounds)
  {
    forall k | 0 <= k < |rounds|
      ensures RewritesAt(rows, rounds, k)
    {
      FullRoundUpdates(rows, rounds, rounds[k]);
    }
  }

  lemma {:induction false} CompleteNext(rows: Rows, before: Rows, rounds: seq<Round>, k: nat)
    requires AllRewrite(rows, rounds) && StrictlySorted(RoundById, rounds)
    requires k < |rounds| && CompleteUpTo(rows, before, rounds, k)
    ensures HasRound(rounds, rounds[k].id)
    ensures CompleteUpTo(rows, WriteAll(before, InputsToUpdate(rounds[k].id, rounds, None)), rounds, k + 1)
  {
    assert RewritesAt(rows, rounds, k);
    var updates := InputsToUpdate(rounds[k].id, rounds, None);
    CompleteStep(rows, before, rounds, k, updates);
  }

  lemma {:induction false} CompletePassKeeps(rows: Rows, rounds: seq<Round>, k: nat)
    requires AllRewrite(rows, rounds) && StrictlySorted(RoundById, rounds) && k <= |rounds|
    ensures CompleteUpTo(rows, CompletePass(rows, rounds, k), rounds, k)
  {
    if k > 0 {
      CompletePassKeeps(rows, rounds, k - 1);
      CompleteNext(rows, CompletePass(rows, rounds, k - 1), rounds, k - 1);
    }
  }

  lemma {:induction false} AllRoundsRestored(rows: Rows, now: Rows, rounds: seq<Round>)
    requires SnapshotOf(rounds, rows) && CompleteUpTo(rows, now, rounds, |rounds|)
    ensures now == rows
  {
    forall id | id in rows
      ensures now[id] == rows[id]
    {
      assert IsListed(rounds, rows[id]);
      var r :| r in rounds && r.id == rows[id].roundId && rows[id] in r.matches;
      var i :| 0 <= i < |rounds| && rounds[i] == r;
    }
  }

  /** The complete pass leaves every tree as it is, consistent or not: each round's pass undoes
      what the passes before it did to that round. */
  lemma {:induction false} CompletePassIsIdentity(rows: Rows, rounds: seq<Round>)
    requires SnapshotOf(rounds, rows) && StrictlySorted(RoundById, rounds)
    requires forall id :: id in rows ==> rows[id].id == id
    ensures CompletePass(rows, rounds, |rounds|) == rows
  {
    SnapshotRewrites(rows, rounds);
    CompletePassKeeps(rows, rounds, |rounds|);
    AllRoundsRestored(rows, CompletePass(rows, rounds, |rounds|), rounds);
  }

  /** So it makes a tree consistent only if it was. */
  lemma {:induction false} CompletePassNeverRepairs(rows: Rows, rounds: seq<Round>)
    requires SnapshotOf(rounds, rows) && StrictlySorted(RoundById, rounds)
    requires forall id :: id in rows ==> rows[id].id == id
    ensures Consistent(CompletePass(rows, rounds, |rounds|)) <==> Consistent(rows)
  {
    CompletePassIsIdentity(rows, rounds);
  }

  // ----- Deactivation leaves stale winners -----

  /** No match stores an input that has to come from a source. */
  ghost predicate NothingStored(rows: Rows) {
    forall id {:trigger StoresNothing(rows[id])} :: id in rows ==> StoresNothing(rows[id])
  }

  predicate StoresNothing(m: Match) {
    (m.source1.Some? ==> m.input1.None?) && (m.source2.Some? ==> m.input2.None?)
  }

  /** Without scores nobody has won, so a tree is consistent exactly when nothing is stored. */
  lemma {:induction false} ClearedConsistentIff(rows: Rows)
    requires WellFormed(rows)
    ensures Consistent(AllCleared(rows)) <==> NothingStored(rows)
  {
    var cleared := AllCleared(rows);
    forall id | id in rows
      ensures ConsistentAt(cleared, id) <==> StoresNothing(rows[id])
    {
      assert SourcesEarlier(rows, id);
    }
    if Consistent(cleared) {
      forall id | id in rows
        ensures StoresNothing(rows[id])
      {
        assert ConsistentAt(cleared, id);
      }
    }
    if NothingStored(rows) {
      forall id | id in cleared
        ensures ConsistentAt(cleared, id)
      {
        assert StoresNothing(rows[id]);
      }
    }
  }

  /** So the complete pass does not repair what a deactivation leaves behind: afterwards the tree is
      consistent exactly when nothing had been stored before the scores were cleared. */
  lemma {:induction false} DeactivatedPassIff(rows: Rows, rounds: seq<Round>)
    requires WellFormed(rows) && SnapshotOf(rounds, AllCleared(rows)) && StrictlySorted(RoundById, rounds)
    ensures CompletePass(AllCleared(rows), rounds, |rounds|) == AllCleared(rows)
    ensures Consistent(CompletePass(AllCleared(rows), rounds, |rounds|)) <==> NothingStored(rows)
  {
    CompletePassIsIdentity(AllCleared(rows), rounds);
    ClearedConsistentIff(rows);
  }

  /** `y` waits for the winner of `x`. */
  ghost predicate WaitsFor(rows: Rows, y: MatchId, x: MatchId) {
    y in rows && (rows[y].source1 == Some(x) || rows[y].source2 == Some(x))
  }

  /** Saving a match does not change its own inputs. */
  lemma {:induction false} SavedInputs(rows: Rows, snapshot: seq<Round>, save: Save)
    requires WellFormed(rows) && Consistent(rows) && CanSave(rows, save, snapshot)
    ensures var saved := SaveStep(rows, snapshot, save.id, save.score1, save.score2);
      save.id in saved
      && saved[save.id] == WithScore(rows, save.id, save.score1, save.score2)[save.id]
  {
  }

  /** A decided match hands its winner to the match that waits for it. */
  lemma {:induction false} WinnerIsStored(rows: Rows, snapshot: seq<Round>, save: Save, y: MatchId)
    requires WellFormed(rows) && Consistent(rows) && CanSave(rows, save, snapshot)
    requires WaitsFor(rows, y, save.id) && save.score1 != save.score2 && rows[save.id].IsDefinitive()
    ensures var saved := SaveStep(rows, snapshot, save.id, save.score1, save.score2);
      WellFormed(saved) && !NothingStored(saved)
  {
    var scored := WithScore(rows, save.id, save.score1, save.score2);
    var saved := SaveStep(rows, snapshot, save.id, save.score1, save.score2);
    SaveIsRecompute(rows, snapshot, save.id, save.score1, save.score2);
    SameTreeWellFormed(scored, saved);
    SavedInputs(rows, snapshot, save);
    assert ConsistentAt(saved, y);
    assert saved[save.id].Winner().Some?;
    assert !StoresNothing(saved[y]);
  }

  lemma {:induction false} SavedRun(rows: Rows, snapshot: seq<Round>, save: Save)
    requires WellFormed(rows) && CanSave(rows, save, snapshot)
    ensures var run := Saved(Built(rows), save, snapshot);
      IsRun(run) && State(run) == SaveStep(rows, snapshot, save.id, save.score1, save.score2)
  {
    assert IsRun(Built(rows)) && State(Built(rows)) == rows;
  }

  lemma {:induction false} DeactivatedRun(run: Run)
    requires IsRun(run)
    ensures IsRun(Deactivated(run)) && State(Deactivated(run)) == AllCleared(State(run))
  {
  }

  /** Such a tree is reached from every consistent one: save a decided score of a match that another
      waits for, then deactivate the stage. The winner is still stored. */
  lemma {:induction false} DeactivationLeavesStaleWinner(
      rows: Rows, snapshot: seq<Round>, save: Save, y: MatchId)
    requires WellFormed(rows) && Consistent(rows) && CanSave(rows, save, snapshot)
    requires WaitsFor(rows, y, save.id) && save.score1 != save.score2 && rows[save.id].IsDefinitive()
    ensures IsRun(Deactivated(Saved(Built(rows), save, snapshot)))
    ensures !Consistent(State(Deactivated(Saved(Built(rows), save, snapshot))))
  {
    SavedRun(rows, snapshot, save);
    DeactivatedRun(Saved(Built(rows), save, snapshot));
    WinnerIsStored(rows, snapshot, save, y);
    ClearedConsistentIff(SaveStep(rows, snapshot, save.id, save.score1, save.score2));
  }
}
