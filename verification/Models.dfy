/** The records of a tournament, as the services read them from the database. */
module Models {

  datatype Option<+T> = None | Some(value: T)

  datatype Result<+T, +E> = Ok(value: T) | Err(error: E)

  type TeamId = int
  type InputId = int
  type MatchId = nat
  type RoundId = int
  type StageItemId = int
  type StageId = int
  type Minutes = int

  datatype Team = Team(id: TeamId, active: bool)

  /** A slot of a stage item. Without a team it is tentative if it waits for the team at `position`
      of the standings of stage item `source`, and empty otherwise. */
  datatype Input = Input(
    id: InputId,
    slot: int,
    team: Option<Team>,
    source: Option<StageItemId>,
    position: int,
    points: real)
  {
    predicate IsTentative() { team.None? && source.Some? }
  }

  /** `source1` and `source2` are the matches whose winners play in this match. */
  datatype Match = Match(
    id: MatchId,
    roundId: RoundId,
    input1: Option<InputId>,
    input2: Option<InputId>,
    source1: Option<MatchId>,
    source2: Option<MatchId>,
    score1: nat,
    score2: nat,
    start: Option<Minutes>,
    duration: nat,
    margin: nat,
    customDuration: Option<nat>,
    customMargin: Option<nat>)
  {
    /** A match is definitive once both of its inputs are known. */
    predicate IsDefinitive() { input1.Some? && input2.Some? }

    predicate IsScored() { score1 != 0 || score2 != 0 }

    function Winner(): Option<InputId> {
      if score1 > score2 then input1
      else if score1 < score2 then input2
      else None
    }

    predicate HasInput(x: InputId) { input1 == Some(x) || input2 == Some(x) }

    function End(): Minutes
      requires start.Some?
    {
      start.value + duration + margin
    }

    function WithInputs(a: Option<InputId>, b: Option<InputId>): Match {
      this.(input1 := a, input2 := b)
    }
  }

  function ClearScore(m: Match): Match { m.(score1 := 0, score2 := 0) }

  function ClearScores(matches: map<MatchId, Match>, ids: set<MatchId>): map<MatchId, Match> {
    map id | id in matches :: if id in ids then ClearScore(matches[id]) else matches[id]
  }

  /** What is inserted for a new match. */
  datatype MatchBody = MatchBody(
    roundId: RoundId,
    input1: Option<InputId>,
    input2: Option<InputId>,
    source1: Option<MatchId>,
    source2: Option<MatchId>,
    duration: nat,
    margin: nat)

  datatype Round = Round(id: RoundId, isDraft: bool, matches: seq<Match>)

  /** Rounds are played in the order of their ids. */
  predicate RoundById(a: Round, b: Round) { a.id < b.id }

  /** The matches of consecutive rounds, in order. */
  function MatchesOf(rounds: seq<Round>): seq<Match> {
    if rounds == [] then [] else rounds[0].matches + MatchesOf(rounds[1..])
  }

  lemma {:induction false} MatchesOfAppend(a: seq<Round>, b: seq<Round>)
    ensures MatchesOf(a + b) == MatchesOf(a) + MatchesOf(b)
  {
    if a == [] {
      assert a + b == b;
    } else {
      assert (a + b)[1..] == a[1..] + b;
      MatchesOfAppend(a[1..], b);
    }
  }

  lemma {:induction false} MatchesOfNext(rounds: seq<Round>, k: nat)
    requires k < |rounds|
    ensures MatchesOf(rounds[..k + 1]) == MatchesOf(rounds[..k]) + rounds[k].matches
  {
    assert rounds[..k + 1] == rounds[..k] + [rounds[k]];
    MatchesOfAppend(rounds[..k], [rounds[k]]);
  }

  datatype StageType = RoundRobin | SingleElimination | Swiss

  datatype StageItem = StageItem(
    id: StageItemId,
    kind: StageType,
    teamCount: nat,
    inputs: seq<Input>,
    rounds: seq<Round>)

  datatype Stage = Stage(
    id: StageId,
    isActive: bool,
    customDuration: Option<nat>,
    stageItems: seq<StageItem>)

  /** The matches of consecutive stage items. */
  function MatchesOfItems(items: seq<StageItem>): seq<Match> {
    if items == [] then [] else MatchesOf(items[0].rounds) + MatchesOfItems(items[1..])
  }

  /** All matches: by stage, stage item and round, in order. */
  function AllMatches(stages: seq<Stage>): seq<Match> {
    if stages == [] then [] else MatchesOfItems(stages[0].stageItems) + AllMatches(stages[1..])
  }

  lemma {:induction false} MatchesOfItemsAppend(a: seq<StageItem>, b: seq<StageItem>)
    ensures MatchesOfItems(a + b) == MatchesOfItems(a) + MatchesOfItems(b)
  {
    if a == [] {
      assert a + b == b;
    } else {
      assert (a + b)[1..] == a[1..] + b;
      MatchesOfItemsAppend(a[1..], b);
    }
  }

  lemma {:induction false} AllMatchesAppend(a: seq<Stage>, b: seq<Stage>)
    ensures AllMatches(a + b) == AllMatches(a) + AllMatches(b)
  {
    if a == [] {
      assert a + b == b;
    } else {
      assert (a + b)[1..] == a[1..] + b;
      AllMatchesAppend(a[1..], b);
    }
  }

  datatype Tournament = Tournament(start: Minutes, duration: nat, margin: nat)
}
