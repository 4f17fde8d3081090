/** Moving a tournament to the next stage, whose open inputs get the teams that qualified, and back
    to the previous one. */
module Activation {
  import opened Models

  // ----- What activation reads and writes -----

  datatype ItemRow = ItemRow(id: StageItemId, inputs: seq<InputId>, matches: set<MatchId>)

  datatype StageRow = StageRow(id: StageId, items: seq<ItemRow>)

  datatype State = State(active: set<StageId>, inputs: map<InputId, Input>, matches: map<MatchId, Match>)

  /** The standings of the stage items, best first. */
  type Rankings = map<StageItemId, seq<InputId>>

  datatype Direction = NextStage | PreviousStage

  datatype Failure = NoSuchStage | AssignTeamsFirst | UnknownStageItem | PositionOutOfRange | UnexpectedInput

  // ----- Choosing the stage -----

  const BELOW_ALL: StageId := -1
  const ABOVE_ALL: StageId := 10_000_000_000

  function Active(stages: seq<StageRow>, s: State): (ids: seq<StageId>)
    ensures forall x :: x in ids <==> x in s.active && exists r :: r in stages && r.id == x
  {
    if stages == [] then []
    else
      assert forall r :: r in stages <==> r == stages[0] || r in stages[1..];
      (if stages[0].id in s.active then [stages[0].id] else []) + Active(stages[1..], s)
  }

  function Least(ids: seq<StageId>): (r: Option<StageId>)
    ensures r.None? <==> ids == []
    ensures r.Some? ==> r.value in ids && forall x :: x in ids ==> r.value <= x
  {
    if ids == [] then None
    else
      var rest := Least(ids[1..]);
      assert forall x :: x in ids <==> x == ids[0] || x in ids[1..];
      if rest.Some? && rest.value < ids[0] then rest else Some(ids[0])
  }

  function Greatest(ids: seq<StageId>): (r: Option<StageId>)
    ensures r.None? <==> ids == []
    ensures r.Some? ==> r.value in ids && forall x :: x in ids ==> x <= r.value
  {
    if ids == [] then None
    else
      var rest := Greatest(ids[1..]);
      assert forall x :: x in ids <==> x == ids[0] || x in ids[1..];
      if rest.Some? && rest.value > ids[0] then rest else Some(ids[0])
  }

  function ValueOr(x: Option<StageId>, default: StageId): StageId {
    if x.Some? then x.value else default
  }

  function InactiveAbove(stages: seq<StageRow>, s: State, lo: StageId): (ids: seq<StageId>)
    ensures forall x :: x in ids <==> lo < x && x !in s.active && exists r :: r in stages && r.id == x
  {
    if stages == [] then []
    else
      assert forall r :: r in stages <==> r == stages[0] || r in stages[1..];
      (if lo < stages[0].id && stages[0].id !in s.active then [stages[0].id] else [])
      + InactiveAbove(stages[1..], s, lo)
  }

  function InactiveBelow(stages: seq<StageRow>, s: State, hi: StageId): (ids: seq<StageId>)
    ensures forall x :: x in ids <==> x < hi && x !in s.active && exists r :: r in stages && r.id == x
  {
    if stages == [] then []
    else
      assert forall r :: r in stages <==> r == stages[0] || r in stages[1..];
      (if stages[0].id < hi && stages[0].id !in s.active then [stages[0].id] else [])
      + InactiveBelow(stages[1..], s, hi)
  }

  /** The query takes every id above the lower bound, or below the upper one. */
  function ChosenStage(stages: seq<StageRow>, s: State, direction: Direction): Option<StageId> {
    match direction
    case NextStage => Least(InactiveAbove(stages, s, ValueOr(Least(Active(stages, s)), BELOW_ALL)))
    case PreviousStage => Greatest(InactiveBelow(stages, s, ValueOr(Greatest(Active(stages, s)), ABOVE_ALL)))
  }

  // ----- Who has qualified -----

  /** The input at a position of the standings, counted from one. The check is one-sided: a
      position below one would count from the end. */
  function DetermineTeamId(source: StageItemId, position: int, rankings: Rankings): Result<InputId, Failure> {
    if source !in rankings then Err(UnknownStageItem)
    else
      var ranking := rankings[source];
      if |ranking| < position then Err(PositionOutOfRange)
      else if position >= 1 then Ok(ranking[position - 1])
      else if |ranking| + position >= 1 then Ok(ranking[|ranking| + position - 1])
      else Err(PositionOutOfRange)
  }

  function TeamOf(inputs: map<InputId, Input>, x: InputId): Result<Team, Failure> {
    if x !in inputs then Err(UnexpectedInput)
    else if inputs[x].team.Some? then Ok(inputs[x].team.value)
    else if inputs[x].source.Some? then Err(UnexpectedInput)
    else Err(AssignTeamsFirst)
  }

  function Qualified(inputs: map<InputId, Input>, i: Input, rankings: Rankings): Result<Team, Failure>
    requires i.source.Some?
  {
    var target := DetermineTeamId(i.source.value, i.position, rankings);
    if target.Err? then Err(target.error) else TeamOf(inputs, target.value)
  }

  datatype Update = Update(input: InputId, team: Team)

  type Updates = Result<seq<Update>, Failure>

  function AddUpdate(us: Updates, inputs: map<InputId, Input>, x: InputId, rankings: Rankings): Updates
    requires x in inputs
  {
    if us.Err? || !inputs[x].IsTentative() then us
    else
      var team := Qualified(inputs, inputs[x], rankings);
      if team.Err? then Err(team.error) else Ok(us.value + [Update(x, team.value)])
  }

  /** The updates of a list of inputs, or the first failure. */
  function UpdatesOf(inputs: map<InputId, Input>, xs: seq<InputId>, rankings: Rankings): Updates
    requires forall x :: x in xs ==> x in inputs
  {
    if xs == [] then Ok([])
    else
      var k := |xs| - 1;
      assert xs == xs[..k] + [xs[k]];
      AddUpdate(UpdatesOf(inputs, xs[..k], rankings), inputs, xs[k], rankings)
  }

  function InputsOf(items: seq<ItemRow>): seq<InputId> {
    if items == [] then [] else InputsOf(items[..|items| - 1]) + items[|items| - 1].inputs
  }

  function SetTeam(inputs: map<InputId, Input>, x: InputId, team: Option<Team>): map<InputId, Input> {
    if x in inputs then inputs[x := inputs[x].(team := team)] else inputs
  }

  function FillIn(inputs: map<InputId, Input>, us: seq<Update>): map<InputId, Input> {
    if us == [] then inputs
    else SetTeam(FillIn(inputs, us[..|us| - 1]), us[|us| - 1].input, Some(us[|us| - 1].team))
  }

  // ----- Deactivation -----

  /** The teams that came from an earlier stage leave. */
  function Vacate(inputs: map<InputId, Input>, xs: seq<InputId>): map<InputId, Input> {
    if xs == [] then inputs
    else
      var k := |xs| - 1;
      var r := Vacate(inputs, xs[..k]);
      if xs[k] in inputs && inputs[xs[k]].source.Some? then SetTeam(r, xs[k], None) else r
  }

  function DeactivateItems(s: State, items: seq<ItemRow>): State {
    if items == [] then s
    else
      var k := |items| - 1;
      var r := DeactivateItems(s, items[..k]);
      r.(matches := ClearScores(r.matches, items[k].matches), inputs := Vacate(r.inputs, items[k].inputs))
  }

  // ----- One activation -----

  function RowById(stages: seq<StageRow>, x: StageId): (r: Option<StageRow>)
    ensures r.Some? ==> r.value in stages && r.value.id == x
    ensures r.None? ==> forall row :: row in stages ==> row.id != x
  {
    if stages == [] then None
    else if stages[0].id == x then Some(stages[0])
    else RowById(stages[1..], x)
  }

  function FirstActive(stages: seq<StageRow>, s: State): (r: Option<StageRow>)
    ensures r.Some? ==> r.value in stages && r.value.id in s.active
    ensures r.None? ==> forall row :: row in stages ==> row.id !in s.active
  {
    if stages == [] then None
    else if stages[0].id in s.active then Some(stages[0])
    else FirstActive(stages[1..], s)
  }

  /** Every listed input is stored under its id. */
  ghost predicate Stored(stages: seq<StageRow>, s: State) {
    forall r, item, x :: r in stages && item in r.items && x in item.inputs ==> x in s.inputs
  }

  lemma {:induction false} StoredInputs(stages: seq<StageRow>, s: State, items: seq<ItemRow>)
    requires forall item, x :: item in items && x in item.inputs ==> x in s.inputs
    ensures forall x :: x in InputsOf(items) ==> x in s.inputs
  {
    if items != [] {
      var k := |items| - 1;
      assert items == items[..k] + [items[k]];
      StoredInputs(stages, s, items[..k]);
    }
  }

  /** What activation does to the stored state, or why it refuses. */
  function Activated(stages: seq<StageRow>, s: State, direction: Direction, rankings: Rankings)
      : Result<State, Failure>
    requires Stored(stages, s)
  {
    var chosen := ChosenStage(stages, s, direction);
    if chosen.None? then Err(NoSuchStage)
    else if direction.PreviousStage? then
      var leaving := FirstActive(stages, s);
      var r := if leaving.Some? then DeactivateItems(s, leaving.value.items) else s;
      Ok(r.(active := {chosen.value}))
    else
      var row := RowById(stages, chosen.value);
      if row.None? then Err(UnexpectedInput)
      else
        StoredInputs(stages, s, row.value.items);
        var us := UpdatesOf(s.inputs, InputsOf(row.value.items), rankings);
        if us.Err? then Err(us.error)
        else Ok(s.(active := {chosen.value}, inputs := FillIn(s.inputs, us.value)))
  }

  class Tables {
    const stages: seq<StageRow>
    var active: set<StageId>
    var inputs: map<InputId, Input>
    var matches: map<MatchId, Match>

    constructor (stages: seq<StageRow>, s: State)
      ensures this.stages == stages && Current() == s
    {
      this.stages := stages;
      active, inputs, matches := s.active, s.inputs, s.matches;
    }

    ghost function Current(): State
      reads this
    {
      State(active, inputs, matches)
    }

    method CollectUpdates(xs: seq<InputId>, rankings: Rankings) returns (us: Updates)
      requires forall x :: x in xs ==> x in inputs
      ensures us == UpdatesOf(inputs, xs, rankings)
    {
      us := Ok([]);
      for k := 0 to |xs|
        invariant us == UpdatesOf(inputs, xs[..k], rankings)
      {
        assert xs[..k + 1][..k] == xs[..k] && xs[k] in xs;
        us := AddUpdate(us, inputs, xs[k], rankings);
      }
      assert xs[..|xs|] == xs;
    }

    method WriteTeams(us: seq<Update>)
      modifies `inputs
      ensures inputs == FillIn(old(inputs), us)
    {
      for k := 0 to |us|
        invariant inputs == FillIn(old(inputs), us[..k])
      {
        assert us[..k + 1][..k] == us[..k];
        inputs := SetTeam(inputs, us[k].input, Some(us[k].team));
      }
      assert us[..|us|] == us;
    }

    method VacateInputs(xs: seq<InputId>)
      modifies `inputs
      ensures inputs == Vacate(old(inputs), xs)
    {
      ghost var before := inputs;
      for k := 0 to |xs|
        invariant inputs == Vacate(before, xs[..k])
      {
        assert xs[..k + 1][..k] == xs[..k];
        VacateKeeps(before, xs[..k]);
        if xs[k] in inputs && inputs[xs[k]].source.Some? {
          inputs := SetTeam(inputs, xs[k], None);
        }
      }
      assert xs[..|xs|] == xs;
    }

    method DeactivateStage(items: seq<ItemRow>)
      modifies `inputs, `matches
      ensures Current() == DeactivateItems(old(Current()), items)
    {
      ghost var before := Current();
      for k := 0 to |items|
        invariant Current() == DeactivateItems(before, items[..k])
      {
        assert items[..k + 1][..k] == items[..k];
        matches := ClearScores(matches, items[k].matches);
        VacateInputs(items[k].inputs);
      }
      assert items[..|items|] == items;
    }

    /** Activates the next or previous stage; a refusal changes nothing. */
    method ActivateNextStage(direction: Direction, rankings: Rankings) returns (r: Result<StageId, Failure>)
      requires Stored(stages, Current())
      modifies `active, `inputs, `matches
      ensures var outcome := Activated(stages, old(Current()), direction, rankings);
        if outcome.Ok? then
          && Current() == outcome.value && r.Ok? && active == {r.value}
          && ChosenStage(stages, old(Current()), direction) == Some(r.value)
        else
          r == Err(outcome.error) && Current() == old(Current())
    {
      var s := State(active, inputs, matches);
      var chosen := ChosenStage(stages, s, direction);
      if chosen.None? {
        return Err(NoSuchStage);
      }
      if direction.NextStage? {
        var row := RowById(stages, chosen.value);
        if row.None? {
          return Err(UnexpectedInput);
        }
        StoredInputs(stages, s, row.value.items);
        var us := CollectUpdates(InputsOf(row.value.items), rankings);
        if us.Err? {
          return Err(us.error);
        }
        WriteTeams(us.value);
      } else {
        var leaving := FirstActive(stages, s);
        if leaving.Some? {
          DeactivateStage(leaving.value.items);
        }
      }
      active := {chosen.value};
      r := Ok(chosen.value);
    }
  }

  lemma {:induction false} VacateKeeps(inputs: map<InputId, Input>, xs: seq<InputId>)
    ensures Vacate(inputs, xs).Keys == inputs.Keys
    ensures forall y :: y in inputs ==>
              Vacate(inputs, xs)[y]
              == if y in xs && inputs[y].source.Some? then inputs[y].(team := None) else inputs[y]
  {
    if xs != [] {
      var k := |xs| - 1;
      assert xs == xs[..k] + [xs[k]];
      VacateKeeps(inputs, xs[..k]);
    }
  }
}
