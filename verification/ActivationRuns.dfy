/** What activations keep and undo. */
module ActivationRuns {
  import opened Models
  import opened Sorting
  import opened Ranking
  import opened Standings
  import opened Activation

  // ----- Which stage is chosen -----

  ghost predicate HasStage(stages: seq<StageRow>, x: StageId) { exists r :: r in stages && r.id == x }

  ghost predicate OnlyActive(stages: seq<StageRow>, s: State, a: StageId) { s.active == {a} && HasStage(stages, a) }

  lemma {:induction false} ActiveBounds(stages: seq<StageRow>, s: State, a: StageId)
    requires OnlyActive(stages, s, a)
    ensures Least(Active(stages, s)) == Some(a) && Greatest(Active(stages, s)) == Some(a)
  {
    assert a in Active(stages, s);
  }

  lemma {:induction false} LeastIs(stages: seq<StageRow>, ids: seq<StageId>, lo: StageId, n: StageId)
    requires forall x :: x in ids <==> lo < x && HasStage(stages, x)
    ensures Least(ids) == Some(n) <==>
            HasStage(stages, n) && lo < n && forall x :: lo < x < n ==> !HasStage(stages, x)
  {
  }

  lemma {:induction false} GreatestIs(stages: seq<StageRow>, ids: seq<StageId>, hi: StageId, n: StageId)
    requires forall x :: x in ids <==> x < hi && HasStage(stages, x)
    ensures Greatest(ids) == Some(n) <==>
            HasStage(stages, n) && n < hi && forall x :: n < x < hi ==> !HasStage(stages, x)
  {
  }

  lemma {:induction false} OthersInactive(stages: seq<StageRow>, s: State, a: StageId, x: StageId)
    requires OnlyActive(stages, s, a)
    ensures x in InactiveAbove(stages, s, a) <==> a < x && HasStage(stages, x)
    ensures x in InactiveBelow(stages, s, a) <==> x < a && HasStage(stages, x)
  {
  }

  /** With one active stage, `NextStage` is the stage with the next id. */
  lemma {:induction false} NextIsSuccessor(stages: seq<StageRow>, s: State, a: StageId, n: StageId)
    requires OnlyActive(stages, s, a)
    ensures ChosenStage(stages, s, NextStage) == Some(n) <==>
            HasStage(stages, n) && a < n && forall x :: a < x < n ==> !HasStage(stages, x)
  {
    ActiveBounds(stages, s, a);
    forall x
      ensures x in InactiveAbove(stages, s, a) <==> a < x && HasStage(stages, x)
    {
      OthersInactive(stages, s, a, x);
    }
    LeastIs(stages, InactiveAbove(stages, s, a), a, n);
  }

  lemma {:induction false} PreviousIsPredecessor(stages: seq<StageRow>, s: State, a: StageId, n: StageId)
    requires OnlyActive(stages, s, n)
    ensures ChosenStage(stages, s, PreviousStage) == Some(a) <==>
            HasStage(stages, a) && a < n && forall x :: a < x < n ==> !HasStage(stages, x)
  {
    ActiveBounds(stages, s, n);
    forall x
      ensures x in InactiveBelow(stages, s, n) <==> x < n && HasStage(stages, x)
    {
      OthersInactive(stages, s, n, x);
    }
    GreatestIs(stages, InactiveBelow(stages, s, n), n, a);
  }

  ghost predicate IsActive(stages: seq<StageRow>, s: State, x: StageId) { x in s.active && HasStage(stages, x) }

  ghost predicate IsInactive(stages: seq<StageRow>, s: State, x: StageId) { x !in s.active && HasStage(stages, x) }

  /** Some active stage is before `x`; without active stages every id from 0 on is after the start. */
  ghost predicate AfterActive(stages: seq<StageRow>, s: State, x: StageId) {
    (exists a :: IsActive(stages, s, a) && a < x) || ((forall a :: !IsActive(stages, s, a)) && x > -1)
  }

  ghost predicate BeforeActive(stages: seq<StageRow>, s: State, x: StageId) {
    (exists a :: IsActive(stages, s, a) && x < a) || ((forall a :: !IsActive(stages, s, a)) && x < 10_000_000_000)
  }

  lemma {:induction false} LeastOf(ids: seq<StageId>, eligible: StageId -> bool, n: StageId)
    requires forall x :: x in ids <==> eligible(x)
    ensures Least(ids) == Some(n) <==> eligible(n) && forall x :: eligible(x) ==> n <= x
  {
  }

  lemma {:induction false} GreatestOf(ids: seq<StageId>, eligible: StageId -> bool, n: StageId)
    requires forall x :: x in ids <==> eligible(x)
    ensures Greatest(ids) == Some(n) <==> eligible(n) && forall x :: eligible(x) ==> x <= n
  {
  }

  lemma {:induction false} ActiveIff(stages: seq<StageRow>, s: State)
    ensures forall x :: x in Active(stages, s) <==> IsActive(stages, s, x)
  {
  }

  lemma {:induction false} AboveIff(stages: seq<StageRow>, s: State, x: StageId)
    ensures x in InactiveAbove(stages, s, ValueOr(Least(Active(stages, s)), BELOW_ALL)) <==>
            IsInactive(stages, s, x) && AfterActive(stages, s, x)
  {
    ActiveIff(stages, s);
    if Active(stages, s) != [] {
      assert IsActive(stages, s, Least(Active(stages, s)).value);
    }
  }

  lemma {:induction false} BelowIff(stages: seq<StageRow>, s: State, x: StageId)
    ensures x in InactiveBelow(stages, s, ValueOr(Greatest(Active(stages, s)), ABOVE_ALL)) <==>
            IsInactive(stages, s, x) && BeforeActive(stages, s, x)
  {
    ActiveIff(stages, s);
    if Active(stages, s) != [] {
      assert IsActive(stages, s, Greatest(Active(stages, s)).value);
    }
  }

  /** In general, and also for the first activation, `NextStage` is the inactive stage with the smallest
      id after an active one. */
  lemma {:induction false} NextStageIff(stages: seq<StageRow>, s: State, n: StageId)
    ensures ChosenStage(stages, s, NextStage) == Some(n) <==>
            && IsInactive(stages, s, n) && AfterActive(stages, s, n)
            && forall x :: IsInactive(stages, s, x) && AfterActive(stages, s, x) ==> n <= x
  {
    var ids := InactiveAbove(stages, s, ValueOr(Least(Active(stages, s)), BELOW_ALL));
    var eligible := (x: StageId) => IsInactive(stages, s, x) && AfterActive(stages, s, x);
    forall x
      ensures x in ids <==> eligible(x)
    {
      AboveIff(stages, s, x);
    }
    LeastOf(ids, eligible, n);
    assert forall x :: eligible(x) <==> IsInactive(stages, s, x) && AfterActive(stages, s, x);
  }

  lemma {:induction false} PreviousStageIff(stages: seq<StageRow>, s: State, n: StageId)
    ensures ChosenStage(stages, s, PreviousStage) == Some(n) <==>
            && IsInactive(stages, s, n) && BeforeActive(stages, s, n)
            && forall x :: IsInactive(stages, s, x) && BeforeActive(stages, s, x) ==> x <= n
  {
    var ids := InactiveBelow(stages, s, ValueOr(Greatest(Active(stages, s)), ABOVE_ALL));
    var eligible := (x: StageId) => IsInactive(stages, s, x) && BeforeActive(stages, s, x);
    forall x
      ensures x in ids <==> eligible(x)
    {
      BelowIff(stages, s, x);
    }
    GreatestOf(ids, eligible, n);
    assert forall x :: eligible(x) <==> IsInactive(stages, s, x) && BeforeActive(stages, s, x);
  }

  // ----- Who has qualified -----

  ghost predicate IsListed(items: seq<ItemRow>, x: InputId) { exists item :: item in items && x in item.inputs }

  lemma {:induction false} InputsOfIff(items: seq<ItemRow>, x: InputId)
    ensures x in InputsOf(items) <==> IsListed(items, x)
  {
    if items != [] {
      var k := |items| - 1;
      assert items == items[..k] + [items[k]];
      InputsOfIff(items[..k], x);
      assert forall item :: item in items <==> item in items[..k] || item == items[k];
    }
  }

  /** The place counted from one, or from the end for a position below one. */
  function Place(ranking: seq<InputId>, position: int): int {
    if position >= 1 then position - 1 else |ranking| + position - 1
  }

  /** The input waits for a place of standings that exist, and whoever has that place has a team. */
  ghost predicate CanBeFilled(s: State, i: Input, rankings: Rankings) {
    && i.source.Some? && i.source.value in rankings
    && var ranking := rankings[i.source.value];
    && 0 <= Place(ranking, i.position) < |ranking|
    && var x := ranking[Place(ranking, i.position)];
    && x in s.inputs && s.inputs[x].team.Some?
  }

  /** Who qualifies, and why nobody does. */
  lemma {:induction false} QualifiedIff(s: State, i: Input, rankings: Rankings)
    requires i.source.Some?
    ensures var q := Qualified(s.inputs, i, rankings);
      && (q.Ok? <==> CanBeFilled(s, i, rankings))
      && (q.Ok? ==> var ranking := rankings[i.source.value];
            s.inputs[ranking[Place(ranking, i.position)]].team == Some(q.value))
      && (q == Err(UnknownStageItem) <==> i.source.value !in rankings)
      && (q == Err(PositionOutOfRange) <==>
            i.source.value in rankings
            && !(0 <= Place(rankings[i.source.value], i.position) < |rankings[i.source.value]|))
      && (q == Err(AssignTeamsFirst) ==> var ranking := rankings[i.source.value];
            var x := ranking[Place(ranking, i.position)];
            x in s.inputs && s.inputs[x].team.None? && s.inputs[x].source.None?)
      && q != Err(NoSuchStage)
  {
  }

  // ----- Filling in -----

  lemma {:induction false} UpdatesAre(inputs: map<InputId, Input>, xs: seq<InputId>, rankings: Rankings)
    requires forall x :: x in xs ==> x in inputs
    ensures UpdatesOf(inputs, xs, rankings).Ok? <==>
            forall x :: x in xs && inputs[x].IsTentative() ==> Qualified(inputs, inputs[x], rankings).Ok?
    ensures UpdatesOf(inputs, xs, rankings).Ok? ==>
              forall u :: u in UpdatesOf(inputs, xs, rankings).value <==>
                          u.input in xs && inputs[u.input].IsTentative()
                          && Qualified(inputs, inputs[u.input], rankings) == Ok(u.team)
  {
    if xs != [] {
      var k := |xs| - 1;
      assert xs == xs[..k] + [xs[k]];
      UpdatesAre(inputs, xs[..k], rankings);
    }
  }

  lemma {:induction false} FillInIs(inputs: map<InputId, Input>, us: seq<Update>)
    ensures FillIn(inputs, us).Keys == inputs.Keys
    ensures forall y :: y in inputs && (forall u :: u in us ==> u.input != y) ==> FillIn(inputs, us)[y] == inputs[y]
    ensures forall y :: y in inputs && (exists u :: u in us && u.input == y) ==>
              exists u :: u in us && u.input == y && FillIn(inputs, us)[y] == inputs[y].(team := Some(u.team))
  {
    if us != [] {
      var k := |us| - 1;
      assert us == us[..k] + [us[k]];
      FillInIs(inputs, us[..k]);
      assert us[k] in us;
    }
  }

  /** Activating the next stage gives each of its tentative inputs the team at its position of the
      standings it waits for, and changes no other input. */
  lemma {:induction false} ActivationFills(
      stages: seq<StageRow>, s: State, row: StageRow, rankings: Rankings, after: State, y: InputId)
    requires Stored(stages, s) && Activated(stages, s, NextStage, rankings) == Ok(after)
    requires Some(row) == RowById(stages, ChosenStage(stages, s, NextStage).value) && y in s.inputs
    ensures after.inputs.Keys == s.inputs.Keys && after.matches == s.matches
    ensures var i := s.inputs[y];
      if y in InputsOf(row.items) && i.IsTentative() then
        Qualified(s.inputs, i, rankings).Ok?
        && after.inputs[y] == i.(team := Some(Qualified(s.inputs, i, rankings).value))
      else after.inputs[y] == i
    ensures var i := s.inputs[y];
      if IsListed(row.items, y) && i.team.None? && i.source.Some? then
        CanBeFilled(s, i, rankings)
        && var ranking := rankings[i.source.value];
        after.inputs[y] == i.(team := s.inputs[ranking[Place(ranking, i.position)]].team)
      else after.inputs[y] == i
    ensures after.active == {row.id}
  {
    InputsOfIff(row.items, y);
    if s.inputs[y].source.Some? { QualifiedIff(s, s.inputs[y], rankings); }
    StoredInputs(stages, s, row.items);
    var us := UpdatesOf(s.inputs, InputsOf(row.items), rankings);
    UpdatesAre(s.inputs, InputsOf(row.items), rankings);
    FillInIs(s.inputs, us.value);
    if y in InputsOf(row.items) && s.inputs[y].IsTentative() {
      assert Update(y, Qualified(s.inputs, s.inputs[y], rankings).value) in us.value;
    }
  }

  /** Every input that waits for an earlier stage item can be filled. */
  ghost predicate AllQualified(s: State, items: seq<ItemRow>, rankings: Rankings) {
    forall x ::
      IsListed(items, x) && x in s.inputs && s.inputs[x].team.None? && s.inputs[x].source.Some? ==>
        CanBeFilled(s, s.inputs[x], rankings)
  }

  /** Activation succeeds exactly when there is a next stage and every tentative input of it can be
      filled. */
  lemma {:induction false} ActivationSucceedsIff(stages: seq<StageRow>, s: State, rankings: Rankings)
    requires Stored(stages, s)
    ensures Activated(stages, s, NextStage, rankings).Ok? <==>
            var chosen := ChosenStage(stages, s, NextStage);
            && chosen.Some? && RowById(stages, chosen.value).Some?
            && AllQualified(s, RowById(stages, chosen.value).value.items, rankings)
  {
    var chosen := ChosenStage(stages, s, NextStage);
    if chosen.Some? && RowById(stages, chosen.value).Some? {
      var items := RowById(stages, chosen.value).value.items;
      StoredInputs(stages, s, items);
      UpdatesAre(s.inputs, InputsOf(items), rankings);
      forall x | x in s.inputs && s.inputs[x].IsTentative()
        ensures x in InputsOf(items) <==> IsListed(items, x)
        ensures Qualified(s.inputs, s.inputs[x], rankings).Ok? <==> CanBeFilled(s, s.inputs[x], rankings)
      {
        InputsOfIff(items, x);
        QualifiedIff(s, s.inputs[x], rankings);
      }
    }
  }

  ghost predicate FailsAt(s: State, xs: seq<InputId>, k: nat, rankings: Rankings, e: Failure)
    requires k < |xs|
  {
    && xs[k] in s.inputs && s.inputs[xs[k]].IsTentative()
    && Qualified(s.inputs, s.inputs[xs[k]], rankings) == Err(e)
    && forall j :: 0 <= j < k && xs[j] in s.inputs && s.inputs[xs[j]].IsTentative() ==>
         CanBeFilled(s, s.inputs[xs[j]], rankings)
  }

  ghost predicate FailsIn(s: State, xs: seq<InputId>, rankings: Rankings, e: Failure) {
    exists k :: 0 <= k < |xs| && FailsAt(s, xs, k, rankings, e)
  }

  lemma {:induction false} FirstFailure(s: State, xs: seq<InputId>, rankings: Rankings)
    requires forall x :: x in xs ==> x in s.inputs
    ensures var us := UpdatesOf(s.inputs, xs, rankings);
      us.Err? ==> FailsIn(s, xs, rankings, us.error)
  {
    if xs != [] {
      var n := |xs| - 1;
      assert xs == xs[..n] + [xs[n]];
      FirstFailure(s, xs[..n], rankings);
      var us, before := UpdatesOf(s.inputs, xs, rankings), UpdatesOf(s.inputs, xs[..n], rankings);
      if before.Err? {
        var k :| 0 <= k < n && FailsAt(s, xs[..n], k, rankings, before.error);
        assert FailsAt(s, xs, k, rankings, us.error);
      } else if us.Err? {
        UpdatesAre(s.inputs, xs[..n], rankings);
        forall j | 0 <= j < n && s.inputs[xs[j]].IsTentative()
          ensures CanBeFilled(s, s.inputs[xs[j]], rankings)
        {
          var x := xs[..n][j];
          assert x in xs[..n] && s.inputs[x].IsTentative();
          assert Qualified(s.inputs, s.inputs[x], rankings).Ok?;
          QualifiedIff(s, s.inputs[xs[j]], rankings);
        }
        assert FailsAt(s, xs, n, rankings, us.error);
      }
    }
  }

  /** An activation is refused because there is no next stage, or for the first input of it that cannot
      be filled. */
  lemma {:induction false} WhyRefused(stages: seq<StageRow>, s: State, rankings: Rankings, e: Failure)
    requires Stored(stages, s) && Activated(stages, s, NextStage, rankings) == Err(e)
    ensures var chosen := ChosenStage(stages, s, NextStage);
      if chosen.None? then e == NoSuchStage
      else
        && RowById(stages, chosen.value).Some?
        && FailsIn(s, InputsOf(RowById(stages, chosen.value).value.items), rankings, e)
  {
    var chosen := ChosenStage(stages, s, NextStage);
    if chosen.Some? {
      var row := RowById(stages, chosen.value);
      assert HasStage(stages, chosen.value);
      StoredInputs(stages, s, row.value.items);
      var xs := InputsOf(row.value.items);
      FirstFailure(s, xs, rankings);
      var us := UpdatesOf(s.inputs, xs, rankings);
      assert us.Err? && us.error == e;
    }
  }

  // ----- Who advances -----

  ghost predicate OpenIn(s: State, items: seq<ItemRow>, x: InputId) {
    x in InputsOf(items) && x in s.inputs && s.inputs[x].IsTentative()
  }

  /** No two open inputs of the stage wait for the same position. */
  ghost predicate DistinctSeats(s: State, items: seq<ItemRow>) {
    forall x, y :: OpenIn(s, items, x) && OpenIn(s, items, y) && x != y ==>
      s.inputs[x].source != s.inputs[y].source || s.inputs[x].position != s.inputs[y].position
  }

  /** Positions count from one. */
  ghost predicate ProperPositions(s: State) {
    forall x :: x in s.inputs && s.inputs[x].IsTentative() ==> s.inputs[x].position >= 1
  }

  /** The input at a place of the standings. */
  ghost predicate RankedAt(rankings: Rankings, item: StageItemId, i: nat, x: InputId) {
    item in rankings && i < |rankings[item]| && rankings[item][i] == x
  }

  /** The standings list no input twice, in one stage item or in two. */
  ghost predicate RankedOnce(rankings: Rankings) {
    forall item, i, item', i', x {:trigger RankedAt(rankings, item, i, x), RankedAt(rankings, item', i', x)} ::
      RankedAt(rankings, item, i, x) && RankedAt(rankings, item', i', x) ==> item == item' && i == i'
  }

  /** No team is in the standings with two inputs. */
  ghost predicate OneInputPerTeam(s: State, rankings: Rankings) {
    forall item, i, x, item', i', y {:trigger RankedAt(rankings, item, i, x), RankedAt(rankings, item', i', y)} ::
      RankedAt(rankings, item, i, x) && RankedAt(rankings, item', i', y) && x != y
        && x in s.inputs && y in s.inputs && s.inputs[x].team.Some? && s.inputs[y].team.Some? ==>
      s.inputs[x].team.value.id != s.inputs[y].team.value.id
  }

  lemma {:induction false} QualifiedFrom(s: State, i: Input, rankings: Rankings) returns (x: InputId)
    requires i.source.Some? && i.position >= 1 && Qualified(s.inputs, i, rankings).Ok?
    ensures RankedAt(rankings, i.source.value, i.position - 1, x) && x in s.inputs
    ensures s.inputs[x].team == Some(Qualified(s.inputs, i, rankings).value)
  {
    x := DetermineTeamId(i.source.value, i.position, rankings).value;
  }

  /** Different seats are taken by different teams. */
  lemma {:induction false} SeatsTaken(s: State, i: Input, j: Input, rankings: Rankings)
    requires RankedOnce(rankings) && OneInputPerTeam(s, rankings)
    requires i.source.Some? && i.position >= 1 && Qualified(s.inputs, i, rankings).Ok?
    requires j.source.Some? && j.position >= 1 && Qualified(s.inputs, j, rankings).Ok?
    requires i.source != j.source || i.position != j.position
    ensures Qualified(s.inputs, i, rankings).value.id != Qualified(s.inputs, j, rankings).value.id
  {
    var x := QualifiedFrom(s, i, rankings);
    var y := QualifiedFrom(s, j, rankings);
    assert x != y;
  }

  /** An activation gives no team two of the inputs it fills. */
  lemma {:induction false} NoTeamAdvancesTwice(
      stages: seq<StageRow>, s: State, row: StageRow, rankings: Rankings, after: State, x: InputId, y: InputId)
    requires Stored(stages, s) && Activated(stages, s, NextStage, rankings) == Ok(after)
    requires Some(row) == RowById(stages, ChosenStage(stages, s, NextStage).value)
    requires ProperPositions(s) && DistinctSeats(s, row.items) && RankedOnce(rankings) && OneInputPerTeam(s, rankings)
    requires OpenIn(s, row.items, x) && OpenIn(s, row.items, y) && x != y
    ensures x in after.inputs && y in after.inputs
    ensures after.inputs[x].team.Some? && after.inputs[y].team.Some?
    ensures after.inputs[x].team.value.id != after.inputs[y].team.value.id
  {
    ActivationFills(stages, s, row, rankings, after, x);
    ActivationFills(stages, s, row, rankings, after, y);
    SeatsTaken(s, s.inputs[x], s.inputs[y], rankings);
  }

  // ----- There and back -----

  function MatchesOfRows(items: seq<ItemRow>): set<MatchId> {
    if items == [] then {} else MatchesOfRows(items[..|items| - 1]) + items[|items| - 1].matches
  }

  lemma {:induction false} VacateAppend(inputs: map<InputId, Input>, a: seq<InputId>, b: seq<InputId>)
    ensures Vacate(Vacate(inputs, a), b) == Vacate(inputs, a + b)
  {
    VacateKeeps(inputs, a);
    VacateKeeps(Vacate(inputs, a), b);
    VacateKeeps(inputs, a + b);
    forall y | y in inputs
      ensures Vacate(Vacate(inputs, a), b)[y] == Vacate(inputs, a + b)[y]
    {
      assert y in a + b <==> y in a || y in b;
    }
  }

  lemma {:induction false} DeactivationIs(s: State, items: seq<ItemRow>)
    ensures DeactivateItems(s, items)
         == State(s.active, Vacate(s.inputs, InputsOf(items)), ClearScores(s.matches, MatchesOfRows(items)))
  {
    if items == [] {
      assert ClearScores(s.matches, {}) == s.matches;
    } else {
      var k := |items| - 1;
      DeactivationIs(s, items[..k]);
      VacateAppend(s.inputs, InputsOf(items[..k]), items[k].inputs);
      assert ClearScores(ClearScores(s.matches, MatchesOfRows(items[..k])), items[k].matches)
          == ClearScores(s.matches, MatchesOfRows(items));
    }
  }

  ghost predicate HasMatch(items: seq<ItemRow>, id: MatchId) { exists item :: item in items && id in item.matches }

  lemma {:induction false} MatchesOfRowsIff(items: seq<ItemRow>, id: MatchId)
    ensures id in MatchesOfRows(items) <==> HasMatch(items, id)
  {
    if items != [] {
      var k := |items| - 1;
      assert items == items[..k] + [items[k]];
      MatchesOfRowsIff(items[..k], id);
      assert forall item :: item in items <==> item in items[..k] || item == items[k];
    }
  }

  /** A deactivation makes the score of every match of the stage 0:0 and takes the team from every input
      of it that waits for an earlier stage; everything else stays. */
  lemma {:induction false} DeactivationClears(s: State, items: seq<ItemRow>)
    ensures var r := DeactivateItems(s, items);
      && r.active == s.active && r.matches.Keys == s.matches.Keys && r.inputs.Keys == s.inputs.Keys
      && (forall id :: id in s.matches ==>
            r.matches[id] == if HasMatch(items, id) then s.matches[id].(score1 := 0, score2 := 0) else s.matches[id])
      && (forall y :: y in s.inputs ==>
            r.inputs[y] == if IsListed(items, y) && s.inputs[y].source.Some? then s.inputs[y].(team := None)
                           else s.inputs[y])
  {
    DeactivationIs(s, items);
    VacateKeeps(s.inputs, InputsOf(items));
    forall id
      ensures id in MatchesOfRows(items) <==> HasMatch(items, id)
    {
      MatchesOfRowsIff(items, id);
    }
    forall y
      ensures y in InputsOf(items) <==> IsListed(items, y)
    {
      InputsOfIff(items, y);
    }
  }

  /** The inputs of the stage that wait for an earlier one have no team yet. */
  ghost predicate StillOpen(s: State, items: seq<ItemRow>) {
    forall x :: x in InputsOf(items) && x in s.inputs && s.inputs[x].source.Some? ==> s.inputs[x].team.None?
  }

  lemma {:induction false} VacateUndoes(
      inputs: map<InputId, Input>, xs: seq<InputId>, us: seq<Update>)
    requires forall u :: u in us ==> u.input in xs && u.input in inputs && inputs[u.input].IsTentative()
    requires forall x :: x in xs && x in inputs && inputs[x].source.Some? ==> inputs[x].team.None?
    ensures Vacate(FillIn(inputs, us), xs) == inputs
  {
    FillInIs(inputs, us);
    VacateKeeps(FillIn(inputs, us), xs);
    forall y | y in inputs
      ensures Vacate(FillIn(inputs, us), xs)[y] == inputs[y]
    {
      if exists u :: u in us && u.input == y {
        var u :| u in us && u.input == y && FillIn(inputs, us)[y] == inputs[y].(team := Some(u.team));
      }
    }
  }

  ghost predicate UniqueStages(stages: seq<StageRow>) {
    forall r, q :: r in stages && q in stages && r.id == q.id ==> r == q
  }

  /** What going on does: the updates come from open inputs of the stage. */
  lemma {:induction false} GoingOn(
      stages: seq<StageRow>, s: State, rankings: Rankings, after: State, row: StageRow) returns (us: seq<Update>)
    requires Stored(stages, s) && Activated(stages, s, NextStage, rankings) == Ok(after)
    requires ChosenStage(stages, s, NextStage).Some?
    requires RowById(stages, ChosenStage(stages, s, NextStage).value) == Some(row)
    ensures after == s.(active := {row.id}, inputs := FillIn(s.inputs, us)) && Stored(stages, after)
    ensures forall u :: u in us ==>
              u.input in InputsOf(row.items) && u.input in s.inputs && s.inputs[u.input].IsTentative()
  {
    var xs := InputsOf(row.items);
    StoredInputs(stages, s, row.items);
    us := UpdatesOf(s.inputs, xs, rankings).value;
    UpdatesAre(s.inputs, xs, rankings);
    FillInIs(s.inputs, us);
  }

  lemma {:induction false} FindRow(stages: seq<StageRow>, row: StageRow)
    requires UniqueStages(stages) && row in stages
    ensures RowById(stages, row.id) == Some(row)
  {
  }

  lemma {:induction false} FindActive(stages: seq<StageRow>, s: State, row: StageRow)
    requires UniqueStages(stages) && row in stages && s.active == {row.id}
    ensures FirstActive(stages, s) == Some(row)
  {
  }

  /** What going back does. */
  lemma {:induction false} GoingBack(stages: seq<StageRow>, s: State, a: StageId, later: Rankings, row: StageRow)
    requires Stored(stages, s) && UniqueStages(stages) && row in stages && s.active == {row.id}
    requires ChosenStage(stages, s, PreviousStage) == Some(a)
    ensures Activated(stages, s, PreviousStage, later)
         == Ok(State({a}, Vacate(s.inputs, InputsOf(row.items)), ClearScores(s.matches, MatchesOfRows(row.items))))
  {
    FindActive(stages, s, row);
    DeactivationIs(s, row.items);
  }

  /** From one active stage and a next one whose inputs are still open, going on and back restores
      the active stage and every input; only the scores of the stage that was left are gone. */
  lemma {:induction false} ThereAndBack(
      stages: seq<StageRow>, s: State, a: StageId, rankings: Rankings, after: State, later: Rankings, row: StageRow)
    requires Stored(stages, s) && UniqueStages(stages) && OnlyActive(stages, s, a)
    requires Activated(stages, s, NextStage, rankings) == Ok(after)
    requires row in stages && Some(row.id) == ChosenStage(stages, s, NextStage) && StillOpen(s, row.items)
    ensures Stored(stages, after)
    ensures Activated(stages, after, PreviousStage, later)
         == Ok(s.(matches := ClearScores(s.matches, MatchesOfRows(row.items))))
  {
    FindRow(stages, row);
    var us := GoingOn(stages, s, rankings, after, row);
    NextIsSuccessor(stages, s, a, row.id);
    PreviousIsPredecessor(stages, after, a, row.id);
    GoingBack(stages, after, a, later, row);
    VacateUndoes(s.inputs, InputsOf(row.items), us);
  }

  // ----- Runs -----

  /** Activations, with any other edits of inputs and matches in between. */
  datatype Run =
    | Begin(state: State)
    | Activate(before: Run, direction: Direction, rankings: Rankings)
    | Edit(before: Run, inputs: map<InputId, Input>, matches: map<MatchId, Match>)

  ghost predicate Possible(stages: seq<StageRow>, run: Run) {
    match run
    case Begin(s) => |s.active| <= 1 && Stored(stages, s)
    case Activate(before, _, _) => Possible(stages, before) && Stored(stages, End(stages, before))
    case Edit(before, _, _) => Possible(stages, before) && Stored(stages, End(stages, run))
  }

  ghost function End(stages: seq<StageRow>, run: Run): State {
    match run
    case Begin(s) => s
    case Activate(before, direction, rankings) =>
      var s := End(stages, before);
      if Stored(stages, s) && Activated(stages, s, direction, rankings).Ok?
      then Activated(stages, s, direction, rankings).value else s
    case Edit(before, inputs, matches) => State(End(stages, before).active, inputs, matches)
  }

  lemma {:induction false} ActivatedIsOne(stages: seq<StageRow>, s: State, direction: Direction, rankings: Rankings)
    requires Stored(stages, s) && Activated(stages, s, direction, rankings).Ok?
    ensures var chosen := ChosenStage(stages, s, direction);
      chosen.Some? && HasStage(stages, chosen.value)
      && Activated(stages, s, direction, rankings).value.active == {chosen.value}
  {
  }

  /** No run ever has two active stages. */
  lemma {:induction false} AtMostOneActive(stages: seq<StageRow>, run: Run)
    requires Possible(stages, run)
    ensures |End(stages, run).active| <= 1
  {
    match run
    case Begin(s) =>
    case Activate(before, direction, rankings) =>
      AtMostOneActive(stages, before);
      var s := End(stages, before);
      if Activated(stages, s, direction, rankings).Ok? {
        ActivatedIsOne(stages, s, direction, rankings);
      }
    case Edit(before, _, _) =>
      AtMostOneActive(stages, before);
  }

  // ----- Positions -----

  function IdsOf(rows: seq<Row>): (r: seq<InputId>)
    ensures |r| == |rows| && forall i :: 0 <= i < |rows| ==> r[i] == rows[i].id
  {
    seq(|rows|, i requires 0 <= i < |rows| => rows[i].id)
  }

  lemma {:induction false} PositionNames(rankings: Rankings, item: StageItemId, p: int)
    requires item in rankings && 1 <= p
    ensures var x := DetermineTeamId(item, p, rankings);
      (x.Ok? <==> p <= |rankings[item]|) && (x.Ok? ==> x.value == rankings[item][p - 1])
  {
  }

  /** The standings list every input once. */
  lemma {:induction false} StandingsRankOnce(item: StageItem, rules: Rules)
    requires UsesOwnInputs(item) && DistinctInputs(item.inputs) && Known(Results(item, rules), item.inputs)
    ensures NoDuplicates(IdsOf(StandingsOf(Results(item, rules), item.inputs)))
  {
    StandingsAreStrict(item, rules);
  }

  lemma {:induction false} RankedHasResult(item: StageItem, rules: Rules, i: nat)
    requires UsesOwnInputs(item) && DistinctInputs(item.inputs) && Known(Results(item, rules), item.inputs)
    requires i < |IdsOf(StandingsOf(Results(item, rules), item.inputs))|
    ensures Has(Results(item, rules), IdsOf(StandingsOf(Results(item, rules), item.inputs))[i])
  {
    var t := Results(item, rules);
    var rows := StandingsOf(t, item.inputs);
    StandingsAreStrict(item, rules);
    MemberOfPermutation(rows, Standings.Rows(t, item.inputs), rows[i]);
    WhoIsListed(item, rules, 0);
    RowMembers(t, item.inputs, rows[i], rules.Initial());
  }

  /** Distinct positions of one stage item name distinct inputs of it. */
  lemma {:induction false} PositionsNameDistinctInputs(
      item: StageItem, rules: Rules, rankings: Rankings, p: int, q: int)
    requires UsesOwnInputs(item) && DistinctInputs(item.inputs) && Known(Results(item, rules), item.inputs)
    requires item.id in rankings && rankings[item.id] == IdsOf(StandingsOf(Results(item, rules), item.inputs))
    requires 1 <= p && 1 <= q && p != q
    ensures var x, y := DetermineTeamId(item.id, p, rankings), DetermineTeamId(item.id, q, rankings);
      x.Ok? && y.Ok? ==> x.value != y.value && Has(Results(item, rules), x.value)
  {
    PositionNames(rankings, item.id, p);
    PositionNames(rankings, item.id, q);
    StandingsRankOnce(item, rules);
    if p <= |rankings[item.id]| { RankedHasResult(item, rules, p - 1); }
  }

  ghost predicate HasResult(item: StageItem, rules: StageItemId -> Rules, x: InputId) {
    Has(Results(item, rules(item.id)), x)
  }

  /** So when the standings of all stage items are computed this way, and no input is in two of them,
      nothing is ranked twice. */
  lemma {:induction false} ComputedRankingsRankOnce(
      items: seq<StageItem>, rules: StageItemId -> Rules, rankings: Rankings)
    requires forall item :: item in items ==>
               && UsesOwnInputs(item) && DistinctInputs(item.inputs)
               && Known(Results(item, rules(item.id)), item.inputs)
    requires forall a, b, x ::
               a in items && b in items && HasResult(a, rules, x) && HasResult(b, rules, x) ==> a == b
    requires forall id :: id in rankings ==>
               exists item :: item in items && item.id == id
                 && rankings[id] == IdsOf(StandingsOf(Results(item, rules(id)), item.inputs))
    ensures RankedOnce(rankings)
  {
    forall id, i, id', i', x | RankedAt(rankings, id, i, x) && RankedAt(rankings, id', i', x)
      ensures id == id' && i == i'
    {
      var a :| a in items && a.id == id && rankings[id] == IdsOf(StandingsOf(Results(a, rules(id)), a.inputs));
      var b :| b in items && b.id == id' && rankings[id'] == IdsOf(StandingsOf(Results(b, rules(id')), b.inputs));
      RankedHasResult(a, rules(id), i);
      RankedHasResult(b, rules(id'), i');
      assert HasResult(a, rules, x) && HasResult(b, rules, x);
      StandingsRankOnce(a, rules(id));
    }
  }
}
