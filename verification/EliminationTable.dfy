/** The match table of a single elimination stage item: building the bracket and saving scores. */
module EliminationTable {
  import opened Models
  import opened Sorting
  import opened Elimination
  import opened EliminationItem

  // ----- How many rounds -----

  function Pow2(k: nat): nat { if k == 0 then 1 else 2 * Pow2(k - 1) }

  datatype BuildError = InvalidTeamCount

  /** A table lookup, as in the service. */
  function NumberOfRounds(teamCount: int): Result<nat, BuildError> {
    var lookup: map<int, nat> := map[2 := 1, 4 := 2, 8 := 3, 16 := 4, 32 := 5];
    if teamCount < 1 then Ok(0)
    else if teamCount !in lookup then Err(InvalidTeamCount)
    else Ok(lookup[teamCount])
  }

  /** The rounds of the table halve the inputs down to one match, for every accepted count. */
  lemma {:induction false} RoundsHalveInputs(teamCount: int)
    requires teamCount >= 1
    ensures NumberOfRounds(teamCount).Ok? <==> exists k :: 1 <= k <= 5 && teamCount == Pow2(k)
    ensures NumberOfRounds(teamCount).Ok? ==>
              NumberOfRounds(teamCount).value >= 1 && Pow2(NumberOfRounds(teamCount).value) == teamCount
  {
    assert Pow2(1) == 2 && Pow2(2) == 4;
    assert Pow2(3) == 8 && Pow2(4) == 16;
    assert Pow2(5) == 32;
    if NumberOfRounds(teamCount).Ok? {
      var rounds := NumberOfRounds(teamCount).value;
      assert 1 <= rounds <= 5 && teamCount == Pow2(rounds);
    } else {
      forall k | 1 <= k <= 5
        ensures teamCount != Pow2(k)
      {
        assert k == 1 || k == 2 || k == 3 || k == 4 || k == 5;
      }
    }
  }

  // ----- The matches to create -----

  function FirstRoundBody(inputs: seq<InputId>, i: nat, roundId: RoundId, t: Tournament): MatchBody
    requires 2 * i + 1 < |inputs|
  {
    MatchBody(roundId, Some(inputs[2 * i]), Some(inputs[2 * i + 1]), None, None, t.duration, t.margin)
  }

  method DetermineMatchesFirstRound(inputs: seq<InputId>, roundId: RoundId, t: Tournament)
      returns (suggestions: seq<MatchBody>)
    requires |inputs| % 2 == 0
    ensures 2 * |suggestions| == |inputs|
    ensures forall i :: 0 <= i < |suggestions| ==> suggestions[i] == FirstRoundBody(inputs, i, roundId, t)
  {
    suggestions := [];
    var i := 0;
    while i < |inputs|
      invariant i == 2 * |suggestions| && i <= |inputs|
      invariant forall k :: 0 <= k < |suggestions| ==> suggestions[k] == FirstRoundBody(inputs, k, roundId, t)
    {
      var first, second := inputs[i], inputs[i + 1];
      suggestions := suggestions
        + [MatchBody(roundId, Some(first), Some(second), None, None, t.duration, t.margin)];
      i := i + 2;
    }
  }

  function LaterRoundBody(prev: seq<MatchId>, i: nat, roundId: RoundId, t: Tournament): MatchBody
    requires 2 * i + 1 < |prev|
  {
    MatchBody(roundId, None, None, Some(prev[2 * i]), Some(prev[2 * i + 1]), t.duration, t.margin)
  }

  method DetermineMatchesSubsequentRound(prev: seq<MatchId>, roundId: RoundId, t: Tournament)
      returns (suggestions: seq<MatchBody>)
    requires |prev| % 2 == 0
    ensures 2 * |suggestions| == |prev|
    ensures forall i :: 0 <= i < |suggestions| ==> suggestions[i] == LaterRoundBody(prev, i, roundId, t)
  {
    suggestions := [];
    var i := 0;
    while i < |prev|
      invariant i == 2 * |suggestions| && i <= |prev|
      invariant forall k :: 0 <= k < |suggestions| ==> suggestions[k] == LaterRoundBody(prev, k, roundId, t)
    {
      var first, second := prev[i], prev[i + 1];
      suggestions := suggestions
        + [MatchBody(roundId, None, None, Some(first), Some(second), t.duration, t.margin)];
      i := i + 2;
    }
  }

  /** The row that is inserted for a new match. */
  function NewRow(id: MatchId, b: MatchBody): Match {
    Match(id, b.roundId, b.input1, b.input2, b.source1, b.source2, 0, 0, None, b.duration, b.margin, None, None)
  }

  // ----- The shape of a bracket -----

  /** The ids of the matches of every round, in creation order. */
  datatype RoundIds = RoundIds(id: RoundId, matches: seq<MatchId>)

  ghost predicate RoundsAscend(layout: seq<RoundIds>) {
    && (forall i :: 0 <= i < |layout| ==> layout[i].id > 0)
    && (forall i, j :: 0 <= i < j < |layout| ==> layout[i].id < layout[j].id)
  }

  /** The match at position `i` of round `r`. */
  ghost predicate BracketMatch(rows: Rows, layout: seq<RoundIds>, inputs: seq<InputId>, r: nat, i: nat)
    requires r < |layout| && i < |layout[r].matches|
  {
    var id := layout[r].matches[i];
    && id in rows && rows[id].id == id && rows[id].roundId == layout[r].id
    && if r == 0 then
         && 2 * i + 1 < |inputs|
         && rows[id].input1 == Some(inputs[2 * i]) && rows[id].input2 == Some(inputs[2 * i + 1])
         && rows[id].source1 == None && rows[id].source2 == None
       else
         && 2 * i + 1 < |layout[r - 1].matches|
         && rows[id].source1 == Some(layout[r - 1].matches[2 * i])
         && rows[id].source2 == Some(layout[r - 1].matches[2 * i + 1])
  }

  /** Positions in creation order. */
  predicate Earlier(r: nat, i: nat, s: nat, j: nat) { r < s || (r == s && i < j) }

  ghost predicate InLayout(layout: seq<RoundIds>, id: MatchId, r: nat) {
    r < |layout| && id in layout[r].matches
  }

  /** Every round has half as many matches as there are competitors. */
  ghost predicate RoundsHalve(layout: seq<RoundIds>, inputs: seq<InputId>, k: nat)
    requires k <= |layout|
  {
    forall r {:trigger Halves(layout, inputs, r)} :: 0 <= r < k ==> Halves(layout, inputs, r)
  }

  ghost predicate Halves(layout: seq<RoundIds>, inputs: seq<InputId>, r: nat)
    requires r < |layout|
  {
    2 * |layout[r].matches| == if r == 0 then |inputs| else |layout[r - 1].matches|
  }

  ghost predicate BracketMatches(rows: Rows, layout: seq<RoundIds>, inputs: seq<InputId>, k: nat)
    requires k <= |layout|
  {
    forall r, i {:trigger BracketMatch(rows, layout, inputs, r, i)} ::
      0 <= r < k && 0 <= i < |layout[r].matches| ==> BracketMatch(rows, layout, inputs, r, i)
  }

  ghost predicate IdsAscend(layout: seq<RoundIds>, k: nat)
    requires k <= |layout|
  {
    forall r, i, s, j {:trigger Earlier(r, i, s, j)} ::
      0 <= r < k && 0 <= s < k && 0 <= i < |layout[r].matches| && 0 <= j < |layout[s].matches| ==>
        Earlier(r, i, s, j) ==> layout[r].matches[i] < layout[s].matches[j]
  }

  ghost predicate AllListed(rows: Rows, layout: seq<RoundIds>, k: nat) {
    forall id :: id in rows ==> exists r: nat :: r < k && InLayout(layout, id, r)
  }

  /** The first `k` rounds are those of a bracket over `inputs`. */
  ghost predicate BracketUpTo(rows: Rows, layout: seq<RoundIds>, inputs: seq<InputId>, k: nat)
    requires k <= |layout|
  {
    && RoundsHalve(layout, inputs, k) && BracketMatches(rows, layout, inputs, k)
    && IdsAscend(layout, k) && AllListed(rows, layout, k)
  }

  /** A complete single elimination bracket: its last round is one match. */
  ghost predicate IsBracket(rows: Rows, layout: seq<RoundIds>, inputs: seq<InputId>) {
    && RoundsAscend(layout) && |layout| >= 1 && |layout[|layout| - 1].matches| == 1
    && BracketUpTo(rows, layout, inputs, |layout|)
  }

  // ----- The table -----

  /** Every match of the layout is stored. */
  ghost predicate AllIdsIn(rows: Rows, layout: seq<RoundIds>) {
    forall k, i :: 0 <= k < |layout| && 0 <= i < |layout[k].matches| ==> layout[k].matches[i] in rows
  }

  /** A read of the rounds: matches in creation order. */
  function ReadRounds(rows: Rows, layout: seq<RoundIds>): (r: seq<Round>)
    requires AllIdsIn(rows, layout)
    ensures |r| == |layout|
    ensures forall k :: 0 <= k < |layout| ==> r[k].id == layout[k].id && r[k].matches == ReadRound(rows, layout[k])
  {
    seq(|layout|, k requires 0 <= k < |layout| => Round(layout[k].id, false, ReadRound(rows, layout[k])))
  }

  function ReadRound(rows: Rows, round: RoundIds): (ms: seq<Match>)
    requires forall i :: 0 <= i < |round.matches| ==> round.matches[i] in rows
    ensures |ms| == |round.matches|
    ensures forall i :: 0 <= i < |ms| ==> ms[i] == rows[round.matches[i]]
  {
    seq(|round.matches|, i requires 0 <= i < |round.matches| => rows[round.matches[i]])
  }

  /** Bodies `from` to `to` of a round have been inserted, with consecutive ids. */
  ghost predicate Inserted(before: Rows, after: Rows, ids: seq<MatchId>, bodies: seq<MatchBody>, nextId: MatchId) {
    && |ids| <= |bodies|
    && (forall i :: 0 <= i < |ids| ==>
         ids[i] == nextId + i && ids[i] in after && after[ids[i]] == NewRow(ids[i], bodies[i]))
    && (forall id :: id in before ==> id in after && after[id] == before[id])
    && (forall id :: id in after ==> id in before || id in ids)
  }

  ghost predicate IdsBelow(rows: Rows, nextId: MatchId) {
    forall id :: id in rows ==> id < nextId
  }

  /** The layout lists every row in its round. */
  ghost predicate Lists(rows: Rows, layout: seq<RoundIds>) {
    && AllIdsIn(rows, layout)
    && SnapshotOf(ReadRounds(rows, layout), rows) && StrictlySorted(RoundById, ReadRounds(rows, layout))
  }

  class MatchTable {
    var matches: Rows
    var layout: seq<RoundIds>
    var nextId: MatchId

    method CreateMatches(bodies: seq<MatchBody>) returns (ids: seq<MatchId>)
      requires IdsBelow(matches, nextId)
      modifies `matches, `nextId
      ensures |ids| == |bodies| && Inserted(old(matches), matches, ids, bodies, old(nextId))
      ensures IdsBelow(matches, nextId) && nextId == old(nextId) + |bodies|
    {
      ids := [];
      for i := 0 to |bodies|
        invariant |ids| == i && nextId == old(nextId) + i
        invariant Inserted(old(matches), matches, ids, bodies, old(nextId))
        invariant IdsBelow(matches, nextId)
      {
        matches := matches[nextId := NewRow(nextId, bodies[i])];
        ids := ids + [nextId];
        nextId := nextId + 1;
      }
    }

    /** Builds the bracket of a new stage item, whose rounds have been created. */
    method BuildSingleElimination(inputs: seq<InputId>, t: Tournament)
      requires RoundsAscend(layout) && |layout| >= 1 && |inputs| == Pow2(|layout|)
      requires matches == map[]
      modifies this
      ensures IsBracket(matches, layout, inputs) && Fresh(matches, layout, |layout|) && Unplanned(matches, t)
      ensures |layout| == |old(layout)|
      ensures forall r :: 0 <= r < |layout| ==> layout[r].id == old(layout)[r].id
    {
      var k := 0;
      while k < |layout|
        invariant 0 <= k <= |layout| == |old(layout)|
        invariant forall r :: 0 <= r < |layout| ==> layout[r].id == old(layout)[r].id
        invariant BracketUpTo(matches, layout, inputs, k) && IdsBelow(matches, nextId)
        invariant k > 0 ==> |layout[k - 1].matches| == Pow2(|layout| - k)
        invariant Fresh(matches, layout, k) && Unplanned(matches, t)
      {
        BuildRound(k, inputs, t);
        k := k + 1;
      }
    }

    method BuildRound(k: nat, inputs: seq<InputId>, t: Tournament)
      requires k < |layout| && BracketUpTo(matches, layout, inputs, k) && IdsBelow(matches, nextId)
      requires if k == 0 then |inputs| == Pow2(|layout|) else |layout[k - 1].matches| == Pow2(|layout| - k)
      requires Fresh(matches, layout, k) && Unplanned(matches, t)
      modifies this
      ensures |layout| == |old(layout)| && forall r :: 0 <= r < |layout| ==> layout[r].id == old(layout)[r].id
      ensures BracketUpTo(matches, layout, inputs, k + 1) && IdsBelow(matches, nextId)
      ensures |layout[k].matches| == Pow2(|layout| - k - 1)
      ensures Fresh(matches, layout, k + 1) && Unplanned(matches, t)
    {
      var bodies;
      if k == 0 {
        bodies := DetermineMatchesFirstRound(inputs, layout[0].id, t);
      } else {
        bodies := DetermineMatchesSubsequentRound(layout[k - 1].matches, layout[k].id, t);
      }
      ghost var before, layoutBefore, idBefore := matches, layout, nextId;
      var ids := CreateMatches(bodies);
      layout := layout[k := RoundIds(layout[k].id, ids)];
      RoundAdded(before, matches, layoutBefore, layout, inputs, k, ids, bodies, idBefore, t);
      UnplannedAdded(before, matches, layoutBefore, layout, inputs, k, ids, bodies, idBefore, t);
    }

    /** Writes the updated inputs, one row at a time. */
    method WriteUpdates(updates: Affected)
      requires forall id :: id in updates ==> updates[id].id == id
      modifies `matches
      ensures matches == WriteAll(old(matches), updates)
    {
      var left := updates.Keys;
      while left != {}
        invariant left <= updates.Keys && matches.Keys == old(matches).Keys
        invariant forall id :: id in matches ==>
                    matches[id] == (if id in updates && id !in left then WriteAll(old(matches), updates)[id]
                                    else old(matches)[id])
        decreases left
      {
        var id :| id in left;
        matches := SetInputIds(matches, updates[id]);
        left := left - {id};
      }
    }

    /** Saves the score of a match of a bracket and moves winners on. */
    method SaveScore(x: MatchId, score1: nat, score2: nat, ghost inputs: seq<InputId>) returns (found: bool)
      requires IsBracket(matches, layout, inputs) && Consistent(matches)
      modifies `matches
      ensures found == (x in old(matches)) && (!found ==> matches == old(matches))
      ensures found ==> OnlyScored(old(matches), matches, x, score1, score2) && WinnersStored(matches)
      ensures found ==>
                && WellFormed(WithScore(old(matches), x, score1, score2))
                && matches == Recompute(WithScore(old(matches), x, score1, score2))
      ensures IsBracket(matches, layout, inputs) && Consistent(matches)
    {
      if x !in matches {
        return false;
      }
      SavedBracket(matches, layout, inputs, x, score1, score2);
      matches := WithScore(matches, x, score1, score2);
      var rounds := ReadRounds(matches, layout);
      var updates := GetInputsToUpdate(matches[x].roundId, rounds, Some({x}));
      WriteUpdates(updates);
      found := true;
    }

    /** Runs a pass from every round, as after an edit of the stage item: nothing changes. */
    method UpdateCompleteStageItem()
      requires Lists(matches, layout) && forall id :: id in matches ==> matches[id].id == id
      modifies `matches
      ensures matches == old(matches)
    {
      var rounds := ReadRounds(matches, layout);
      SnapshotRewrites(matches, rounds);
      for k := 0 to |rounds|
        invariant matches == CompletePass(old(matches), rounds, k)
      {
        assert RewritesAt(old(matches), rounds, k);
        var updates := GetInputsToUpdate(rounds[k].id, rounds, None);
        WriteUpdates(updates);
      }
      CompletePassIsIdentity(old(matches), rounds);
    }
  }

  /** Nobody has scored, and no winner is known. */
  ghost predicate Fresh(rows: Rows, layout: seq<RoundIds>, k: nat)
    requires k <= |layout|
  {
    && (forall id :: id in rows ==> !rows[id].IsScored())
    && (forall r, i :: 1 <= r < k && 0 <= i < |layout[r].matches| ==> NoInputs(rows, layout[r].matches[i]))
  }

  /** No time is planned yet, and every match has the length that the tournament sets. */
  ghost predicate Unplanned(rows: Rows, t: Tournament) {
    forall id :: id in rows ==>
      && rows[id].start == None && rows[id].duration == t.duration && rows[id].margin == t.margin
      && rows[id].customDuration == None && rows[id].customMargin == None
  }

  ghost predicate NoInputs(rows: Rows, id: MatchId) {
    id in rows && rows[id].input1 == None && rows[id].input2 == None
  }

  /** The bodies are those of round `k`. */
  ghost predicate BodiesOfRound(
      bodies: seq<MatchBody>, layout: seq<RoundIds>, inputs: seq<InputId>, k: nat, t: Tournament)
    requires k < |layout|
  {
    if k == 0 then
      && 2 * |bodies| == |inputs|
      && forall i :: 0 <= i < |bodies| ==> bodies[i] == FirstRoundBody(inputs, i, layout[0].id, t)
    else
      && 2 * |bodies| == |layout[k - 1].matches|
      && forall i :: 0 <= i < |bodies| ==> bodies[i] == LaterRoundBody(layout[k - 1].matches, i, layout[k].id, t)
  }

  /** Round `k` has been inserted. */
  ghost predicate RoundInserted(
      before: Rows, after: Rows, layout: seq<RoundIds>, layout': seq<RoundIds>, inputs: seq<InputId>,
      k: nat, ids: seq<MatchId>, bodies: seq<MatchBody>, nextId: MatchId, t: Tournament)
  {
    && k < |layout| && layout' == layout[k := RoundIds(layout[k].id, ids)]
    && IdsBelow(before, nextId)
    && |ids| == |bodies| && Inserted(before, after, ids, bodies, nextId)
    && BodiesOfRound(bodies, layout, inputs, k, t)
  }

  lemma {:induction false} MatchAdded(
      before: Rows, after: Rows, layout: seq<RoundIds>, layout': seq<RoundIds>, inputs: seq<InputId>,
      k: nat, ids: seq<MatchId>, bodies: seq<MatchBody>, nextId: MatchId, t: Tournament, r: nat, i: nat)
    requires RoundInserted(before, after, layout, layout', inputs, k, ids, bodies, nextId, t)
    requires r <= k && i < |layout'[r].matches|
    requires r < k ==> BracketMatch(before, layout, inputs, r, i)
    ensures BracketMatch(after, layout', inputs, r, i)
    ensures if r < k then layout'[r].matches[i] < nextId else layout'[r].matches[i] == nextId + i
    ensures r == k ==> k > 0 ==> NoInputs(after, layout'[r].matches[i])
  {
  }

  lemma {:induction false} ListedAdded(
      before: Rows, after: Rows, layout: seq<RoundIds>, layout': seq<RoundIds>, inputs: seq<InputId>,
      k: nat, ids: seq<MatchId>, bodies: seq<MatchBody>, nextId: MatchId, t: Tournament)
    requires RoundInserted(before, after, layout, layout', inputs, k, ids, bodies, nextId, t)
    requires AllListed(before, layout, k)
    ensures AllListed(after, layout', k + 1)
  {
    forall id | id in after
      ensures exists r: nat :: r < k + 1 && InLayout(layout', id, r)
    {
      if id in before {
        var r: nat :| r < k && InLayout(layout, id, r);
        assert InLayout(layout', id, r);
      } else {
        assert InLayout(layout', id, k);
      }
    }
  }

  lemma {:induction false} HalvesAdded(
      layout: seq<RoundIds>, layout': seq<RoundIds>, inputs: seq<InputId>,
      k: nat, ids: seq<MatchId>, bodies: seq<MatchBody>, t: Tournament)
    requires k < |layout| && layout' == layout[k := RoundIds(layout[k].id, ids)] && |ids| == |bodies|
    requires BodiesOfRound(bodies, layout, inputs, k, t) && RoundsHalve(layout, inputs, k)
    ensures RoundsHalve(layout', inputs, k + 1)
  {
    forall r | 0 <= r < k + 1
      ensures Halves(layout', inputs, r)
    {
      assert r < k ==> Halves(layout, inputs, r);
    }
  }

  lemma {:induction false} IdsAscendAdded(
      before: Rows, layout: seq<RoundIds>, layout': seq<RoundIds>, inputs: seq<InputId>,
      k: nat, ids: seq<MatchId>, nextId: MatchId)
    requires k < |layout| && layout' == layout[k := RoundIds(layout[k].id, ids)]
    requires BracketMatches(before, layout, inputs, k) && IdsAscend(layout, k) && IdsBelow(before, nextId)
    requires forall i :: 0 <= i < |ids| ==> ids[i] == nextId + i
    ensures IdsAscend(layout', k + 1)
  {
    forall r, i, s, j | 0 <= r < k + 1 && 0 <= s < k + 1
        && 0 <= i < |layout'[r].matches| && 0 <= j < |layout'[s].matches|
      ensures Earlier(r, i, s, j) ==> layout'[r].matches[i] < layout'[s].matches[j]
    {
      if r < k { assert BracketMatch(before, layout, inputs, r, i); }
      if s < k { assert Earlier(r, i, s, j) ==> r < k && layout[r].matches[i] < layout[s].matches[j]; }
    }
  }

  lemma {:induction false} FreshAdded(
      before: Rows, after: Rows, layout: seq<RoundIds>, layout': seq<RoundIds>, inputs: seq<InputId>,
      k: nat, ids: seq<MatchId>, bodies: seq<MatchBody>, nextId: MatchId, t: Tournament)
    requires RoundInserted(before, after, layout, layout', inputs, k, ids, bodies, nextId, t)
    requires Fresh(before, layout, k)
    ensures Fresh(after, layout', k + 1)
  {
    forall r, i | 1 <= r < k + 1 && 0 <= i < |layout'[r].matches|
      ensures NoInputs(after, layout'[r].matches[i])
    {
      assert r < k ==> NoInputs(before, layout[r].matches[i]);
      if r == k { MatchAdded(before, after, layout, layout', inputs, k, ids, bodies, nextId, t, r, i); }
    }
  }

  lemma {:induction false} UnplannedAdded(
      before: Rows, after: Rows, layout: seq<RoundIds>, layout': seq<RoundIds>, inputs: seq<InputId>,
      k: nat, ids: seq<MatchId>, bodies: seq<MatchBody>, nextId: MatchId, t: Tournament)
    requires RoundInserted(before, after, layout, layout', inputs, k, ids, bodies, nextId, t)
    requires Unplanned(before, t)
    ensures Unplanned(after, t)
  {
    forall id | id in after && id !in before
      ensures exists i :: 0 <= i < |ids| && ids[i] == id && after[id] == NewRow(id, bodies[i])
    {
      var i :| 0 <= i < |ids| && ids[i] == id;
    }
  }

  lemma {:induction false} RoundAdded(
      before: Rows, after: Rows, layout: seq<RoundIds>, layout': seq<RoundIds>, inputs: seq<InputId>,
      k: nat, ids: seq<MatchId>, bodies: seq<MatchBody>, nextId: MatchId, t: Tournament)
    requires RoundInserted(before, after, layout, layout', inputs, k, ids, bodies, nextId, t)
    requires BracketUpTo(before, layout, inputs, k) && Fresh(before, layout, k)
    ensures BracketUpTo(after, layout', inputs, k + 1) && Fresh(after, layout', k + 1)
  {
    forall r, i | 0 <= r < k + 1 && 0 <= i < |layout'[r].matches|
      ensures BracketMatch(after, layout', inputs, r, i)
    {
      assert r < k ==> BracketMatch(before, layout, inputs, r, i);
      MatchAdded(before, after, layout, layout', inputs, k, ids, bodies, nextId, t, r, i);
    }
    ListedAdded(before, after, layout, layout', inputs, k, ids, bodies, nextId, t);
    HalvesAdded(layout, layout', inputs, k, ids, bodies, t);
    IdsAscendAdded(before, layout, layout', inputs, k, ids, nextId);
    FreshAdded(before, after, layout, layout', inputs, k, ids, bodies, nextId, t);
  }

  // ----- Brackets are trees -----

  lemma {:induction false} BracketWellFormed(rows: Rows, layout: seq<RoundIds>, inputs: seq<InputId>)
    requires IsBracket(rows, layout, inputs)
    ensures WellFormed(rows)
  {
    forall id | id in rows
      ensures rows[id].id == id && rows[id].roundId > 0 && SourcesEarlier(rows, id)
    {
      var r: nat :| r < |layout| && InLayout(layout, id, r);
      var i :| 0 <= i < |layout[r].matches| && layout[r].matches[i] == id;
      assert BracketMatch(rows, layout, inputs, r, i);
      if r > 0 {
        assert BracketMatch(rows, layout, inputs, r - 1, 2 * i);
        assert BracketMatch(rows, layout, inputs, r - 1, 2 * i + 1);
      }
    }
  }

  /** A new bracket is consistent: no winners are known and none are stored. */
  lemma {:induction false} NewBracketConsistent(rows: Rows, layout: seq<RoundIds>, inputs: seq<InputId>)
    requires IsBracket(rows, layout, inputs) && Fresh(rows, layout, |layout|)
    ensures Consistent(rows)
  {
    BracketWellFormed(rows, layout, inputs);
    forall id | id in rows
      ensures ConsistentAt(rows, id)
    {
      assert SourcesEarlier(rows, id);
      NewMatchConsistent(rows, layout, inputs, id);
    }
  }

  lemma {:induction false} NewMatchConsistent(
      rows: Rows, layout: seq<RoundIds>, inputs: seq<InputId>, id: MatchId)
    requires IsBracket(rows, layout, inputs) && Fresh(rows, layout, |layout|)
    requires id in rows && SourcesEarlier(rows, id)
    ensures ConsistentAt(rows, id)
  {
    var r: nat :| r < |layout| && InLayout(layout, id, r);
    var i :| 0 <= i < |layout[r].matches| && layout[r].matches[i] == id;
    assert BracketMatch(rows, layout, inputs, r, i);
    assert r > 0 ==> NoInputs(rows, layout[r].matches[i]);
  }

  lemma {:induction false} BracketRound(rows: Rows, layout: seq<RoundIds>, inputs: seq<InputId>, k: nat)
    requires IsBracket(rows, layout, inputs) && k < |layout|
    ensures forall i :: 0 <= i < |layout[k].matches| ==> layout[k].matches[i] in rows
    ensures RowsOfRound(rows, layout[k].id, ReadRound(rows, layout[k]))
  {
    forall i | 0 <= i < |layout[k].matches|
      ensures layout[k].matches[i] in rows && rows[layout[k].matches[i]].id == layout[k].matches[i]
      ensures rows[layout[k].matches[i]].roundId == layout[k].id
    {
      assert BracketMatch(rows, layout, inputs, k, i);
    }
    var ms := ReadRound(rows, layout[k]);
    forall i, j | 0 <= i < j < |ms|
      ensures ms[i].id != ms[j].id
    {
      assert Earlier(k, i, k, j);
    }
    forall m | m in ms
      ensures m.id in rows && rows[m.id] == m && m.roundId == layout[k].id
    {
      var i :| 0 <= i < |ms| && ms[i] == m;
    }
  }

  lemma {:induction false} BracketAllIds(rows: Rows, layout: seq<RoundIds>, inputs: seq<InputId>)
    requires IsBracket(rows, layout, inputs)
    ensures AllIdsIn(rows, layout)
  {
    forall k, i | 0 <= k < |layout| && 0 <= i < |layout[k].matches|
      ensures layout[k].matches[i] in rows
    {
      BracketRound(rows, layout, inputs, k);
    }
  }

  /** The rounds of a bracket, which can all be read. */
  ghost function BracketRounds(rows: Rows, layout: seq<RoundIds>, inputs: seq<InputId>): seq<Round>
    requires IsBracket(rows, layout, inputs)
  {
    BracketAllIds(rows, layout, inputs);
    ReadRounds(rows, layout)
  }

  lemma {:induction false} BracketRowListed(rows: Rows, layout: seq<RoundIds>, inputs: seq<InputId>, id: MatchId)
    requires IsBracket(rows, layout, inputs) && id in rows
    requires AllIdsIn(rows, layout)
    ensures IsListed(ReadRounds(rows, layout), rows[id])
  {
    var rounds := ReadRounds(rows, layout);
    var r: nat :| r < |layout| && InLayout(layout, id, r);
    var i :| 0 <= i < |layout[r].matches| && layout[r].matches[i] == id;
    BracketRound(rows, layout, inputs, r);
    assert rounds[r].matches[i] == rows[id] && rounds[r] in rounds;
  }

  /** Reading the rounds of a bracket gives all its rows. */
  lemma {:induction false} BracketLists(rows: Rows, layout: seq<RoundIds>, inputs: seq<InputId>)
    requires IsBracket(rows, layout, inputs)
    ensures Lists(rows, layout)
  {
    BracketAllIds(rows, layout, inputs);
    var rounds := ReadRounds(rows, layout);
    forall r | r in rounds
      ensures RowsOfRound(rows, r.id, r.matches)
    {
      var k :| 0 <= k < |rounds| && rounds[k] == r;
      BracketRound(rows, layout, inputs, k);
    }
    forall id | id in rows
      ensures IsListed(rounds, rows[id])
    {
      BracketRowListed(rows, layout, inputs, id);
    }
  }

  lemma {:induction false} BracketKept(a: Rows, b: Rows, layout: seq<RoundIds>, inputs: seq<InputId>)
    requires IsBracket(a, layout, inputs) && SameMatches(a, b)
    ensures IsBracket(b, layout, inputs)
  {
    forall r, i | 0 <= r < |layout| && 0 <= i < |layout[r].matches|
      ensures BracketMatch(b, layout, inputs, r, i)
    {
      assert BracketMatch(a, layout, inputs, r, i);
    }
  }

  /** What saving a score does to a bracket. */
  lemma {:induction false} SavedBracket(
      rows: Rows, layout: seq<RoundIds>, inputs: seq<InputId>, x: MatchId, score1: nat, score2: nat)
    requires IsBracket(rows, layout, inputs) && Consistent(rows) && x in rows
    ensures var scored := WithScore(rows, x, score1, score2);
      && WellFormed(scored) && Lists(scored, layout)
      && var rounds := ReadRounds(scored, layout);
      && HasRound(rounds, rows[x].roundId)
      && var updates := InputsToUpdate(rows[x].roundId, rounds, Some({x}));
      && (forall id :: id in updates ==> updates[id].id == id)
      && WriteAll(scored, updates) == Recompute(scored)
      && OnlyScored(rows, WriteAll(scored, updates), x, score1, score2) && WinnersStored(WriteAll(scored, updates))
      && Consistent(WriteAll(scored, updates)) && IsBracket(WriteAll(scored, updates), layout, inputs)
  {
    var scored := WithScore(rows, x, score1, score2);
    BracketWellFormed(rows, layout, inputs);
    BracketKept(rows, scored, layout, inputs);
    BracketLists(scored, layout, inputs);
    var rounds := ReadRounds(scored, layout);
    SaveIsRecompute(rows, rounds, x, score1, score2);
    BracketKept(scored, SaveStep(rows, rounds, x, score1, score2), layout, inputs);
    TrustIsConsistency(rows, rows.Keys);
    ScoredTrust(rows, rows.Keys, x, score1, score2);
    PassFromMatch(scored, rounds, rows.Keys, x);
  }
}
