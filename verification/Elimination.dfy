/** Winners move through a single elimination tree: the inputs stored with each match are a cache
    of the winners of its source matches. */
module Elimination {
  import opened Models
  import opened Sorting

  type Rows = map<MatchId, Match>

  // ----- The tree and its evaluation -----

  /** A source is a match of an earlier round. */
  ghost predicate EarlierSource(rows: Rows, m: Match, source: Option<MatchId>) {
    source.Some? ==> source.value in rows && rows[source.value].roundId < m.roundId
  }

  ghost predicate SourcesEarlier(rows: Rows, id: MatchId)
    requires id in rows
  {
    EarlierSource(rows, rows[id], rows[id].source1) && EarlierSource(rows, rows[id], rows[id].source2)
  }

  ghost predicate WellFormed(rows: Rows) {
    && (forall id :: id in rows ==> rows[id].id == id && rows[id].roundId > 0)
    && (forall id {:trigger SourcesEarlier(rows, id)} :: id in rows ==> SourcesEarlier(rows, id))
  }

  /** Who plays in a match, evaluated from the leaves of the tree and the scores. */
  ghost function Eval(rows: Rows, id: MatchId, first: bool): Option<InputId>
    requires WellFormed(rows) && id in rows
    decreases rows[id].roundId, 0
  {
    var m := rows[id];
    var source := if first then m.source1 else m.source2;
    assert SourcesEarlier(rows, id);
    if source.Some? then EvalWinner(rows, source.value)
    else if first then m.input1 else m.input2
  }

  ghost function EvalWinner(rows: Rows, id: MatchId): Option<InputId>
    requires WellFormed(rows) && id in rows
    decreases rows[id].roundId, 1
  {
    if rows[id].score1 > rows[id].score2 then Eval(rows, id, true)
    else if rows[id].score1 < rows[id].score2 then Eval(rows, id, false)
    else None
  }

  /** Evaluating the whole tree again. */
  ghost function Recompute(rows: Rows): Rows
    requires WellFormed(rows)
  {
    map id | id in rows :: rows[id].WithInputs(Eval(rows, id, true), Eval(rows, id, false))
  }

  ghost predicate Agrees(rows: Rows, input: Option<InputId>, source: Option<MatchId>) {
    source.Some? ==> source.value in rows && input == rows[source.value].Winner()
  }

  ghost predicate ConsistentAt(rows: Rows, id: MatchId)
    requires id in rows
  {
    && Agrees(rows, rows[id].input1, rows[id].source1)
    && Agrees(rows, rows[id].input2, rows[id].source2)
  }

  /** The stored inputs of every match are the winners of its sources. */
  ghost predicate Consistent(rows: Rows) {
    forall id {:trigger ConsistentAt(rows, id)} :: id in rows ==> ConsistentAt(rows, id)
  }

  /** Same matches, apart from inputs that come from a source. */
  ghost predicate SameTree(a: Rows, b: Rows) {
    && a.Keys == b.Keys
    && forall id :: id in a ==>
         && b[id] == a[id].WithInputs(b[id].input1, b[id].input2)
         && (a[id].source1.None? ==> a[id].input1 == b[id].input1)
         && (a[id].source2.None? ==> a[id].input2 == b[id].input2)
  }

  lemma {:induction false} SameTreeWellFormed(a: Rows, b: Rows)
    requires SameTree(a, b) && WellFormed(a)
    ensures WellFormed(b)
  {
    assert forall s :: s in a ==> b[s].roundId == a[s].roundId && b[s].id == a[s].id;
    forall id | id in b
      ensures b[id].id == id && b[id].roundId > 0 && SourcesEarlier(b, id)
    {
      assert SourcesEarlier(a, id);
    }
  }

  /** In a consistent tree, what is stored is what the evaluation gives. */
  lemma {:induction false} StoredIsEvaluated(a: Rows, b: Rows, id: MatchId)
    requires WellFormed(a) && SameTree(a, b) && Consistent(b) && id in a
    ensures b[id].input1 == Eval(a, id, true) && b[id].input2 == Eval(a, id, false)
    ensures b[id].Winner() == EvalWinner(a, id)
    decreases a[id].roundId
  {
    assert ConsistentAt(b, id);
    assert SourcesEarlier(a, id);
    if a[id].source1.Some? { StoredIsEvaluated(a, b, a[id].source1.value); }
    if a[id].source2.Some? { StoredIsEvaluated(a, b, a[id].source2.value); }
  }

  /** There is one consistent way to fill in a tree: the recomputed one. */
  lemma {:induction false} ConsistentIsRecomputed(a: Rows, b: Rows)
    requires WellFormed(a) && SameTree(a, b) && Consistent(b)
    ensures b == Recompute(a)
  {
    forall id | id in a
      ensures b[id] == Recompute(a)[id]
    {
      StoredIsEvaluated(a, b, id);
    }
  }

  // ----- The incremental pass -----

  ghost predicate DistinctIds(ms: seq<Match>) {
    forall i, j :: 0 <= i < j < |ms| ==> ms[i].id != ms[j].id
  }

  ghost predicate RowsOfRound(rows: Rows, bound: RoundId, ms: seq<Match>) {
    && (forall m :: m in ms ==> m.id in rows && rows[m.id] == m && m.roundId == bound)
    && DistinctIds(ms)
  }

  ghost predicate IsListed(rounds: seq<Round>, m: Match) {
    exists r :: r in rounds && r.id == m.roundId && m in r.matches
  }

  /** The rounds of the stage item as read from the database, in any order. */
  ghost predicate SnapshotOf(rounds: seq<Round>, rows: Rows) {
    && (forall i, j :: 0 <= i < j < |rounds| ==> rounds[i].id != rounds[j].id)
    && (forall r :: r in rounds ==> RowsOfRound(rows, r.id, r.matches))
    && (forall id {:trigger IsListed(rounds, rows[id])} :: id in rows ==> IsListed(rounds, rows[id]))
  }

  type Affected = map<MatchId, Match>

  function NewInput(affected: Affected, input: Option<InputId>, source: Option<MatchId>): Option<InputId> {
    if source.Some? && source.value in affected then affected[source.value].Winner() else input
  }

  /** One subsequent match: it becomes affected only if one of its inputs changes. */
  function Step(affected: Affected, m: Match): Affected {
    var a, b := NewInput(affected, m.input1, m.source1), NewInput(affected, m.input2, m.source2);
    if m.input1 != a || m.input2 != b then affected[m.id := m.WithInputs(a, b)] else affected
  }

  function Pass(affected: Affected, ms: seq<Match>): Affected {
    if ms == [] then affected else Step(Pass(affected, ms[..|ms| - 1]), ms[|ms| - 1])
  }

  function RoundsAfter(rounds: seq<Round>, id: RoundId): (r: seq<Round>)
    ensures forall x :: x in r <==> x in rounds && x.id > id
  {
    if rounds == [] then []
    else if rounds[0].id > id then [rounds[0]] + RoundsAfter(rounds[1..], id)
    else RoundsAfter(rounds[1..], id)
  }

  function SubsequentRounds(rounds: seq<Round>, id: RoundId): seq<Round> {
    Sort(RoundById, RoundsAfter(rounds, id))
  }

  ghost predicate HasRound(rounds: seq<Round>, id: RoundId) {
    exists r :: r in rounds && r.id == id
  }

  function RoundWithId(rounds: seq<Round>, id: RoundId): (r: Round)
    requires HasRound(rounds, id)
    ensures r in rounds && r.id == id
  {
    if rounds[0].id == id then rounds[0] else RoundWithId(rounds[1..], id)
  }

  /** The matches of the round that the pass starts from. */
  function Start(ms: seq<Match>, chosen: Option<set<MatchId>>): Affected {
    if ms == [] then map[]
    else
      var m := ms[|ms| - 1];
      var rest := Start(ms[..|ms| - 1], chosen);
      if chosen.None? || m.id in chosen.value then rest[m.id := m] else rest
  }

  function Updates(affected: Affected, chosen: Option<set<MatchId>>): Affected {
    map id | id in affected && (chosen.None? || id !in chosen.value) :: affected[id]
  }

  function InputsToUpdate(current: RoundId, rounds: seq<Round>, chosen: Option<set<MatchId>>): Affected
    requires HasRound(rounds, current)
  {
    Updates(
      Pass(Start(RoundWithId(rounds, current).matches, chosen), MatchesOf(SubsequentRounds(rounds, current))),
      chosen)
  }

  method CollectStart(ms: seq<Match>, chosen: Option<set<MatchId>>) returns (affected: Affected)
    ensures affected == Start(ms, chosen)
  {
    affected := map[];
    for i := 0 to |ms|
      invariant affected == Start(ms[..i], chosen)
    {
      var m := ms[i];
      assert ms[..i + 1][..i] == ms[..i];
      if chosen.None? || m.id in chosen.value {
        affected := affected[m.id := m];
      }
    }
    assert ms[..|ms|] == ms;
  }

  method RunPass(start: Affected, ms: seq<Match>) returns (affected: Affected)
    ensures affected == Pass(start, ms)
  {
    affected := start;
    for i := 0 to |ms|
      invariant affected == Pass(start, ms[..i])
    {
      var m := ms[i];
      assert ms[..i + 1][..i] == ms[..i];
      var input1, input2 := m.input1, m.input2;
      if m.source1.Some? && m.source1.value in affected {
        input1 := affected[m.source1.value].Winner();
      }
      if m.source2.Some? && m.source2.value in affected {
        input2 := affected[m.source2.value].Winner();
      }
      if m.input1 != input1 || m.input2 != input2 {
        affected := affected[m.id := m.WithInputs(input1, input2)];
      }
    }
    assert ms[..|ms|] == ms;
  }

  method GetInputsToUpdate(current: RoundId, rounds: seq<Round>, chosen: Option<set<MatchId>>)
      returns (updates: Affected)
    requires HasRound(rounds, current)
    ensures updates == InputsToUpdate(current, rounds, chosen)
  {
    var affected := CollectStart(RoundWithId(rounds, current).matches, chosen);
    affected := RunPass(affected, MatchesOf(SubsequentRounds(rounds, current)));
    updates := map id | id in affected && (chosen.None? || id !in chosen.value) :: affected[id];
  }

  // ----- The pass extends what can be trusted -----

  /** What a match looks like during the pass. */
  ghost function Current(rows: Rows, affected: Affected): Rows {
    map id | id in rows :: if id in affected then affected[id] else rows[id]
  }

  ghost predicate OnlyInputsDiffer(rows: Rows, affected: Affected) {
    forall id :: id in affected ==>
      && id in rows && affected[id] == rows[id].WithInputs(affected[id].input1, affected[id].input2)
      && (rows[id].source1.None? ==> affected[id].input1 == rows[id].input1)
      && (rows[id].source2.None? ==> affected[id].input2 == rows[id].input2)
  }

  /** The edges to sources in `trusted`: the stored input is the winner of the source. */
  ghost predicate AgreesIf(rows: Rows, trusted: set<MatchId>, input: Option<InputId>, source: Option<MatchId>) {
    source.Some? && source.value in trusted ==> Agrees(rows, input, source)
  }

  ghost predicate TrustedAt(rows: Rows, trusted: set<MatchId>, id: MatchId)
    requires id in rows
  {
    && AgreesIf(rows, trusted, rows[id].input1, rows[id].source1)
    && AgreesIf(rows, trusted, rows[id].input2, rows[id].source2)
  }

  ghost predicate TrustedOn(rows: Rows, trusted: set<MatchId>, done: set<MatchId>) {
    && done <= rows.Keys
    && forall id {:trigger TrustedAt(rows, trusted, id)} :: id in done ==> TrustedAt(rows, trusted, id)
  }

  /** Every match agrees with those of its sources that are in `trusted`. */
  ghost predicate Trusted(rows: Rows, trusted: set<MatchId>) { TrustedOn(rows, trusted, rows.Keys) }

  ghost predicate SourcesIn(rows: Rows, done: set<MatchId>, id: MatchId)
    requires id in rows
  {
    && (rows[id].source1.Some? ==> rows[id].source1.value in done)
    && (rows[id].source2.Some? ==> rows[id].source2.value in done)
  }

  /** No source of a match in `done` is outside. */
  ghost predicate Closed(rows: Rows, done: set<MatchId>) {
    && done <= rows.Keys
    && forall id {:trigger SourcesIn(rows, done, id)} :: id in done ==> SourcesIn(rows, done, id)
  }

  ghost predicate PassInvariant(
      rows: Rows, x: MatchId, trusted: set<MatchId>, affected: Affected, done: set<MatchId>)
  {
    && x in rows && x in affected && affected[x] == rows[x]
    && OnlyInputsDiffer(rows, affected)
    && affected.Keys <= done <= rows.Keys
    && TrustedOn(Current(rows, affected), trusted, done)
  }

  lemma {:induction false} NewInputAgrees(
      rows: Rows, x: MatchId, trusted: set<MatchId>, affected: Affected,
      input: Option<InputId>, source: Option<MatchId>)
    requires x in affected && affected.Keys <= rows.Keys
    requires source.Some? ==> source.value in rows
    requires AgreesIf(rows, trusted - {x}, input, source)
    ensures AgreesIf(Current(rows, affected), trusted, NewInput(affected, input, source), source)
  {
  }

  lemma {:induction false} SameAgrees(
      before: Rows, after: Rows, trusted: set<MatchId>, done: set<MatchId>, id: MatchId,
      input: Option<InputId>, source: Option<MatchId>)
    requires before.Keys == after.Keys && id !in done
    requires forall other :: other in before && other != id ==> after[other] == before[other]
    requires source.Some? ==> source.value in done
    requires AgreesIf(before, trusted, input, source)
    ensures AgreesIf(after, trusted, input, source)
  {
    if source.Some? && source.value in before {
      var s := source.value;
      assert s != id;
      assert after[s] == before[s];
    }
  }

  /** Changing one match that no match in `done` depends on. */
  lemma {:induction false} ExtendTrust(
      before: Rows, after: Rows, trusted: set<MatchId>, done: set<MatchId>, id: MatchId)
    requires before.Keys == after.Keys && id in after
    requires forall other :: other in before && other != id ==> after[other] == before[other]
    requires Closed(before, done) && id !in done
    requires TrustedOn(before, trusted, done) && TrustedAt(after, trusted, id)
    ensures TrustedOn(after, trusted, done + {id})
  {
    forall other | other in done
      ensures TrustedAt(after, trusted, other)
    {
      assert TrustedAt(before, trusted, other) && after[other] == before[other] && SourcesIn(before, done, other);
      SameAgrees(before, after, trusted, done, id, before[other].input1, before[other].source1);
      SameAgrees(before, after, trusted, done, id, before[other].input2, before[other].source2);
    }
  }

  lemma {:induction false} CurrentClosed(rows: Rows, affected: Affected, done: set<MatchId>)
    requires OnlyInputsDiffer(rows, affected) && Closed(rows, done)
    ensures Closed(Current(rows, affected), done)
  {
    var current := Current(rows, affected);
    forall id | id in done
      ensures SourcesIn(current, done, id)
    {
      assert SourcesIn(rows, done, id);
    }
  }

  /** The processed match itself agrees with its trusted sources and with `x`. */
  lemma {:induction false} StepAgrees(
      rows: Rows, x: MatchId, trusted: set<MatchId>, affected: Affected, id: MatchId)
    requires id in rows && rows[id].id == id && id !in affected && Trusted(rows, trusted - {x})
    requires x in affected && affected.Keys <= rows.Keys && SourcesEarlier(rows, id)
    ensures TrustedAt(Current(rows, Step(affected, rows[id])), trusted, id)
  {
    var m := rows[id];
    var before, after := Current(rows, affected), Current(rows, Step(affected, m));
    assert TrustedAt(rows, trusted - {x}, id);
    NewInputAgrees(rows, x, trusted, affected, m.input1, m.source1);
    NewInputAgrees(rows, x, trusted, affected, m.input2, m.source2);
    assert after[id] == m.WithInputs(
        NewInput(affected, m.input1, m.source1), NewInput(affected, m.input2, m.source2));
    assert m.source1.Some? ==> after[m.source1.value] == before[m.source1.value];
    assert m.source2.Some? ==> after[m.source2.value] == before[m.source2.value];
  }

  /** Processing one match whose sources are done. */
  lemma {:induction false} StepKeepsInvariant(
      rows: Rows, x: MatchId, trusted: set<MatchId>, affected: Affected, done: set<MatchId>, id: MatchId)
    requires id in rows && rows[id].id == id && id !in done && Trusted(rows, trusted - {x})
    requires SourcesEarlier(rows, id)
    requires Closed(rows, done) && PassInvariant(rows, x, trusted, affected, done)
    ensures PassInvariant(rows, x, trusted, Step(affected, rows[id]), done + {id})
  {
    StepAgrees(rows, x, trusted, affected, id);
    CurrentClosed(rows, affected, done);
    ExtendTrust(Current(rows, affected), Current(rows, Step(affected, rows[id])), trusted, done, id);
  }

  // ----- The pass reaches every later match, after its sources -----

  lemma {:induction false} PassAppend(affected: Affected, a: seq<Match>, b: seq<Match>)
    ensures Pass(affected, a + b) == Pass(Pass(affected, a), b)
  {
    if b == [] {
      assert a + b == a;
    } else {
      assert (a + b)[..|a + b| - 1] == a + b[..|b| - 1];
      PassAppend(affected, a, b[..|b| - 1]);
    }
  }

  /** The rows of rounds before `bound`. */
  ghost function Before(rows: Rows, bound: RoundId): set<MatchId> {
    set id | id in rows && rows[id].roundId < bound
  }

  lemma {:induction false} BeforeClosed(rows: Rows, bound: RoundId, some: set<MatchId>)
    requires WellFormed(rows) && some <= rows.Keys
    requires forall id :: id in some ==> rows[id].roundId <= bound
    ensures Closed(rows, Before(rows, bound) + some)
  {
    forall id | id in Before(rows, bound) + some
      ensures SourcesIn(rows, Before(rows, bound) + some, id)
    {
      assert SourcesEarlier(rows, id);
    }
  }

  ghost function IdsOf(ms: seq<Match>): set<MatchId> {
    set m | m in ms :: m.id
  }

  lemma {:induction false} LastOfRound(rows: Rows, bound: RoundId, ms: seq<Match>)
    requires RowsOfRound(rows, bound, ms) && ms != []
    ensures var k := |ms| - 1;
      && RowsOfRound(rows, bound, ms[..k])
      && ms[k].id in rows && rows[ms[k].id] == ms[k] && rows[ms[k].id].roundId == bound
      && ms[k].id !in IdsOf(ms[..k])
      && IdsOf(ms[..k]) + {ms[k].id} == IdsOf(ms)
      && IdsOf(ms[..k]) <= rows.Keys
      && forall id :: id in IdsOf(ms[..k]) ==> rows[id].roundId == bound
  {
    var k := |ms| - 1;
    assert ms[k] in ms;
    assert forall m :: m in ms[..k] ==> m in ms;
    assert ms == ms[..k] + [ms[k]];
  }

  /** One round, whose matches only depend on earlier rounds. */
  lemma {:induction false} PassRound(
      rows: Rows, x: MatchId, trusted: set<MatchId>, affected: Affected, bound: RoundId, ms: seq<Match>)
    requires WellFormed(rows) && Trusted(rows, trusted - {x}) && RowsOfRound(rows, bound, ms)
    requires PassInvariant(rows, x, trusted, affected, Before(rows, bound))
    ensures PassInvariant(rows, x, trusted, Pass(affected, ms), Before(rows, bound) + IdsOf(ms))
  {
    if ms == [] {
      assert Before(rows, bound) + IdsOf(ms) == Before(rows, bound);
    } else {
      var k := |ms| - 1;
      var id, done := ms[k].id, Before(rows, bound) + IdsOf(ms[..k]);
      LastOfRound(rows, bound, ms);
      PassRound(rows, x, trusted, affected, bound, ms[..k]);
      BeforeClosed(rows, bound, IdsOf(ms[..k]));
      assert SourcesEarlier(rows, id);
      StepKeepsInvariant(rows, x, trusted, Pass(affected, ms[..k]), done, id);
      assert done + {id} == Before(rows, bound) + IdsOf(ms);
    }
  }

  /** Consecutive rounds from `bound` on, holding every row from `bound` on. */
  ghost predicate Covers(rows: Rows, rounds: seq<Round>, bound: RoundId) {
    && StrictlySorted(RoundById, rounds)
    && (forall r :: r in rounds ==> r.id >= bound && RowsOfRound(rows, r.id, r.matches))
    && (forall id {:trigger IsListed(rounds, rows[id])} :: id in rows && rows[id].roundId >= bound ==>
         IsListed(rounds, rows[id]))
  }

  lemma {:induction false} RowInHead(rows: Rows, rounds: seq<Round>, bound: RoundId, id: MatchId)
    requires Covers(rows, rounds, bound) && rounds != []
    requires id in rows && bound <= rows[id].roundId <= rounds[0].id
    ensures rows[id].roundId == rounds[0].id && rows[id] in rounds[0].matches
  {
    assert IsListed(rounds, rows[id]);
    var r :| r in rounds && r.id == rows[id].roundId && rows[id] in r.matches;
    var i :| 0 <= i < |rounds| && rounds[i] == r;
    assert i == 0 || RoundById(rounds[0], rounds[i]);
  }

  lemma {:induction false} CoversHead(rows: Rows, rounds: seq<Round>, bound: RoundId)
    requires WellFormed(rows) && Covers(rows, rounds, bound) && rounds != []
    ensures Before(rows, rounds[0].id) == Before(rows, bound)
    ensures Before(rows, rounds[0].id) + IdsOf(rounds[0].matches) == Before(rows, rounds[0].id + 1)
  {
    var first := rounds[0];
    assert first in rounds;
    forall id | id in rows && bound <= rows[id].roundId <= first.id
      ensures rows[id].roundId == first.id && rows[id].id == id && id in IdsOf(first.matches)
    {
      RowInHead(rows, rounds, bound, id);
    }
    assert RowsOfRound(rows, first.id, first.matches);
  }

  lemma {:induction false} CoversTail(rows: Rows, rounds: seq<Round>, bound: RoundId)
    requires Covers(rows, rounds, bound) && rounds != []
    ensures Covers(rows, rounds[1..], rounds[0].id + 1)
  {
    var rest := rounds[1..];
    forall r | r in rest
      ensures r.id >= rounds[0].id + 1 && RowsOfRound(rows, r.id, r.matches)
    {
      var i :| 0 <= i < |rest| && rest[i] == r;
      assert RoundById(rounds[0], rounds[i + 1]);
      assert r in rounds;
    }
    forall id | id in rows && rows[id].roundId >= rounds[0].id + 1
      ensures IsListed(rest, rows[id])
    {
      assert rounds[0] in rounds;
      assert IsListed(rounds, rows[id]);
      var r :| r in rounds && r.id == rows[id].roundId && rows[id] in r.matches;
      assert r != rounds[0] && r in rest;
    }
    forall i, j | 0 <= i < j < |rest|
      ensures RoundById(rest[i], rest[j])
    {
      assert RoundById(rounds[i + 1], rounds[j + 1]);
    }
  }

  lemma {:induction false} PassRounds(
      rows: Rows, x: MatchId, trusted: set<MatchId>, affected: Affected, rounds: seq<Round>, bound: RoundId)
    requires WellFormed(rows) && Trusted(rows, trusted - {x}) && Covers(rows, rounds, bound)
    requires PassInvariant(rows, x, trusted, affected, Before(rows, bound))
    ensures PassInvariant(rows, x, trusted, Pass(affected, MatchesOf(rounds)), rows.Keys)
    decreases |rounds|
  {
    if rounds == [] {
      assert forall id :: id in rows ==> !IsListed(rounds, rows[id]);
    } else {
      CoversHead(rows, rounds, bound);
      CoversTail(rows, rounds, bound);
      assert rounds[0] in rounds;
      PassRound(rows, x, trusted, affected, rounds[0].id, rounds[0].matches);
      PassRounds(rows, x, trusted, Pass(affected, rounds[0].matches), rounds[1..], rounds[0].id + 1);
      PassAppend(affected, rounds[0].matches, MatchesOf(rounds[1..]));
    }
  }

  lemma {:induction false} ByIdIsOrder()
    ensures StrictWeak(RoundById)
  {
  }

  lemma {:induction false} RoundsAfterDistinct(rounds: seq<Round>, id: RoundId)
    requires forall i, j :: 0 <= i < j < |rounds| ==> rounds[i].id != rounds[j].id
    ensures Separates(RoundById, RoundsAfter(rounds, id))
  {
    if rounds != [] {
      var rest := RoundsAfter(rounds[1..], id);
      RoundsAfterDistinct(rounds[1..], id);
      forall i | 0 <= i < |rest|
        ensures rest[i].id != rounds[0].id
      {
        assert rest[i] in rest;
        var k :| 0 <= k < |rounds[1..]| && rounds[1..][k] == rest[i];
        assert rounds[k + 1] == rest[i];
      }
    }
  }

  lemma {:induction false} SubsequentRoundsCover(rows: Rows, rounds: seq<Round>, current: RoundId)
    requires SnapshotOf(rounds, rows)
    ensures Covers(rows, SubsequentRounds(rounds, current), current + 1)
  {
    var after, sorted := RoundsAfter(rounds, current), SubsequentRounds(rounds, current);
    ByIdIsOrder();
    RoundsAfterDistinct(rounds, current);
    SortSeparated(RoundById, after);
    forall r
      ensures r in sorted <==> r in rounds && r.id > current
    {
      MemberOfPermutation(sorted, after, r);
    }
    forall r | r in sorted
      ensures RowsOfRound(rows, r.id, r.matches)
    {
      assert r in rounds;
    }
    forall id | id in rows && rows[id].roundId >= current + 1
      ensures IsListed(sorted, rows[id])
    {
      assert IsListed(rounds, rows[id]);
    }
  }
}
