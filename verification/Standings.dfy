/** The standings of a stage item as an ordered list, and what it does not depend on. */
module Standings {
  import opened Models
  import opened Sorting
  import opened Ranking
  import opened RankingLaws

  datatype Row = Row(id: InputId, stats: Stats, slot: int)

  /** A lexicographic comparison on five keys, the first four descending. */
  predicate Better(a: Row, b: Row) {
    if a.stats.points != b.stats.points then a.stats.points > b.stats.points
    else if a.stats.Difference() != b.stats.Difference() then a.stats.Difference() > b.stats.Difference()
    else if a.stats.scoreFor != b.stats.scoreFor then a.stats.scoreFor > b.stats.scoreFor
    else if a.stats.wins != b.stats.wins then a.stats.wins > b.stats.wins
    else a.slot < b.slot
  }

  /** The slots by input id. */
  function SlotOf(inputs: seq<Input>, x: InputId): (r: Option<int>)
    ensures r.Some? <==> exists i :: i in inputs && i.id == x
    ensures r.Some? ==> exists i :: i in inputs && i.id == x && i.slot == r.value
  {
    if inputs == [] then None
    else
      var k := |inputs| - 1;
      assert inputs == inputs[..k] + [inputs[k]];
      if inputs[k].id == x then Some(inputs[k].slot) else SlotOf(inputs[..k], x)
  }

  ghost predicate Known(t: Table, inputs: seq<Input>) { forall e :: e in t ==> SlotOf(inputs, e.id).Some? }

  function Rows(t: Table, inputs: seq<Input>): (r: seq<Row>)
    requires Known(t, inputs)
    ensures |r| == |t|
    ensures forall i :: 0 <= i < |t| ==> r[i] == Row(t[i].id, t[i].stats, SlotOf(inputs, t[i].id).value)
  {
    seq(|t|, i requires 0 <= i < |t| => Row(t[i].id, t[i].stats, SlotOf(inputs, t[i].id).value))
  }

  function StandingsOf(t: Table, inputs: seq<Input>): seq<Row>
    requires Known(t, inputs)
  {
    Sort(Better, Rows(t, inputs))
  }

  // ----- Who is listed -----

  ghost predicate TeamInput(inputs: seq<Input>, x: InputId) {
    exists i :: i in inputs && i.id == x && i.team.Some?
  }

  ghost predicate Plays(ms: seq<Match>, x: InputId) { exists m :: m in ms && m.HasInput(x) }

  lemma {:induction false} StartHas(inputs: seq<Input>, rules: Rules, x: InputId)
    ensures UniqueKeys(Start(inputs, rules))
    ensures Has(Start(inputs, rules), x) <==> TeamInput(inputs, x)
  {
    if inputs != [] {
      var k := |inputs| - 1;
      var t := Start(inputs[..k], rules);
      assert inputs == inputs[..k] + [inputs[k]];
      StartHas(inputs[..k], rules, x);
      PutKeepsKeys(t, inputs[k].id, Stats(0, 0, 0, rules.Initial(), 0, 0));
      HasPut(t, inputs[k].id, Stats(0, 0, 0, rules.Initial(), 0, 0), x);
    }
  }

  lemma {:induction false} RecordKeys(t: Table, m: Match, side: Side, rules: Rules, before: Ratings, x: InputId)
    requires m.IsDefinitive() && UniqueKeys(t)
    ensures UniqueKeys(Record(t, m, side, rules, before))
    ensures Has(Record(t, m, side, rules, before), x) <==> x == InputOf(m, side) || Has(t, x)
  {
    var y := InputOf(m, side);
    var s := Added(Get(t, y, rules.Initial()), m, side, rules, before);
    PutKeepsKeys(t, y, s);
    HasPut(t, y, s, x);
  }

  lemma {:induction false} TouchKeys(t: Table, y: InputId, rules: Rules, x: InputId)
    requires UniqueKeys(t)
    ensures UniqueKeys(Touch(t, y, rules))
    ensures Has(Touch(t, y, rules), x) <==> x == y || Has(t, x)
  {
    PutKeepsKeys(t, y, Get(t, y, rules.Initial()));
    HasPut(t, y, Get(t, y, rules.Initial()), x);
  }

  lemma {:induction false} PlayKeys(t: Table, m: Match, rules: Rules, x: InputId)
    requires m.IsDefinitive() && UniqueKeys(t)
    ensures UniqueKeys(Play(t, m, rules))
    ensures Has(Play(t, m, rules), x) <==> m.HasInput(x) || Has(t, x)
  {
    var a, b, before := m.input1.value, m.input2.value, RatingsBefore(t, m, rules);
    TouchKeys(t, a, rules, x);
    TouchKeys(Touch(t, a, rules), b, rules, x);
    var u := Touched(t, m, rules);
    RecordKeys(u, m, Home, rules, before, x);
    RecordKeys(Record(u, m, Home, rules, before), m, Away, rules, before, x);
  }

  lemma {:induction false} ReplayKeys(t: Table, ms: seq<Match>, rules: Rules, x: InputId)
    requires AllDefinitive(ms) && UniqueKeys(t)
    ensures UniqueKeys(Replay(t, ms, rules))
    ensures Has(Replay(t, ms, rules), x) <==> Plays(ms, x) || Has(t, x)
  {
    if ms != [] {
      var k := |ms| - 1;
      assert ms == ms[..k] + [ms[k]];
      ReplayKeys(t, ms[..k], rules, x);
      PlayKeys(Replay(t, ms[..k], rules), ms[k], rules, x);
    }
  }

  /** Exactly the inputs with a team and those of played matches have a result, each once. */
  lemma {:induction false} WhoIsListed(item: StageItem, rules: Rules, x: InputId)
    ensures UniqueKeys(Results(item, rules))
    ensures Has(Results(item, rules), x) <==> TeamInput(item.inputs, x) || Plays(Counted(item), x)
  {
    StartHas(item.inputs, rules, x);
    ReplayKeys(Start(item.inputs, rules), Counted(item), rules, x);
  }

  /** The played matches use inputs of the item. */
  ghost predicate UsesOwnInputs(item: StageItem) {
    forall x :: Plays(Counted(item), x) ==> exists i :: i in item.inputs && i.id == x
  }

  lemma {:induction false} ResultsKnown(item: StageItem, rules: Rules)
    requires UsesOwnInputs(item)
    ensures Known(Results(item, rules), item.inputs)
  {
    forall e | e in Results(item, rules)
      ensures SlotOf(item.inputs, e.id).Some?
    {
      assert Has(Results(item, rules), e.id);
      WhoIsListed(item, rules, e.id);
    }
  }

  method DetermineTeamRanking(item: StageItem, rules: Rules) returns (standings: seq<Row>)
    requires UsesOwnInputs(item)
    ensures Known(Results(item, rules), item.inputs)
    ensures standings == StandingsOf(Results(item, rules), item.inputs)
  {
    ResultsKnown(item, rules);
    var t := DetermineRanking(item, rules);
    standings := Sort(Better, Rows(t, item.inputs));
  }

  // ----- The order is strict -----

  ghost predicate DistinctInputs(inputs: seq<Input>) {
    forall i, j :: 0 <= i < j < |inputs| ==> inputs[i].id != inputs[j].id && inputs[i].slot != inputs[j].slot
  }

  lemma {:induction false} SlotIs(inputs: seq<Input>, i: Input)
    requires DistinctInputs(inputs) && i in inputs
    ensures SlotOf(inputs, i.id) == Some(i.slot)
  {
  }

  lemma {:induction false} SlotsDiffer(inputs: seq<Input>, x: InputId, y: InputId)
    requires DistinctInputs(inputs) && x != y && SlotOf(inputs, x).Some? && SlotOf(inputs, y).Some?
    ensures SlotOf(inputs, x) != SlotOf(inputs, y)
  {
    var i :| i in inputs && i.id == x;
    var j :| j in inputs && j.id == y;
    SlotIs(inputs, i);
    SlotIs(inputs, j);
  }

  lemma {:induction false} BetterIsStrictWeak()
    ensures StrictWeak(Better)
  {
  }

  lemma {:induction false} RowsSeparate(t: Table, inputs: seq<Input>)
    requires Known(t, inputs) && UniqueKeys(t) && DistinctInputs(inputs)
    ensures Separates(Better, Rows(t, inputs))
  {
    forall i, j | 0 <= i < j < |t|
      ensures Better(Rows(t, inputs)[i], Rows(t, inputs)[j]) || Better(Rows(t, inputs)[j], Rows(t, inputs)[i])
    {
      SlotsDiffer(inputs, t[i].id, t[j].id);
    }
  }

  ghost predicate DistinctRows(s: seq<Row>) { forall i, j :: 0 <= i < j < |s| ==> s[i].id != s[j].id }

  lemma {:induction false} SortedRowsDistinct(t: Table, inputs: seq<Input>)
    requires Known(t, inputs) && UniqueKeys(t) && DistinctInputs(inputs)
    ensures DistinctRows(StandingsOf(t, inputs))
  {
    var rows, s := Rows(t, inputs), StandingsOf(t, inputs);
    RowsSeparate(t, inputs);
    BetterIsStrictWeak();
    SortSeparated(Better, rows);
    forall i, j | 0 <= i < j < |s|
      ensures s[i].id != s[j].id
    {
      MemberOfPermutation(rows, s, s[i]);
      MemberOfPermutation(rows, s, s[j]);
      var p :| 0 <= p < |rows| && rows[p] == s[i];
      var q :| 0 <= q < |rows| && rows[q] == s[j];
      assert Better(s[i], s[j]);
      assert p != q;
    }
  }

  /** The standings are a strictly ordered permutation of the entries: no two inputs share a
      position, and every position has its own input. */
  lemma {:induction false} StandingsAreStrict(item: StageItem, rules: Rules)
    requires UsesOwnInputs(item) && DistinctInputs(item.inputs)
    ensures Known(Results(item, rules), item.inputs)
    ensures var s := StandingsOf(Results(item, rules), item.inputs);
      && StrictlySorted(Better, s)
      && multiset(s) == multiset(Rows(Results(item, rules), item.inputs))
      && DistinctRows(s)
  {
    var t := Results(item, rules);
    ResultsKnown(item, rules);
    WhoIsListed(item, rules, 0);
    RowsSeparate(t, item.inputs);
    BetterIsStrictWeak();
    SortSeparated(Better, Rows(t, item.inputs));
    SortedRowsDistinct(t, item.inputs);
  }

  /** The keys of two rows, the better one first: points, then score difference, then total score, then
      wins, then the slot. */
  ghost predicate KeysDescend(a: Row, b: Row) {
    var s, u := a.stats, b.stats;
    && s.points >= u.points
    && (s.points == u.points ==>
         && s.scoreFor - s.scoreAgainst >= u.scoreFor - u.scoreAgainst
         && (s.scoreFor - s.scoreAgainst == u.scoreFor - u.scoreAgainst ==>
              && s.scoreFor >= u.scoreFor
              && (s.scoreFor == u.scoreFor ==> s.wins >= u.wins && (s.wins == u.wins ==> a.slot < b.slot))))
  }

  /** What the standings list: each result with the slot of its input, in the order of the keys. */
  lemma {:induction false} StandingsByKeys(item: StageItem, rules: Rules)
    requires UsesOwnInputs(item) && DistinctInputs(item.inputs)
    ensures Known(Results(item, rules), item.inputs)
    ensures var s := StandingsOf(Results(item, rules), item.inputs);
      && (forall i, j :: 0 <= i < j < |s| ==> KeysDescend(s[i], s[j]))
      && (forall i :: 0 <= i < |s| ==>
           && s[i].stats == Get(Results(item, rules), s[i].id, rules.Initial())
           && exists input :: input in item.inputs && input.id == s[i].id && input.slot == s[i].slot)
  {
    var t := Results(item, rules);
    StandingsAreStrict(item, rules);
    WhoIsListed(item, rules, 0);
    var s := StandingsOf(t, item.inputs);
    forall i, j | 0 <= i < j < |s|
      ensures KeysDescend(s[i], s[j])
    {
      assert Better(s[i], s[j]);
    }
    forall i | 0 <= i < |s|
      ensures s[i].stats == Get(t, s[i].id, rules.Initial())
      ensures exists input :: input in item.inputs && input.id == s[i].id && input.slot == s[i].slot
    {
      MemberOfPermutation(s, Rows(t, item.inputs), s[i]);
      RowMembers(t, item.inputs, s[i], rules.Initial());
    }
  }

  // ----- The order of delivery does not matter -----

  /** The same round, its matches in another order. */
  ghost predicate Alike(r: Round, s: Round) {
    r.id == s.id && r.isDraft == s.isDraft && multiset(r.matches) == multiset(s.matches)
  }

  ghost predicate AllAlike(rounds: seq<Round>, others: seq<Round>) {
    |rounds| == |others| && forall i :: 0 <= i < |rounds| ==> Alike(rounds[i], others[i])
  }

  ghost predicate UniqueMatches(rounds: seq<Round>) {
    forall r :: r in rounds ==> Separates(MatchByNumber, r.matches)
  }

  ghost predicate UniqueRounds(rounds: seq<Round>) { Separates(RoundById, rounds) }

  lemma {:induction false} AlikeFirst(r: Round, s: Round, rounds: seq<Round>, others: seq<Round>)
    requires Alike(r, s) && AllAlike(rounds, others)
    ensures AllAlike([r] + rounds, [s] + others)
  {
    forall i | 0 <= i < |rounds| + 1
      ensures Alike(([r] + rounds)[i], ([s] + others)[i])
    {
      assert i == 0 || Alike(rounds[i - 1], others[i - 1]);
    }
  }

  lemma {:induction false} AlikeRest(rounds: seq<Round>, others: seq<Round>)
    requires AllAlike(rounds, others) && rounds != []
    ensures Alike(rounds[0], others[0]) && AllAlike(rounds[1..], others[1..])
  {
  }

  lemma {:induction false} InsertAlike(r: Round, s: Round, rounds: seq<Round>, others: seq<Round>)
    requires Alike(r, s) && AllAlike(rounds, others)
    ensures AllAlike(Insert(RoundById, r, rounds), Insert(RoundById, s, others))
  {
    if rounds == [] {
      AlikeFirst(r, s, [], []);
    } else {
      AlikeRest(rounds, others);
      if RoundById(rounds[0], r) {
        InsertAlike(r, s, rounds[1..], others[1..]);
        AlikeFirst(rounds[0], others[0], Insert(RoundById, r, rounds[1..]), Insert(RoundById, s, others[1..]));
      } else {
        AlikeFirst(r, s, rounds, others);
      }
    }
  }

  lemma {:induction false} SortAlike(rounds: seq<Round>, others: seq<Round>)
    requires AllAlike(rounds, others)
    ensures AllAlike(Sort(RoundById, rounds), Sort(RoundById, others))
  {
    if rounds != [] {
      assert Alike(rounds[0], others[0]) && AllAlike(rounds[1..], others[1..]);
      SortAlike(rounds[1..], others[1..]);
      InsertAlike(rounds[0], others[0], Sort(RoundById, rounds[1..]), Sort(RoundById, others[1..]));
    }
  }

  lemma {:induction false} CountedAlike(rounds: seq<Round>, others: seq<Round>)
    requires AllAlike(rounds, others) && UniqueMatches(rounds)
    ensures CountedOf(rounds) == CountedOf(others)
  {
    if rounds != [] {
      assert Alike(rounds[0], others[0]) && AllAlike(rounds[1..], others[1..]);
      CountedAlike(rounds[1..], others[1..]);
      assert rounds[0] in rounds;
      SortIgnoresOrder(MatchByNumber, rounds[0].matches, others[0].matches);
    }
  }

  lemma {:induction false} UniqueMatchesSorted(rounds: seq<Round>)
    requires UniqueMatches(rounds)
    ensures UniqueMatches(Sort(RoundById, rounds))
  {
    forall r | r in Sort(RoundById, rounds)
      ensures Separates(MatchByNumber, r.matches)
    {
      MemberOfPermutation(Sort(RoundById, rounds), rounds, r);
    }
  }

  /** `delivered` holds the rounds and matches of `rounds` in any other order: `between` has the
      rounds in place, with the matches of each in the order in which they are delivered. */
  ghost predicate Redelivered(rounds: seq<Round>, between: seq<Round>, delivered: seq<Round>) {
    AllAlike(rounds, between) && multiset(between) == multiset(delivered)
  }

  lemma {:induction false} CountedIgnoresOrder(rounds: seq<Round>, between: seq<Round>, delivered: seq<Round>)
    requires Redelivered(rounds, between, delivered) && UniqueRounds(rounds) && UniqueMatches(rounds)
    ensures CountedOf(Sort(RoundById, delivered)) == CountedOf(Sort(RoundById, rounds))
  {
    forall i, j | 0 <= i < j < |between|
      ensures RoundById(between[i], between[j]) || RoundById(between[j], between[i])
    {
      assert Alike(rounds[i], between[i]) && Alike(rounds[j], between[j]);
    }
    SortIgnoresOrder(RoundById, between, delivered);
    SortAlike(rounds, between);
    UniqueMatchesSorted(rounds);
    CountedAlike(Sort(RoundById, rounds), Sort(RoundById, between));
  }

  // ----- The order of the dictionary does not matter -----

  /** The same results, possibly first seen in another order. */
  ghost predicate Equivalent(t: Table, u: Table, rules: Rules) {
    && UniqueKeys(t) && UniqueKeys(u)
    && (forall x :: Has(t, x) <==> Has(u, x))
    && (forall x :: Get(t, x, rules.Initial()) == Get(u, x, rules.Initial()))
  }

  lemma {:induction false} PutEquivalent(t: Table, u: Table, x: InputId, s: Stats, rules: Rules)
    requires Equivalent(t, u, rules)
    ensures Equivalent(Put(t, x, s), Put(u, x, s), rules)
  {
    PutKeepsKeys(t, x, s);
    PutKeepsKeys(u, x, s);
    forall y
      ensures Has(Put(t, x, s), y) <==> Has(Put(u, x, s), y)
      ensures Get(Put(t, x, s), y, rules.Initial()) == Get(Put(u, x, s), y, rules.Initial())
    {
      HasPut(t, x, s, y);
      HasPut(u, x, s, y);
      GetPut(t, x, s, y, rules.Initial());
      GetPut(u, x, s, y, rules.Initial());
    }
  }

  lemma {:induction false} TouchEquivalent(t: Table, u: Table, x: InputId, rules: Rules)
    requires Equivalent(t, u, rules)
    ensures Equivalent(Touch(t, x, rules), Touch(u, x, rules), rules)
  {
    PutEquivalent(t, u, x, Get(t, x, rules.Initial()), rules);
  }

  lemma {:induction false} RecordEquivalent(t: Table, u: Table, m: Match, side: Side, rules: Rules, before: Ratings)
    requires m.IsDefinitive() && Equivalent(t, u, rules)
    ensures Equivalent(Record(t, m, side, rules, before), Record(u, m, side, rules, before), rules)
  {
    var x := InputOf(m, side);
    PutEquivalent(t, u, x, Added(Get(t, x, rules.Initial()), m, side, rules, before), rules);
  }

  lemma {:induction false} PlayEquivalent(t: Table, u: Table, m: Match, rules: Rules)
    requires m.IsDefinitive() && Equivalent(t, u, rules)
    ensures Equivalent(Play(t, m, rules), Play(u, m, rules), rules)
  {
    var a, b, before := m.input1.value, m.input2.value, RatingsBefore(t, m, rules);
    assert before == RatingsBefore(u, m, rules);
    TouchEquivalent(t, u, a, rules);
    TouchEquivalent(Touch(t, a, rules), Touch(u, a, rules), b, rules);
    var t', u' := Touched(t, m, rules), Touched(u, m, rules);
    RecordEquivalent(t', u', m, Home, rules, before);
    RecordEquivalent(Record(t', m, Home, rules, before), Record(u', m, Home, rules, before), m, Away, rules, before);
  }

  lemma {:induction false} ReplayEquivalent(t: Table, u: Table, ms: seq<Match>, rules: Rules)
    requires AllDefinitive(ms) && Equivalent(t, u, rules)
    ensures Equivalent(Replay(t, ms, rules), Replay(u, ms, rules), rules)
  {
    if ms != [] {
      var k := |ms| - 1;
      ReplayEquivalent(t, u, ms[..k], rules);
      PlayEquivalent(Replay(t, ms[..k], rules), Replay(u, ms[..k], rules), ms[k], rules);
    }
  }

  lemma {:induction false} StartEquivalent(inputs: seq<Input>, shuffled: seq<Input>, rules: Rules)
    requires multiset(inputs) == multiset(shuffled)
    ensures Equivalent(Start(inputs, rules), Start(shuffled, rules), rules)
  {
    StartTotal(inputs, rules, WinsOf);
    StartTotal(shuffled, rules, WinsOf);
    forall i
      ensures i in inputs <==> i in shuffled
    {
      MemberOfPermutation(inputs, shuffled, i);
    }
    StartHas(inputs, rules, 0);
    StartHas(shuffled, rules, 0);
    forall x
      ensures Has(Start(inputs, rules), x) <==> Has(Start(shuffled, rules), x)
    {
      StartHas(inputs, rules, x);
      StartHas(shuffled, rules, x);
      assert TeamInput(inputs, x) <==> TeamInput(shuffled, x);
    }
  }

  lemma {:induction false} GetMember(t: Table, e: Entry, initial: real)
    requires UniqueKeys(t)
    ensures e in t <==> Has(t, e.id) && Get(t, e.id, initial) == e.stats
  {
    if t != [] {
      GetMember(t[1..], e, initial);
      assert forall d :: d in t <==> d == t[0] || d in t[1..];
      assert t[0].id == e.id ==> !Has(t[1..], e.id);
    }
  }

  lemma {:induction false} SlotsIgnoreOrder(inputs: seq<Input>, shuffled: seq<Input>, x: InputId)
    requires DistinctInputs(inputs) && multiset(inputs) == multiset(shuffled)
    ensures SlotOf(shuffled, x) == SlotOf(inputs, x)
  {
    forall i
      ensures i in inputs <==> i in shuffled
    {
      MemberOfPermutation(inputs, shuffled, i);
    }
    if SlotOf(shuffled, x).Some? {
      var i :| i in shuffled && i.id == x && i.slot == SlotOf(shuffled, x).value;
      SlotIs(inputs, i);
    }
  }

  lemma {:induction false} RowMembers(t: Table, inputs: seq<Input>, row: Row, initial: real)
    requires Known(t, inputs) && UniqueKeys(t)
    ensures row in Rows(t, inputs) <==>
            Has(t, row.id) && Get(t, row.id, initial) == row.stats && SlotOf(inputs, row.id) == Some(row.slot)
  {
    var e := Entry(row.id, row.stats);
    GetMember(t, e, initial);
    if row in Rows(t, inputs) {
      var i :| 0 <= i < |t| && Rows(t, inputs)[i] == row;
      assert t[i] == e;
    }
    if e in t && SlotOf(inputs, row.id) == Some(row.slot) {
      var i :| 0 <= i < |t| && t[i] == e;
      assert Rows(t, inputs)[i] == row;
    }
  }

  lemma {:induction false} ListedAt(t: Table, inputs: seq<Input>, x: InputId, initial: real) returns (p: nat)
    requires Known(t, inputs) && UniqueKeys(t) && Has(t, x)
    ensures p < |StandingsOf(t, inputs)| && StandingsOf(t, inputs)[p].id == x
    ensures StandingsOf(t, inputs)[p].stats == Get(t, x, initial)
  {
    var s := StandingsOf(t, inputs);
    var e :| e in t && e.id == x;
    var row := Row(x, Get(t, x, initial), SlotOf(inputs, e.id).value);
    RowMembers(t, inputs, row, initial);
    MemberOfPermutation(Rows(t, inputs), s, row);
    p :| p < |s| && s[p] == row;
  }

  /** An input with more points than any other is first. */
  lemma {:induction false} MostPointsFirst(t: Table, inputs: seq<Input>, x: InputId, initial: real)
    requires Known(t, inputs) && UniqueKeys(t) && DistinctInputs(inputs) && Has(t, x)
    requires forall y :: Has(t, y) && y != x ==> Get(t, y, initial).points < Get(t, x, initial).points
    ensures StandingsOf(t, inputs) != [] && StandingsOf(t, inputs)[0].id == x
  {
    var s := StandingsOf(t, inputs);
    var p := ListedAt(t, inputs, x, initial);
    RowsSeparate(t, inputs);
    BetterIsStrictWeak();
    SortSeparated(Better, Rows(t, inputs));
    assert p == 0 || Better(s[0], s[p]);
    assert s[0] in s;
    MemberOfPermutation(Rows(t, inputs), s, s[0]);
    RowMembers(t, inputs, s[0], initial);
  }

  lemma {:induction false} RowsNoDuplicates(t: Table, inputs: seq<Input>)
    requires Known(t, inputs) && UniqueKeys(t)
    ensures NoDuplicates(Rows(t, inputs))
  {
  }

  lemma {:induction false} EquivalentStandings(
      t: Table, inputs: seq<Input>, u: Table, shuffled: seq<Input>, rules: Rules)
    requires Equivalent(t, u, rules) && DistinctInputs(inputs) && multiset(inputs) == multiset(shuffled)
    requires Known(t, inputs) && Known(u, shuffled)
    ensures StandingsOf(u, shuffled) == StandingsOf(t, inputs)
  {
    forall row
      ensures row in Rows(t, inputs) <==> row in Rows(u, shuffled)
    {
      RowMembers(t, inputs, row, rules.Initial());
      RowMembers(u, shuffled, row, rules.Initial());
      SlotsIgnoreOrder(inputs, shuffled, row.id);
    }
    RowsNoDuplicates(t, inputs);
    RowsNoDuplicates(u, shuffled);
    SameMembers(Rows(t, inputs), Rows(u, shuffled));
    RowsSeparate(t, inputs);
    BetterIsStrictWeak();
    SortIgnoresOrder(Better, Rows(t, inputs), Rows(u, shuffled));
  }

  /** The standings are the same list in whatever order the inputs, rounds and matches of the item
      are delivered, even though every Elo change depends on the ratings before the match. */
  lemma {:induction false} StandingsIgnoreOrder(
      item: StageItem, between: seq<Round>, delivered: StageItem, rules: Rules)
    requires UsesOwnInputs(item) && DistinctInputs(item.inputs)
    requires UniqueRounds(item.rounds) && UniqueMatches(item.rounds)
    requires Redelivered(item.rounds, between, delivered.rounds)
    requires multiset(item.inputs) == multiset(delivered.inputs)
    ensures Known(Results(item, rules), item.inputs) && Known(Results(delivered, rules), delivered.inputs)
    ensures StandingsOf(Results(delivered, rules), delivered.inputs)
         == StandingsOf(Results(item, rules), item.inputs)
  {
    CountedIgnoresOrder(item.rounds, between, delivered.rounds);
    assert Counted(delivered) == Counted(item);
    StartEquivalent(item.inputs, delivered.inputs, rules);
    ReplayEquivalent(Start(item.inputs, rules), Start(delivered.inputs, rules), Counted(item), rules);
    forall i
      ensures i in item.inputs <==> i in delivered.inputs
    {
      MemberOfPermutation(item.inputs, delivered.inputs, i);
    }
    ResultsKnown(item, rules);
    ResultsKnown(delivered, rules);
    EquivalentStandings(Results(item, rules), item.inputs, Results(delivered, rules), delivered.inputs, rules);
  }
}
