/** Writing the plan to the matches, and what holds of the matches once it is written. */
module Scheduling {
  import opened Models
  import opened Sorting
  import opened Planning
  import opened Conflicts
  import opened Retiming

  // ----- Scheduling all matches -----

  /** A dictionary of the matches by id. */
  function MatchById(ms: seq<Match>, id: MatchId): (r: Option<Match>)
    ensures r.Some? <==> exists m :: m in ms && m.id == id
    ensures r.Some? ==> r.value in ms && r.value.id == id
  {
    if ms == [] then None
    else
      var k := |ms| - 1;
      assert ms == ms[..k] + [ms[k]];
      if ms[k].id == id then Some(ms[k]) else MatchById(ms[..k], id)
  }

  ghost predicate Known(ts: seq<Timing>, ms: seq<Match>) {
    forall p :: p in ts ==> MatchById(ms, p.matchId).Some?
  }

  /** The timings that differ from what their match has. */
  function Changed(ts: seq<Timing>, ms: seq<Match>): (r: seq<Timing>)
    requires Known(ts, ms)
    ensures forall p :: p in r <==> p in ts && !KeepsTo(MatchById(ms, p.matchId).value, p)
  {
    if ts == [] then []
    else
      var k := |ts| - 1;
      assert ts == ts[..k] + [ts[k]];
      var r := Changed(ts[..k], ms);
      if KeepsTo(MatchById(ms, ts[k].matchId).value, ts[k]) then r else r + [ts[k]]
  }

  lemma {:induction false} PlanKnown(stages: seq<Stage>, t: Tournament)
    ensures Known(Plan(stages, t), AllMatches(stages))
  {
    var ts, ms := Plan(stages, t), AllMatches(stages);
    PlanIds(stages, t);
    forall p | p in ts
      ensures exists m :: m in ms && m.id == p.matchId
    {
      var i :| 0 <= i < |ts| && ts[i] == p;
      assert TimingIds(ts)[i] == p.matchId;
      MemberOfPermutation(TimingIds(ts), MatchIds(ms), p.matchId);
      var j :| 0 <= j < |ms| && MatchIds(ms)[j] == p.matchId;
      assert ms[j] in ms;
    }
  }

  /** Every match has its planned times. */
  ghost predicate OnPlan(stages: seq<Stage>, t: Tournament) {
    forall p, m :: p in Plan(stages, t) && m in AllMatches(stages) && m.id == p.matchId ==> KeepsTo(m, p)
  }

  lemma {:induction false} OneTimingEach(ts: seq<Timing>, p: Timing, q: Timing)
    requires NoDuplicates(TimingIds(ts)) && p in ts && q in ts && p.matchId == q.matchId
    ensures p == q
  {
    var i :| 0 <= i < |ts| && ts[i] == p;
    var j :| 0 <= j < |ts| && ts[j] == q;
    assert TimingIds(ts)[i] == TimingIds(ts)[j];
  }

  lemma {:induction false} OneMatchEach(ms: seq<Match>, a: Match, b: Match)
    requires NoDuplicates(MatchIds(ms)) && a in ms && b in ms && a.id == b.id
    ensures a == b
  {
    var i :| 0 <= i < |ms| && ms[i] == a;
    var j :| 0 <= j < |ms| && ms[j] == b;
    assert MatchIds(ms)[i] == MatchIds(ms)[j];
  }

  lemma {:induction false} RetimedTo(m: Match, ts: seq<Timing>, p: Timing)
    requires p.matchId == m.id && (forall q :: q in ts && q.matchId == m.id ==> q == p)
    ensures p in ts ==> KeepsTo(Retimed(m, ts), p)
    ensures p !in ts ==> Retimed(m, ts) == m
  {
    if ts != [] {
      var k := |ts| - 1;
      assert ts == ts[..k] + [ts[k]];
      RetimedTo(m, ts[..k], p);
    }
  }

  lemma {:induction false} WrittenMatch(ts: seq<Timing>, ms: seq<Match>, m: Match, p: Timing)
    requires Known(ts, ms) && NoDuplicates(TimingIds(ts)) && NoDuplicates(MatchIds(ms))
    requires m in ms && p in ts && p.matchId == m.id
    ensures KeepsTo(Retimed(m, Changed(ts, ms)), p)
  {
    forall q | q in Changed(ts, ms) && q.matchId == m.id
      ensures q == p
    {
      OneTimingEach(ts, p, q);
    }
    RetimedTo(m, Changed(ts, ms), p);
    OneMatchEach(ms, m, MatchById(ms, m.id).value);
  }

  /** Writing the changed timings puts every match on the plan. */
  lemma {:induction false} WrittenIsOnPlan(stages: seq<Stage>, t: Tournament)
    requires UniqueIds(stages) && Known(Plan(stages, t), AllMatches(stages))
    ensures var written := RetimeStages(stages, Changed(Plan(stages, t), AllMatches(stages)));
      UniqueIds(written) && OnPlan(written, t)
  {
    var ts, ms := Plan(stages, t), AllMatches(stages);
    var changed := Changed(ts, ms);
    var written := RetimeStages(stages, changed);
    PlanKept(stages, changed, t);
    PlanIds(stages, t);
    RetimeStagesMatches(stages, changed);
    RetimeKeepsIds(ms, changed);
    forall p, m | p in ts && m in AllMatches(written) && m.id == p.matchId
      ensures KeepsTo(m, p)
    {
      var i :| 0 <= i < |ms| && RetimeMatches(ms, changed)[i] == m;
      WrittenMatch(ts, ms, ms[i], p);
    }
  }

  /** Scheduling a second time writes nothing: there is nothing to write exactly when every match
      is on the plan. */
  lemma {:induction false} NothingToWriteIff(stages: seq<Stage>, t: Tournament)
    requires UniqueIds(stages) && Known(Plan(stages, t), AllMatches(stages))
    ensures Changed(Plan(stages, t), AllMatches(stages)) == [] <==> OnPlan(stages, t)
  {
    var ts, ms := Plan(stages, t), AllMatches(stages);
    var changed := Changed(ts, ms);
    if changed == [] {
      forall p, m | p in ts && m in ms && m.id == p.matchId
        ensures KeepsTo(m, p)
      {
        assert p !in changed;
        OneMatchEach(ms, m, MatchById(ms, m.id).value);
      }
    } else {
      var p := changed[0];
      assert p in changed && p in ts;
      assert MatchById(ms, p.matchId).value in ms;
    }
  }

  /** The flags of the listed matches are due, and those of other matches are as they were. */
  ghost predicate FlagsUpdated(before: Flags, after: Flags, listed: seq<Match>) {
    && (forall id :: id in ListedIds(listed) ==>
         && id in after
         && (after[id].0 <==> FlagDue(listed, id, First)) && (after[id].1 <==> FlagDue(listed, id, Second)))
    && (forall id :: id !in ListedIds(listed) ==> (id in after <==> id in before))
    && (forall id :: id !in ListedIds(listed) && id in before ==> after[id] == before[id])
  }

  lemma {:induction false} ReportWritten(before: Flags, listed: seq<Match>, toSet: Flags, toClear: set<MatchId>)
    requires IsReport(listed, toSet, toClear)
    ensures FlagsUpdated(before, before + toSet + (map id | id in toClear :: (false, false)), listed)
  {
    var after := before + toSet + (map id | id in toClear :: (false, false));
    forall id
      ensures id in ListedIds(listed) ==>
        && id in after
        && (after[id].0 <==> FlagDue(listed, id, First)) && (after[id].1 <==> FlagDue(listed, id, Second))
      ensures id !in ListedIds(listed) ==> id !in toSet && id !in toClear
    {
      assert id in ListedIds(listed) <==> id in toSet.Keys + toClear;
      assert id in toClear ==> id !in toSet.Keys;
    }
  }

  /** The stored tournament, with the conflict flags of its matches. */
  class Schedule {
    var stages: seq<Stage>
    var flags: Flags

    method UpdateTimings(ts: seq<Timing>)
      modifies this`stages
      ensures stages == RetimeStages(old(stages), ts)
    {
      RetimeNothing(stages);
      for k := 0 to |ts|
        invariant stages == RetimeStages(old(stages), ts[..k])
      {
        RetimeStagesAgain(old(stages), ts, k);
        stages := RetimeStages(stages, [ts[k]]);
      }
      assert ts[..|ts|] == ts;
    }

    method HandleConflicts()
      modifies this`flags
      ensures FlagsUpdated(old(flags), flags, AllMatches(stages))
    {
      var toSet, toClear := GetConflictingMatches(stages);
      ReportWritten(flags, AllMatches(stages), toSet, toClear);
      flags := flags + toSet + (map id | id in toClear :: (false, false));
    }

    /** Puts every match on the plan, writing only what changed. */
    method ScheduleAllMatches(t: Tournament) returns (changed: seq<Timing>)
      requires UniqueIds(stages)
      modifies this
      ensures Known(Plan(old(stages), t), AllMatches(old(stages)))
      ensures changed == Changed(Plan(old(stages), t), AllMatches(old(stages)))
      ensures stages == RetimeStages(old(stages), changed)
      ensures OnlyTimesDiffer(old(stages), stages)
      ensures UniqueIds(stages) && OnPlan(stages, t)
      ensures changed == [] <==> old(OnPlan(stages, t))
      ensures changed == [] ==> stages == old(stages) && flags == old(flags)
      ensures changed != [] ==> FlagsUpdated(old(flags), flags, AllMatches(stages))
    {
      PlanKnown(stages, t);
      WrittenIsOnPlan(stages, t);
      NothingToWriteIff(stages, t);
      RetimeKeeps(stages, Changed(Plan(stages, t), AllMatches(stages)));
      RetimeNothing(stages);
      var timings := PlanMatchTimings(stages, t);
      changed := Changed(timings, AllMatches(stages));
      if |changed| < 1 {
        return;
      }
      UpdateTimings(changed);
      HandleConflicts();
    }
  }

  // ----- No conflicts on the plan -----

  ghost predicate IsItem(stages: seq<Stage>, s: Stage, item: StageItem) { s in stages && item in s.stageItems }

  ghost predicate Owns(item: StageItem, x: Option<InputId>) { exists i :: i in item.inputs && x == Some(i.id) }

  ghost predicate UsesOwn(item: StageItem, m: Match) { Owns(item, m.input1) && Owns(item, m.input2) }

  /** Matches use only the inputs of their own item, and no two items have an input in common. */
  ghost predicate OwnInputs(stages: seq<Stage>) {
    && (forall s, item, m {:trigger IsItem(stages, s, item), UsesOwn(item, m)} ::
         IsItem(stages, s, item) && m in MatchesOf(item.rounds) && m.IsDefinitive() ==> UsesOwn(item, m))
    && (forall s, item, s', item', x {:trigger IsItem(stages, s, item), IsItem(stages, s', item'), Owns(item, x)} ::
         IsItem(stages, s, item) && IsItem(stages, s', item') && Owns(item, x) && Owns(item', x) ==> item == item')
  }

  /** No two matches of a round have an input in common. */
  ghost predicate OncePerRound(ms: seq<Match>) {
    forall a, b :: a in ms && b in ms && a.id != b.id && a.IsDefinitive() && b.IsDefinitive() ==> !ShareInput(a, b)
  }

  ghost predicate RoundsUseOnce(stages: seq<Stage>) {
    forall s, item, r :: IsItem(stages, s, item) && r in item.rounds ==> OncePerRound(r.matches)
  }

  lemma {:induction false} FromItemList(items: seq<StageItem>, m: Match) returns (item: StageItem)
    requires m in MatchesOfItems(items)
    ensures item in items && m in MatchesOf(item.rounds)
  {
    if m in MatchesOf(items[0].rounds) {
      item := items[0];
    } else {
      item := FromItemList(items[1..], m);
    }
  }

  lemma {:induction false} FromAllMatches(stages: seq<Stage>, m: Match) returns (s: Stage, item: StageItem)
    requires m in AllMatches(stages)
    ensures IsItem(stages, s, item) && m in MatchesOf(item.rounds)
  {
    if m in MatchesOfItems(stages[0].stageItems) {
      s := stages[0];
      item := FromItemList(s.stageItems, m);
    } else {
      s, item := FromAllMatches(stages[1..], m);
    }
  }

  lemma {:induction false} RoundOf(item: StageItem, m: Match) returns (k: nat)
    requires m in MatchesOf(item.rounds)
    ensures k < |OrderItem(item).rounds| && m in OrderItem(item).rounds[k].matches
    ensures OrderItem(item).rounds[k] in item.rounds
  {
    var sorted := Sort(RoundById, item.rounds);
    var i := FromMatchesOf(item.rounds, m);
    MemberOfPermutation(item.rounds, sorted, item.rounds[i]);
    k :| k < |sorted| && sorted[k] == item.rounds[i];
  }

  /** Where an item is in playing order. */
  lemma {:induction false} OrderedItemAt(items: seq<StageItem>, item: StageItem) returns (j: nat)
    requires item in items
    ensures j < |OrderItems(items)| && OrderItems(items)[j] == OrderItem(item)
  {
    var k := |items| - 1;
    assert items == items[..k] + [items[k]];
    if item == items[k] {
      j := k;
    } else {
      j := OrderedItemAt(items[..k], item);
    }
  }

  lemma {:induction false} OrderedStageAt(stages: seq<Stage>, stage: Stage) returns (j: nat)
    requires stage in stages
    ensures j < |OrderStages(stages)| && OrderStages(stages)[j] == OrderStage(stage)
  {
    var k := |stages| - 1;
    assert stages == stages[..k] + [stages[k]];
    if stage == stages[k] {
      j := k;
    } else {
      j := OrderedStageAt(stages[..k], stage);
    }
  }

  lemma {:induction false} PlayedAt(stages: seq<Stage>, s: Stage, item: StageItem) returns (i: nat, j: nat)
    requires IsItem(stages, s, item)
    ensures i < |InPlayingOrder(stages)| && InPlayingOrder(stages)[i] == OrderStage(s)
    ensures j < |OrderStage(s).stageItems| && OrderStage(s).stageItems[j] == OrderItem(item)
  {
    var sorted := Sort(StageById, stages);
    MemberOfPermutation(sorted, stages, s);
    i := OrderedStageAt(sorted, s);
    j := OrderedItemAt(s.stageItems, item);
  }

  /** The plan has a timing for match `m`, which is in a stage with match duration `d`. */
  ghost predicate HasTiming(ts: seq<Timing>, m: Match, d: nat, t: Tournament) {
    exists start :: TimingOf(m, start, d, t) in ts
  }

  lemma {:induction false} RoundHasTiming(ms: seq<Match>, m: Match, start: Minutes, d: nat, t: Tournament)
    requires m in ms
    ensures HasTiming(PlanRound(ms, start, d, t), m, d, t)
  {
    var k := |ms| - 1;
    assert ms == ms[..k] + [ms[k]];
    if m == ms[k] {
      assert TimingOf(m, start, d, t) in PlanRound(ms, start, d, t);
    } else {
      RoundHasTiming(ms[..k], m, start, d, t);
    }
  }

  lemma {:induction false} RoundsHaveTiming(
      rounds: seq<Round>, i: nat, m: Match, start: Minutes, d: nat, t: Tournament)
    requires i < |rounds| && m in rounds[i].matches
    ensures HasTiming(PlanRounds(rounds, start, d, t), m, d, t)
  {
    var k := |rounds| - 1;
    if i == k {
      RoundHasTiming(rounds[k].matches, m, start + RoundsMinutes(rounds[..k], d, t), d, t);
    } else {
      RoundsHaveTiming(rounds[..k], i, m, start, d, t);
    }
  }

  lemma {:induction false} ItemsHaveTiming(
      items: seq<StageItem>, j: nat, i: nat, m: Match, start: Minutes, d: nat, t: Tournament)
    requires j < |items| && i < |items[j].rounds| && m in items[j].rounds[i].matches
    ensures HasTiming(PlanItems(items, start, d, t), m, d, t)
  {
    var k := |items| - 1;
    if j == k {
      RoundsHaveTiming(items[k].rounds, i, m, start, d, t);
    } else {
      ItemsHaveTiming(items[..k], j, i, m, start, d, t);
    }
  }

  lemma {:induction false} StagesHaveTiming(stages: seq<Stage>, n: nat, j: nat, i: nat, m: Match, t: Tournament)
    requires n < |stages| && j < |stages[n].stageItems|
    requires i < |stages[n].stageItems[j].rounds| && m in stages[n].stageItems[j].rounds[i].matches
    ensures HasTiming(PlanStages(stages, t), m, StageDuration(stages[n], t), t)
  {
    var k := |stages| - 1;
    if n == k {
      ItemsHaveTiming(stages[k].stageItems, j, i, m, t.start + StagesMinutes(stages[..k], t),
        StageDuration(stages[k], t), t);
    } else {
      StagesHaveTiming(stages[..k], n, j, i, m, t);
    }
  }

  lemma {:induction false} PlanHasTiming(stages: seq<Stage>, s: Stage, item: StageItem, m: Match, t: Tournament)
    requires IsItem(stages, s, item) && m in MatchesOf(item.rounds)
    ensures HasTiming(Plan(stages, t), m, StageDuration(s, t), t)
  {
    var n, j := PlayedAt(stages, s, item);
    var i := RoundOf(item, m);
    StagesHaveTiming(InPlayingOrder(stages), n, j, i, m, t);
  }

  function StartOf(ms: seq<Match>, id: MatchId): Minutes {
    var m := MatchById(ms, id);
    if m.Some? && m.value.start.Some? then m.value.start.value else 0
  }

  lemma {:induction false} StoredIsPlanned(stages: seq<Stage>, t: Tournament)
    requires OnPlan(stages, t)
    ensures IsPlanned(Plan(stages, t), (id: MatchId) => StartOf(AllMatches(stages), id))
  {
    PlanKnown(stages, t);
    forall p | p in Plan(stages, t)
      ensures StartOf(AllMatches(stages), p.matchId) == p.start
    {
      assert KeepsTo(MatchById(AllMatches(stages), p.matchId).value, p);
    }
  }

  /** What the times of a match on the plan are. */
  lemma {:induction false} OnPlanTimes(stages: seq<Stage>, s: Stage, item: StageItem, m: Match, t: Tournament)
    requires OnPlan(stages, t)
    requires IsItem(stages, s, item) && m in MatchesOf(item.rounds) && m in AllMatches(stages)
    ensures m.start == Some(StartOf(AllMatches(stages), m.id))
    ensures m.duration + m.margin == Length(m, StageDuration(s, t), t)
  {
    PlanHasTiming(stages, s, item, m, t);
    var start :| TimingOf(m, start, StageDuration(s, t), t) in Plan(stages, t);
    var p := TimingOf(m, start, StageDuration(s, t), t);
    assert KeepsTo(m, p);
    assert KeepsTo(MatchById(AllMatches(stages), m.id).value, p);
  }

  lemma {:induction false} InAllMatches(stages: seq<Stage>, s: Stage, item: StageItem, m: Match)
    requires IsItem(stages, s, item) && m in MatchesOf(item.rounds)
    ensures m in AllMatches(stages)
  {
    var i :| 0 <= i < |s.stageItems| && s.stageItems[i] == item;
    InMatchesOfItems(s.stageItems, i, m);
    if stages[0] != s { InAllMatches(stages[1..], s, item, m); }
  }

  /** What the lengths of the matches on the plan are: their own if they have one, otherwise that of
      the stage or, failing that, of the tournament. */
  lemma {:induction false} OnPlanLengths(stages: seq<Stage>, s: Stage, item: StageItem, m: Match, t: Tournament)
    requires OnPlan(stages, t) && IsItem(stages, s, item) && m in MatchesOf(item.rounds)
    ensures m.duration == if m.customDuration.Some? then m.customDuration.value
                          else if s.customDuration.Some? then s.customDuration.value
                          else t.duration
    ensures m.margin == if m.customMargin.Some? then m.customMargin.value else t.margin
  {
    InAllMatches(stages, s, item, m);
    PlanHasTiming(stages, s, item, m, t);
    var start :| TimingOf(m, start, StageDuration(s, t), t) in Plan(stages, t);
    assert KeepsTo(m, TimingOf(m, start, StageDuration(s, t), t));
  }

  /** No feasible assignment starts a match before the time it has on the plan. */
  lemma {:induction false} OnPlanIsEarliest(
      stages: seq<Stage>, s: Stage, item: StageItem, m: Match, t: Tournament, f: Starts)
    requires OnPlan(stages, t) && IsItem(stages, s, item) && m in MatchesOf(item.rounds)
    requires Planning.ProperIds(stages) && Feasible(stages, f, t)
    ensures m.start.Some? && m.start.value <= f(m.id)
  {
    InAllMatches(stages, s, item, m);
    PlanHasTiming(stages, s, item, m, t);
    var start :| TimingOf(m, start, StageDuration(s, t), t) in Plan(stages, t);
    assert KeepsTo(m, TimingOf(m, start, StageDuration(s, t), t));
    PlanIsEarliest(stages, t, f);
  }

  ghost predicate RoundBefore(rounds: seq<Round>, a: Match, b: Match) {
    exists r, q :: r in rounds && q in rounds && r.id < q.id && a in r.matches && b in q.matches
  }

  lemma {:induction false} InStage(s: Stage, item: StageItem, m: Match)
    requires item in s.stageItems && m in MatchesOf(item.rounds)
    ensures m in MatchesOfStage(s)
  {
    var i :| 0 <= i < |s.stageItems| && s.stageItems[i] == item;
    InMatchesOfItems(s.stageItems, i, m);
  }

  lemma {:induction false} StageFollows(
      stages: seq<Stage>, s: Stage, a: Match, s': Stage, b: Match, f: Starts, t: Tournament)
    requires Feasible(stages, f, t) && s in stages && s' in stages && s.id < s'.id
    requires a in MatchesOfStage(s) && b in MatchesOfStage(s')
    ensures f(a.id) + Length(a, StageDuration(s, t), t) <= f(b.id)
  {
    assert StageBefore(s, s', f, t);
    assert StageOverBy(s, f(b.id), f, t);
  }

  lemma {:induction false} RoundFollows(
      stages: seq<Stage>, s: Stage, item: StageItem, a: Match, b: Match, f: Starts, t: Tournament)
    requires Feasible(stages, f, t) && IsItem(stages, s, item) && RoundBefore(item.rounds, a, b)
    ensures f(a.id) + Length(a, StageDuration(s, t), t) <= f(b.id)
  {
    var r, q :| r in item.rounds && q in item.rounds && r.id < q.id && a in r.matches && b in q.matches;
    assert ItemsFollow(s, f, t);
    assert RoundsFollow(item.rounds, f, StageDuration(s, t), t);
    assert OverBy(r.matches, f(b.id), f, StageDuration(s, t), t);
  }

  lemma {:induction false} NotBeforeTournament(stages: seq<Stage>, s: Stage, m: Match, f: Starts, t: Tournament)
    requires Feasible(stages, f, t) && s in stages && m in MatchesOfStage(s)
    ensures t.start <= f(m.id)
  {
    assert NotBefore(MatchesOfStage(s), t.start, f);
  }

  /** On the plan nothing starts before the tournament, and the matches of a stage, or of a round of an
      item, are over when one of a stage or round with a larger id starts. */
  lemma {:induction false} OnPlanFollows(
      stages: seq<Stage>, s: Stage, item: StageItem, a: Match, s': Stage, item': StageItem, b: Match, t: Tournament)
    requires OnPlan(stages, t)
    requires IsItem(stages, s, item) && a in MatchesOf(item.rounds)
    requires IsItem(stages, s', item') && b in MatchesOf(item'.rounds)
    requires s.id < s'.id || (s == s' && item == item' && RoundBefore(item.rounds, a, b))
    ensures a.start.Some? && b.start.Some? && t.start <= a.start.value
    ensures a.start.value + a.duration + a.margin <= b.start.value
  {
    var f: Starts := (id: MatchId) => StartOf(AllMatches(stages), id);
    StoredIsPlanned(stages, t);
    PlanIsFeasible(stages, t, f);
    InAllMatches(stages, s, item, a);
    InAllMatches(stages, s', item', b);
    OnPlanTimes(stages, s, item, a, t);
    OnPlanTimes(stages, s', item', b, t);
    InStage(s, item, a);
    InStage(s', item', b);
    NotBeforeTournament(stages, s, a, f, t);
    if s.id < s'.id {
      StageFollows(stages, s, a, s', b, f, t);
    } else {
      RoundFollows(stages, s, item, a, b, f, t);
    }
  }

  /** `a` is over when `b` starts. */
  predicate Precedes(a: Match, b: Match) {
    a.start.Some? && b.start.Some? && a.End() <= b.start.value
  }

  lemma {:induction false} EarlierRoundPrecedes(
      stages: seq<Stage>, s: Stage, item: StageItem, i: nat, a: Match, j: nat, b: Match, t: Tournament)
    requires OnPlan(stages, t) && IsItem(stages, s, item)
    requires i < j < |OrderItem(item).rounds|
    requires a in OrderItem(item).rounds[i].matches && b in OrderItem(item).rounds[j].matches
    requires a in MatchesOf(item.rounds) && b in MatchesOf(item.rounds)
    requires a in AllMatches(stages) && b in AllMatches(stages)
    ensures Precedes(a, b)
  {
    var f: Starts := (id: MatchId) => StartOf(AllMatches(stages), id);
    var d, rounds := StageDuration(s, t), OrderItem(item).rounds;
    var n, k := PlayedAt(stages, s, item);
    StoredIsPlanned(stages, t);
    PlanKeepsRoundOrder(InPlayingOrder(stages), t, f);
    assert ItemsInOrder(OrderStage(s).stageItems, f, d, t);
    assert AllBefore(rounds[i].matches, rounds[j].matches, f, d, t);
    assert OverBy(rounds[i].matches, f(b.id), f, d, t);
    OnPlanTimes(stages, s, item, a, t);
    OnPlanTimes(stages, s, item, b, t);
  }

  /** On the plan, of two matches with an input in common one is over before the other starts. */
  lemma {:induction false} SharedInputsApart(stages: seq<Stage>, a: Match, b: Match, t: Tournament)
    requires OnPlan(stages, t) && OwnInputs(stages) && RoundsUseOnce(stages)
    requires a in AllMatches(stages) && b in AllMatches(stages) && a.id != b.id
    requires a.IsDefinitive() && b.IsDefinitive() && ShareInput(a, b)
    ensures Precedes(a, b) || Precedes(b, a)
  {
    var s, item := FromAllMatches(stages, a);
    var s', item' := FromAllMatches(stages, b);
    assert UsesOwn(item, a) && UsesOwn(item', b);
    assert item == item';
    var i := RoundOf(item, a);
    var j := RoundOf(item, b);
    if i < j {
      EarlierRoundPrecedes(stages, s, item, i, a, j, b, t);
    } else if j < i {
      EarlierRoundPrecedes(stages, s', item, j, b, i, a, t);
    } else {
      assert false;
    }
  }

  /** So the detector has nothing to set and clears every match: no match of positive length takes
      part in a conflict. */
  lemma {:induction false} NoConflictsOnPlan(
      stages: seq<Stage>, t: Tournament, toSet: Flags, toClear: set<MatchId>)
    requires OnPlan(stages, t) && OwnInputs(stages) && RoundsUseOnce(stages)
    requires forall m :: m in AllMatches(stages) ==> m.duration + m.margin > 0
    requires IsReport(AllMatches(stages), toSet, toClear)
    ensures toSet == map[] && toClear == ListedIds(AllMatches(stages))
  {
    var ms := AllMatches(stages);
    forall id, side
      ensures !FlagDue(ms, id, side)
    {
      if FlagDue(ms, id, side) {
        var k: nat, o: nat :| k < |ms| && o < |ms| && ms[k].id == id
          && ConflictsAt(ms, k, o, side);
        var a, b := ms[k], ms[o];
        assert a in ms && b in ms && ShareInput(a, b);
        SharedInputsApart(stages, a, b, t);
        OverlapsMissed(a, b);
        OverlapsMissed(b, a);
        assert false;
      }
    }
    assert toSet.Keys == {};
  }
}
