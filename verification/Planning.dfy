/** The planner: a start and a length for each match. */
module Planning {
  import opened Models
  import opened Sorting

  datatype Timing = Timing(matchId: MatchId, start: Minutes, duration: nat, margin: nat)

  function Max(a: int, b: int): int { if a < b then b else a }

  // ----- Playing order -----

  predicate StageById(a: Stage, b: Stage) { a.id < b.id }

  function OrderItem(item: StageItem): StageItem { item.(rounds := Sort(RoundById, item.rounds)) }

  function OrderItems(items: seq<StageItem>): (r: seq<StageItem>)
    ensures |r| == |items|
  {
    if items == [] then [] else OrderItems(items[..|items| - 1]) + [OrderItem(items[|items| - 1])]
  }

  function OrderStage(stage: Stage): Stage { stage.(stageItems := OrderItems(stage.stageItems)) }

  function OrderStages(stages: seq<Stage>): (r: seq<Stage>)
    ensures |r| == |stages|
  {
    if stages == [] then [] else OrderStages(stages[..|stages| - 1]) + [OrderStage(stages[|stages| - 1])]
  }

  /** Stages are played by id, and so are the rounds of each of their items. */
  function InPlayingOrder(stages: seq<Stage>): seq<Stage> { OrderStages(Sort(StageById, stages)) }

  // ----- The plan of a tournament in playing order -----

  function StageDuration(stage: Stage, t: Tournament): nat {
    if stage.customDuration.Some? then stage.customDuration.value else t.duration
  }

  /** `d` is the duration in the stage, which only counts for matches without one of their own. */
  function DurationOf(m: Match, d: nat): nat {
    if m.customDuration.Some? then m.customDuration.value else d
  }

  function MarginOf(m: Match, t: Tournament): nat {
    if m.customMargin.Some? then m.customMargin.value else t.margin
  }

  function Length(m: Match, d: nat, t: Tournament): nat {
    DurationOf(m, d) + MarginOf(m, t)
  }

  function TimingOf(m: Match, start: Minutes, d: nat, t: Tournament): Timing {
    Timing(m.id, start, DurationOf(m, d), MarginOf(m, t))
  }

  function PlanRound(ms: seq<Match>, start: Minutes, d: nat, t: Tournament): seq<Timing> {
    if ms == [] then [] else PlanRound(ms[..|ms| - 1], start, d, t) + [TimingOf(ms[|ms| - 1], start, d, t)]
  }

  /** The longest match, with its margin. */
  function RoundMinutes(ms: seq<Match>, d: nat, t: Tournament): nat {
    if ms == [] then 0 else Max(RoundMinutes(ms[..|ms| - 1], d, t), Length(ms[|ms| - 1], d, t))
  }

  function RoundsMinutes(rounds: seq<Round>, d: nat, t: Tournament): nat {
    if rounds == [] then 0
    else RoundsMinutes(rounds[..|rounds| - 1], d, t) + RoundMinutes(rounds[|rounds| - 1].matches, d, t)
  }

  function PlanRounds(rounds: seq<Round>, start: Minutes, d: nat, t: Tournament): seq<Timing> {
    if rounds == [] then []
    else
      var k := |rounds| - 1;
      PlanRounds(rounds[..k], start, d, t)
      + PlanRound(rounds[k].matches, start + RoundsMinutes(rounds[..k], d, t), d, t)
  }

  function PlanItems(items: seq<StageItem>, start: Minutes, d: nat, t: Tournament): seq<Timing> {
    if items == [] then []
    else PlanItems(items[..|items| - 1], start, d, t) + PlanRounds(items[|items| - 1].rounds, start, d, t)
  }

  /** The longest of the items, which start together. */
  function ItemsMinutes(items: seq<StageItem>, d: nat, t: Tournament): nat {
    if items == [] then 0
    else Max(ItemsMinutes(items[..|items| - 1], d, t), RoundsMinutes(items[|items| - 1].rounds, d, t))
  }

  function StageMinutes(stage: Stage, t: Tournament): nat {
    ItemsMinutes(stage.stageItems, StageDuration(stage, t), t)
  }

  function StagesMinutes(stages: seq<Stage>, t: Tournament): nat {
    if stages == [] then 0
    else StagesMinutes(stages[..|stages| - 1], t) + StageMinutes(stages[|stages| - 1], t)
  }

  function PlanStage(stage: Stage, start: Minutes, t: Tournament): seq<Timing> {
    PlanItems(stage.stageItems, start, StageDuration(stage, t), t)
  }

  function PlanStages(stages: seq<Stage>, t: Tournament): seq<Timing> {
    if stages == [] then []
    else
      var k := |stages| - 1;
      PlanStages(stages[..k], t) + PlanStage(stages[k], t.start + StagesMinutes(stages[..k], t), t)
  }

  function Plan(stages: seq<Stage>, t: Tournament): seq<Timing> {
    PlanStages(InPlayingOrder(stages), t)
  }

  // ----- The planner -----

  lemma {:induction false} Prefix<T>(s: seq<T>, k: nat)
    requires k < |s|
    ensures s[..k + 1] != [] && |s[..k + 1]| == k + 1
    ensures s[..k + 1][..k] == s[..k] && s[..k + 1][k] == s[k]
  {
  }

  lemma {:induction false} Appended<T>(s: seq<T>, x: T)
    ensures (s + [x])[..|s|] == s && (s + [x])[|s|] == x
  {
  }

  lemma {:induction false} NextMatch(ms: seq<Match>, k: nat, start: Minutes, d: nat, t: Tournament)
    requires k < |ms|
    ensures PlanRound(ms[..k + 1], start, d, t) == PlanRound(ms[..k], start, d, t) + [TimingOf(ms[k], start, d, t)]
    ensures RoundMinutes(ms[..k + 1], d, t) == Max(RoundMinutes(ms[..k], d, t), Length(ms[k], d, t))
  {
    Prefix(ms, k);
  }

  lemma {:induction false} NextRound(rounds: seq<Round>, k: nat, start: Minutes, d: nat, t: Tournament)
    requires k < |rounds|
    ensures PlanRounds(rounds[..k + 1], start, d, t) == PlanRounds(rounds[..k], start, d, t)
              + PlanRound(rounds[k].matches, start + RoundsMinutes(rounds[..k], d, t), d, t)
    ensures RoundsMinutes(rounds[..k + 1], d, t)
         == RoundsMinutes(rounds[..k], d, t) + RoundMinutes(rounds[k].matches, d, t)
  {
    Prefix(rounds, k);
  }

  lemma {:induction false} NextItem(items: seq<StageItem>, item: StageItem, start: Minutes, d: nat, t: Tournament)
    ensures PlanItems(items + [item], start, d, t)
         == PlanItems(items, start, d, t) + PlanRounds(item.rounds, start, d, t)
    ensures ItemsMinutes(items + [item], d, t) == Max(ItemsMinutes(items, d, t), RoundsMinutes(item.rounds, d, t))
  {
    Appended(items, item);
  }

  lemma {:induction false} NextOrderedItem(items: seq<StageItem>, k: nat)
    requires k < |items|
    ensures OrderItems(items[..k + 1]) == OrderItems(items[..k]) + [OrderItem(items[k])]
  {
    Prefix(items, k);
  }

  lemma {:induction false} NextStage(stages: seq<Stage>, stage: Stage, t: Tournament)
    ensures PlanStages(stages + [stage], t)
         == PlanStages(stages, t) + PlanStage(stage, t.start + StagesMinutes(stages, t), t)
    ensures StagesMinutes(stages + [stage], t) == StagesMinutes(stages, t) + StageMinutes(stage, t)
  {
    Appended(stages, stage);
  }

  lemma {:induction false} NextOrderedStage(stages: seq<Stage>, k: nat)
    requires k < |stages|
    ensures OrderStages(stages[..k + 1]) == OrderStages(stages[..k]) + [OrderStage(stages[k])]
  {
    Prefix(stages, k);
  }

  method PlanMatches(ms: seq<Match>, roundStart: Minutes, d: nat, t: Tournament)
      returns (timings: seq<Timing>, roundMinutes: nat)
    ensures timings == PlanRound(ms, roundStart, d, t)
    ensures roundMinutes == RoundMinutes(ms, d, t)
  {
    timings, roundMinutes := [], 0;
    for k := 0 to |ms|
      invariant timings == PlanRound(ms[..k], roundStart, d, t)
      invariant roundMinutes == RoundMinutes(ms[..k], d, t)
    {
      var m := ms[k];
      var duration := if m.customDuration.None? then d else m.customDuration.value;
      var margin := if m.customMargin.None? then t.margin else m.customMargin.value;
      timings := timings + [Timing(m.id, roundStart, duration, margin)];
      roundMinutes := Max(roundMinutes, duration + margin);
      NextMatch(ms, k, roundStart, d, t);
    }
    assert ms[..|ms|] == ms;
  }

  method PlanInSequence(rounds: seq<Round>, stageStart: Minutes, d: nat, t: Tournament)
      returns (timings: seq<Timing>, roundStart: Minutes)
    ensures timings == PlanRounds(rounds, stageStart, d, t)
    ensures roundStart == stageStart + RoundsMinutes(rounds, d, t)
  {
    timings, roundStart := [], stageStart;
    for i := 0 to |rounds|
      invariant timings == PlanRounds(rounds[..i], stageStart, d, t)
      invariant roundStart == stageStart + RoundsMinutes(rounds[..i], d, t)
    {
      var roundTimings, roundMinutes := PlanMatches(rounds[i].matches, roundStart, d, t);
      NextRound(rounds, i, stageStart, d, t);
      timings := timings + roundTimings;
      roundStart := roundStart + roundMinutes;
    }
    assert rounds[..|rounds|] == rounds;
  }

  method PlanItem(item: StageItem, stageStart: Minutes, d: nat, t: Tournament)
      returns (timings: seq<Timing>, itemEnd: Minutes)
    ensures timings == PlanRounds(OrderItem(item).rounds, stageStart, d, t)
    ensures itemEnd == stageStart + RoundsMinutes(OrderItem(item).rounds, d, t)
  {
    timings, itemEnd := PlanInSequence(Sort(RoundById, item.rounds), stageStart, d, t);
  }

  method PlanParallel(items: seq<StageItem>, stageStart: Minutes, d: nat, t: Tournament)
      returns (timings: seq<Timing>, stageEnd: Minutes)
    ensures timings == PlanItems(OrderItems(items), stageStart, d, t)
    ensures stageEnd == stageStart + ItemsMinutes(OrderItems(items), d, t)
  {
    timings, stageEnd := [], stageStart;
    for k := 0 to |items|
      invariant timings == PlanItems(OrderItems(items[..k]), stageStart, d, t)
      invariant stageEnd == stageStart + ItemsMinutes(OrderItems(items[..k]), d, t)
    {
      var itemTimings, itemEnd := PlanItem(items[k], stageStart, d, t);
      NextOrderedItem(items, k);
      NextItem(OrderItems(items[..k]), OrderItem(items[k]), stageStart, d, t);
      timings := timings + itemTimings;
      stageEnd := Max(stageEnd, itemEnd);
    }
    assert items[..|items|] == items;
  }

  method PlanOneStage(stage: Stage, stageStart: Minutes, t: Tournament)
      returns (timings: seq<Timing>, stageEnd: Minutes)
    ensures timings == PlanStage(OrderStage(stage), stageStart, t)
    ensures stageEnd == stageStart + StageMinutes(OrderStage(stage), t)
  {
    var d := if stage.customDuration.None? then t.duration else stage.customDuration.value;
    timings, stageEnd := PlanParallel(stage.stageItems, stageStart, d, t);
  }

  lemma {:induction false} PlanExtended(
      stages: seq<Stage>, stage: Stage, planned: seq<Timing>, stageStart: Minutes, t: Tournament)
    requires planned == PlanStages(stages, t) && stageStart == t.start + StagesMinutes(stages, t)
    ensures planned + PlanStage(stage, stageStart, t) == PlanStages(stages + [stage], t)
    ensures stageStart + StageMinutes(stage, t) == t.start + StagesMinutes(stages + [stage], t)
  {
    NextStage(stages, stage, t);
  }

  /** Plans one more stage. */
  method ExtendPlan(ghost before: seq<Stage>, stage: Stage, planned: seq<Timing>, stageStart: Minutes, t: Tournament)
      returns (timings: seq<Timing>, stageEnd: Minutes)
    requires planned == PlanStages(before, t) && stageStart == t.start + StagesMinutes(before, t)
    ensures timings == PlanStages(before + [OrderStage(stage)], t)
    ensures stageEnd == t.start + StagesMinutes(before + [OrderStage(stage)], t)
  {
    PlanExtended(before, OrderStage(stage), planned, stageStart, t);
    var stageTimings;
    stageTimings, stageEnd := PlanOneStage(stage, stageStart, t);
    timings := planned + stageTimings;
  }

  method PlanInOrder(sorted: seq<Stage>, t: Tournament) returns (timings: seq<Timing>)
    ensures timings == PlanStages(OrderStages(sorted), t)
  {
    timings := [];
    var stageStart := t.start;
    ghost var before := [];
    for i := 0 to |sorted|
      invariant before == OrderStages(sorted[..i])
      invariant timings == PlanStages(before, t)
      invariant stageStart == t.start + StagesMinutes(before, t)
    {
      timings, stageStart := ExtendPlan(before, sorted[i], timings, stageStart, t);
      NextOrderedStage(sorted, i);
      before := before + [OrderStage(sorted[i])];
    }
    assert sorted[..|sorted|] == sorted;
  }

  method PlanMatchTimings(stages: seq<Stage>, t: Tournament) returns (timings: seq<Timing>)
    ensures timings == Plan(stages, t)
  {
    timings := PlanInOrder(Sort(StageById, stages), t);
  }

  // ----- Feasible assignments -----

  type Starts = MatchId -> Minutes

  /** The matches are over at `x`. */
  ghost predicate OverBy(ms: seq<Match>, x: Minutes, f: Starts, d: nat, t: Tournament) {
    forall m :: m in ms ==> f(m.id) + Length(m, d, t) <= x
  }

  ghost predicate NotBefore(ms: seq<Match>, x: Minutes, f: Starts) {
    forall m :: m in ms ==> x <= f(m.id)
  }

  ghost predicate AllBefore(a: seq<Match>, b: seq<Match>, f: Starts, d: nat, t: Tournament) {
    forall m :: m in b ==> OverBy(a, f(m.id), f, d, t)
  }

  /** Every match of a round is over when a later round starts. */
  ghost predicate RoundsInOrder(rounds: seq<Round>, f: Starts, d: nat, t: Tournament) {
    forall i, j :: 0 <= i < j < |rounds| ==> AllBefore(rounds[i].matches, rounds[j].matches, f, d, t)
  }

  ghost predicate ItemsInOrder(items: seq<StageItem>, f: Starts, d: nat, t: Tournament) {
    forall i :: 0 <= i < |items| ==> RoundsInOrder(items[i].rounds, f, d, t)
  }

  function MatchesOfStage(stage: Stage): seq<Match> { MatchesOfItems(stage.stageItems) }

  ghost predicate StageOverBy(stage: Stage, x: Minutes, f: Starts, t: Tournament) {
    OverBy(MatchesOfStage(stage), x, f, StageDuration(stage, t), t)
  }

  /** Every match of stage `a` is over when a match of stage `b` starts. */
  ghost predicate StageBefore(a: Stage, b: Stage, f: Starts, t: Tournament) {
    forall m :: m in MatchesOfStage(b) ==> StageOverBy(a, f(m.id), f, t)
  }

  ghost predicate NothingEarly(stages: seq<Stage>, f: Starts, t: Tournament) {
    forall i :: 0 <= i < |stages| ==> NotBefore(MatchesOfStage(stages[i]), t.start, f)
  }

  ghost predicate EachItemInOrder(stages: seq<Stage>, f: Starts, t: Tournament) {
    forall i :: 0 <= i < |stages| ==> ItemsInOrder(stages[i].stageItems, f, StageDuration(stages[i], t), t)
  }

  ghost predicate StagesInOrder(stages: seq<Stage>, f: Starts, t: Tournament) {
    forall i, j :: 0 <= i < j < |stages| ==> StageBefore(stages[i], stages[j], f, t)
  }

  /** For stages and rounds listed in playing order: nothing starts before the tournament, the rounds
      of an item follow each other, and so do the stages. */
  ghost predicate FeasibleInOrder(stages: seq<Stage>, f: Starts, t: Tournament) {
    && NothingEarly(stages, f, t)
    && EachItemInOrder(stages, f, t)
    && StagesInOrder(stages, f, t)
  }

  ghost predicate EachOverBy(stages: seq<Stage>, x: Minutes, f: Starts, t: Tournament) {
    forall i :: 0 <= i < |stages| ==> StageOverBy(stages[i], x, f, t)
  }

  ghost predicate NoLater(timings: seq<Timing>, f: Starts) {
    forall p :: p in timings ==> p.start <= f(p.matchId)
  }

  // ----- The plan is the earliest -----

  lemma {:induction false} LongestMatch(ms: seq<Match>, d: nat, t: Tournament, f: Starts, lo: Minutes, x: Minutes)
    requires NotBefore(ms, lo, f) && OverBy(ms, x, f, d, t) && lo <= x
    ensures lo + RoundMinutes(ms, d, t) <= x
  {
    if ms != [] {
      var k := |ms| - 1;
      assert ms[k] in ms && forall m :: m in ms[..k] ==> m in ms;
      LongestMatch(ms[..k], d, t, f, lo, x);
    }
  }

  lemma {:induction false} RoundNoLater(ms: seq<Match>, start: Minutes, d: nat, t: Tournament, f: Starts)
    requires NotBefore(ms, start, f)
    ensures NoLater(PlanRound(ms, start, d, t), f)
  {
    if ms != [] {
      var k := |ms| - 1;
      assert ms[k] in ms && forall m :: m in ms[..k] ==> m in ms;
      RoundNoLater(ms[..k], start, d, t, f);
    }
  }

  /** When everything in the rounds is over by `x`, so is the plan. */
  lemma {:induction false} RoundsOverBy(
      rounds: seq<Round>, start: Minutes, d: nat, t: Tournament, f: Starts, x: Minutes)
    requires RoundsInOrder(rounds, f, d, t) && start <= x
    requires forall i :: 0 <= i < |rounds| ==> NotBefore(rounds[i].matches, start, f)
    requires forall i :: 0 <= i < |rounds| ==> OverBy(rounds[i].matches, x, f, d, t)
    ensures start + RoundsMinutes(rounds, d, t) <= x
    decreases |rounds|, 0
  {
    if rounds != [] {
      var k := |rounds| - 1;
      var lo := start + RoundsMinutes(rounds[..k], d, t);
      RoundsOverBy(rounds[..k], start, d, t, f, x);
      RoundStarts(rounds, k, start, d, t, f);
      LongestMatch(rounds[k].matches, d, t, f, lo, x);
    }
  }

  /** No match of round `k` can start before the plan lets it. */
  lemma {:induction false} RoundStarts(rounds: seq<Round>, k: nat, start: Minutes, d: nat, t: Tournament, f: Starts)
    requires k < |rounds| && RoundsInOrder(rounds, f, d, t)
    requires forall i :: 0 <= i < |rounds| ==> NotBefore(rounds[i].matches, start, f)
    ensures NotBefore(rounds[k].matches, start + RoundsMinutes(rounds[..k], d, t), f)
    decreases k, 1
  {
    forall m | m in rounds[k].matches
      ensures start + RoundsMinutes(rounds[..k], d, t) <= f(m.id)
    {
      forall i | 0 <= i < k
        ensures OverBy(rounds[..k][i].matches, f(m.id), f, d, t)
      {
        assert AllBefore(rounds[i].matches, rounds[k].matches, f, d, t);
      }
      RoundsOverBy(rounds[..k], start, d, t, f, f(m.id));
    }
  }

  lemma {:induction false} RoundsNoLater(rounds: seq<Round>, start: Minutes, d: nat, t: Tournament, f: Starts)
    requires RoundsInOrder(rounds, f, d, t)
    requires forall i :: 0 <= i < |rounds| ==> NotBefore(rounds[i].matches, start, f)
    ensures NoLater(PlanRounds(rounds, start, d, t), f)
    decreases |rounds|
  {
    if rounds != [] {
      var k := |rounds| - 1;
      RoundsNoLater(rounds[..k], start, d, t, f);
      RoundStarts(rounds, k, start, d, t, f);
      RoundNoLater(rounds[k].matches, start + RoundsMinutes(rounds[..k], d, t), d, t, f);
    }
  }

  lemma {:induction false} InMatchesOf(rounds: seq<Round>, i: nat, m: Match)
    requires i < |rounds| && m in rounds[i].matches
    ensures m in MatchesOf(rounds)
  {
    if i > 0 { InMatchesOf(rounds[1..], i - 1, m); }
  }

  lemma {:induction false} InMatchesOfItems(items: seq<StageItem>, i: nat, m: Match)
    requires i < |items| && m in MatchesOf(items[i].rounds)
    ensures m in MatchesOfItems(items)
  {
    if i > 0 { InMatchesOfItems(items[1..], i - 1, m); }
  }

  /** The bounds of a stage hold for the rounds of its items. */
  lemma {:induction false} ItemBounds(
      items: seq<StageItem>, i: nat, start: Minutes, d: nat, t: Tournament, f: Starts, x: Minutes)
    requires i < |items|
    ensures NotBefore(MatchesOfItems(items), start, f) ==>
              forall r :: 0 <= r < |items[i].rounds| ==> NotBefore(items[i].rounds[r].matches, start, f)
    ensures OverBy(MatchesOfItems(items), x, f, d, t) ==>
              forall r :: 0 <= r < |items[i].rounds| ==> OverBy(items[i].rounds[r].matches, x, f, d, t)
  {
    forall r, m | 0 <= r < |items[i].rounds| && m in items[i].rounds[r].matches
      ensures m in MatchesOfItems(items)
    {
      InMatchesOf(items[i].rounds, r, m);
      InMatchesOfItems(items, i, m);
    }
  }

  /** Bounds on the matches of a list of items are bounds for its first items too. */
  lemma {:induction false} FirstItems(items: seq<StageItem>, k: nat, m: Match)
    requires k <= |items| && m in MatchesOfItems(items[..k])
    ensures m in MatchesOfItems(items)
  {
    assert items == items[..k] + items[k..];
    MatchesOfItemsAppend(items[..k], items[k..]);
  }

  lemma {:induction false} FirstItemsBounds(
      items: seq<StageItem>, k: nat, start: Minutes, d: nat, t: Tournament, f: Starts, x: Minutes)
    requires k <= |items|
    ensures NotBefore(MatchesOfItems(items), start, f) ==> NotBefore(MatchesOfItems(items[..k]), start, f)
    ensures OverBy(MatchesOfItems(items), x, f, d, t) ==> OverBy(MatchesOfItems(items[..k]), x, f, d, t)
    ensures ItemsInOrder(items, f, d, t) ==> ItemsInOrder(items[..k], f, d, t)
  {
    forall m | m in MatchesOfItems(items[..k])
      ensures m in MatchesOfItems(items)
    {
      FirstItems(items, k, m);
    }
  }

  lemma {:induction false} ItemsOverBy(
      items: seq<StageItem>, start: Minutes, d: nat, t: Tournament, f: Starts, x: Minutes)
    requires ItemsInOrder(items, f, d, t) && start <= x
    requires NotBefore(MatchesOfItems(items), start, f) && OverBy(MatchesOfItems(items), x, f, d, t)
    ensures start + ItemsMinutes(items, d, t) <= x
  {
    if items != [] {
      var k := |items| - 1;
      FirstItemsBounds(items, k, start, d, t, f, x);
      ItemsOverBy(items[..k], start, d, t, f, x);
      ItemBounds(items, k, start, d, t, f, x);
      RoundsOverBy(items[k].rounds, start, d, t, f, x);
    }
  }

  lemma {:induction false} ItemsNoLater(items: seq<StageItem>, start: Minutes, d: nat, t: Tournament, f: Starts)
    requires ItemsInOrder(items, f, d, t) && NotBefore(MatchesOfItems(items), start, f)
    ensures NoLater(PlanItems(items, start, d, t), f)
  {
    if items != [] {
      var k := |items| - 1;
      FirstItemsBounds(items, k, start, d, t, f, start);
      ItemsNoLater(items[..k], start, d, t, f);
      ItemBounds(items, k, start, d, t, f, start);
      RoundsNoLater(items[k].rounds, start, d, t, f);
    }
  }

  lemma {:induction false} FirstStages(stages: seq<Stage>, k: nat, f: Starts, t: Tournament)
    requires k <= |stages| && FeasibleInOrder(stages, f, t)
    ensures FeasibleInOrder(stages[..k], f, t)
  {
    forall i, j | 0 <= i < j < k
      ensures StageBefore(stages[..k][i], stages[..k][j], f, t)
    {
      assert StageBefore(stages[i], stages[j], f, t);
    }
  }

  lemma {:induction false} StagesOverBy(stages: seq<Stage>, t: Tournament, f: Starts, x: Minutes)
    requires FeasibleInOrder(stages, f, t) && t.start <= x && EachOverBy(stages, x, f, t)
    ensures t.start + StagesMinutes(stages, t) <= x
    decreases |stages|, 0
  {
    if stages != [] {
      var k := |stages| - 1;
      FirstStages(stages, k, f, t);
      StagesOverBy(stages[..k], t, f, x);
      StageStarts(stages, k, t, f);
      assert StageOverBy(stages[k], x, f, t);
      assert ItemsInOrder(stages[k].stageItems, f, StageDuration(stages[k], t), t);
      ItemsOverBy(stages[k].stageItems, t.start + StagesMinutes(stages[..k], t), StageDuration(stages[k], t), t, f, x);
    }
  }

  /** No match of stage `k` can start before the plan lets it. */
  lemma {:induction false} StageStarts(stages: seq<Stage>, k: nat, t: Tournament, f: Starts)
    requires k < |stages| && FeasibleInOrder(stages, f, t)
    ensures NotBefore(MatchesOfStage(stages[k]), t.start + StagesMinutes(stages[..k], t), f)
    decreases k, 1
  {
    FirstStages(stages, k, f, t);
    forall m | m in MatchesOfStage(stages[k])
      ensures t.start + StagesMinutes(stages[..k], t) <= f(m.id)
    {
      assert NotBefore(MatchesOfStage(stages[k]), t.start, f);
      forall i | 0 <= i < k
        ensures StageOverBy(stages[..k][i], f(m.id), f, t)
      {
        assert StageBefore(stages[i], stages[k], f, t);
      }
      StagesOverBy(stages[..k], t, f, f(m.id));
    }
  }

  lemma {:induction false} StageNoLater(stages: seq<Stage>, k: nat, t: Tournament, f: Starts)
    requires k < |stages| && FeasibleInOrder(stages, f, t)
    ensures NoLater(PlanStage(stages[k], t.start + StagesMinutes(stages[..k], t), t), f)
  {
    StageStarts(stages, k, t, f);
    assert ItemsInOrder(stages[k].stageItems, f, StageDuration(stages[k], t), t);
    ItemsNoLater(stages[k].stageItems, t.start + StagesMinutes(stages[..k], t), StageDuration(stages[k], t), t, f);
  }

  lemma {:induction false} StagesNoLater(stages: seq<Stage>, t: Tournament, f: Starts)
    requires FeasibleInOrder(stages, f, t)
    ensures NoLater(PlanStages(stages, t), f)
    decreases |stages|
  {
    if stages != [] {
      var k := |stages| - 1;
      FirstStages(stages, k, f, t);
      StagesNoLater(stages[..k], t, f);
      StageNoLater(stages, k, t, f);
    }
  }

  // ----- The plan itself is feasible -----

  /** `f` gives every match its planned time. */
  ghost predicate IsPlanned(timings: seq<Timing>, f: Starts) {
    forall p :: p in timings ==> f(p.matchId) == p.start
  }

  lemma {:induction false} PlannedRound(ms: seq<Match>, start: Minutes, d: nat, t: Tournament, f: Starts)
    requires IsPlanned(PlanRound(ms, start, d, t), f)
    ensures forall m :: m in ms ==> f(m.id) == start && Length(m, d, t) <= RoundMinutes(ms, d, t)
  {
    if ms != [] {
      var k := |ms| - 1;
      PlannedRound(ms[..k], start, d, t, f);
      assert TimingOf(ms[k], start, d, t) in PlanRound(ms, start, d, t);
      assert ms == ms[..k] + [ms[k]];
    }
  }

  lemma {:induction false} RoundsMinutesGrow(rounds: seq<Round>, k: nat, d: nat, t: Tournament)
    requires k <= |rounds|
    ensures RoundsMinutes(rounds[..k], d, t) <= RoundsMinutes(rounds, d, t)
  {
    if k < |rounds| {
      var n := |rounds| - 1;
      assert rounds[..n][..k] == rounds[..k];
      RoundsMinutesGrow(rounds[..n], k, d, t);
    } else {
      assert rounds[..k] == rounds;
    }
  }

  /** Where the plan puts round `i`: all of its matches start together. */
  lemma {:induction false} PlannedRoundAt(rounds: seq<Round>, i: nat, start: Minutes, d: nat, t: Tournament, f: Starts)
    requires i < |rounds| && IsPlanned(PlanRounds(rounds, start, d, t), f)
    ensures forall m :: m in rounds[i].matches ==> f(m.id) == start + RoundsMinutes(rounds[..i], d, t)
    ensures OverBy(rounds[i].matches, start + RoundsMinutes(rounds[..i + 1], d, t), f, d, t)
  {
    var k := |rounds| - 1;
    if i < k {
      assert rounds[..k][..i] == rounds[..i] && rounds[..k][..i + 1] == rounds[..i + 1];
      PlannedRoundAt(rounds[..k], i, start, d, t, f);
    } else {
      assert rounds[..k + 1] == rounds;
      PlannedRound(rounds[k].matches, start + RoundsMinutes(rounds[..k], d, t), d, t, f);
    }
  }

  lemma {:induction false} PlannedRoundsInOrder(rounds: seq<Round>, start: Minutes, d: nat, t: Tournament, f: Starts)
    requires IsPlanned(PlanRounds(rounds, start, d, t), f)
    ensures RoundsInOrder(rounds, f, d, t)
  {
    forall i, j | 0 <= i < j < |rounds|
      ensures AllBefore(rounds[i].matches, rounds[j].matches, f, d, t)
    {
      PlannedRoundAt(rounds, i, start, d, t, f);
      PlannedRoundAt(rounds, j, start, d, t, f);
      assert rounds[..j][..i + 1] == rounds[..i + 1];
      RoundsMinutesGrow(rounds[..j], i + 1, d, t);
    }
  }

  lemma {:induction false} FromMatchesOf(rounds: seq<Round>, m: Match) returns (i: nat)
    requires m in MatchesOf(rounds)
    ensures i < |rounds| && m in rounds[i].matches
  {
    if m in rounds[0].matches {
      i := 0;
    } else {
      i := FromMatchesOf(rounds[1..], m);
      i := i + 1;
    }
  }

  /** Where the plan puts a match of the item. */
  lemma {:induction false} PlannedMatch(
      rounds: seq<Round>, m: Match, start: Minutes, d: nat, t: Tournament, f: Starts)
    requires m in MatchesOf(rounds) && IsPlanned(PlanRounds(rounds, start, d, t), f)
    ensures start <= f(m.id)
    ensures f(m.id) + Length(m, d, t) <= start + RoundsMinutes(rounds, d, t)
  {
    var i := FromMatchesOf(rounds, m);
    PlannedRoundAt(rounds, i, start, d, t, f);
    RoundsMinutesGrow(rounds, i + 1, d, t);
  }

  lemma {:induction false} PlannedItems(items: seq<StageItem>, start: Minutes, d: nat, t: Tournament, f: Starts)
    requires IsPlanned(PlanItems(items, start, d, t), f)
    ensures ItemsInOrder(items, f, d, t)
    ensures NotBefore(MatchesOfItems(items), start, f)
    ensures OverBy(MatchesOfItems(items), start + ItemsMinutes(items, d, t), f, d, t)
  {
    if items != [] {
      var k := |items| - 1;
      PlannedItems(items[..k], start, d, t, f);
      PlannedRoundsInOrder(items[k].rounds, start, d, t, f);
      forall i | 0 <= i < |items|
        ensures RoundsInOrder(items[i].rounds, f, d, t)
      {
        assert i == k || RoundsInOrder(items[..k][i].rounds, f, d, t);
      }
      forall m | m in MatchesOf(items[k].rounds)
        ensures start <= f(m.id) && f(m.id) + Length(m, d, t) <= start + RoundsMinutes(items[k].rounds, d, t)
      {
        PlannedMatch(items[k].rounds, m, start, d, t, f);
      }
      assert items == items[..k] + [items[k]];
      MatchesOfItemsAppend(items[..k], [items[k]]);
    }
  }

  lemma {:induction false} StagesMinutesGrow(stages: seq<Stage>, k: nat, t: Tournament)
    requires k <= |stages|
    ensures StagesMinutes(stages[..k], t) <= StagesMinutes(stages, t)
  {
    if k < |stages| {
      var n := |stages| - 1;
      assert stages[..n][..k] == stages[..k];
      StagesMinutesGrow(stages[..n], k, t);
    } else {
      assert stages[..k] == stages;
    }
  }

  lemma {:induction false} PlannedStage(stage: Stage, start: Minutes, t: Tournament, f: Starts)
    requires IsPlanned(PlanStage(stage, start, t), f)
    ensures ItemsInOrder(stage.stageItems, f, StageDuration(stage, t), t)
    ensures NotBefore(MatchesOfStage(stage), start, f)
    ensures StageOverBy(stage, start + StageMinutes(stage, t), f, t)
  {
    PlannedItems(stage.stageItems, start, StageDuration(stage, t), t, f);
  }

  /** Where the plan puts stage `i`. */
  lemma {:induction false} PlannedStageAt(stages: seq<Stage>, i: nat, t: Tournament, f: Starts)
    requires i < |stages| && IsPlanned(PlanStages(stages, t), f)
    ensures ItemsInOrder(stages[i].stageItems, f, StageDuration(stages[i], t), t)
    ensures NotBefore(MatchesOfStage(stages[i]), t.start + StagesMinutes(stages[..i], t), f)
    ensures StageOverBy(stages[i], t.start + StagesMinutes(stages[..i + 1], t), f, t)
  {
    var k := |stages| - 1;
    if i < k {
      assert stages[..k][..i] == stages[..i] && stages[..k][..i + 1] == stages[..i + 1];
      PlannedStageAt(stages[..k], i, t, f);
    } else {
      assert stages[..k + 1] == stages;
      PlannedStage(stages[k], t.start + StagesMinutes(stages[..k], t), t, f);
    }
  }

  lemma {:induction false} PlannedStageBefore(stages: seq<Stage>, i: nat, j: nat, t: Tournament, f: Starts)
    requires i < j < |stages| && IsPlanned(PlanStages(stages, t), f)
    ensures StageBefore(stages[i], stages[j], f, t)
  {
    PlannedStageAt(stages, i, t, f);
    PlannedStageAt(stages, j, t, f);
    assert stages[..j][..i + 1] == stages[..i + 1];
    StagesMinutesGrow(stages[..j], i + 1, t);
  }

  lemma {:induction false} PlanKeepsRoundOrder(stages: seq<Stage>, t: Tournament, f: Starts)
    requires IsPlanned(PlanStages(stages, t), f)
    ensures EachItemInOrder(stages, f, t)
  {
    forall i | 0 <= i < |stages|
      ensures ItemsInOrder(stages[i].stageItems, f, StageDuration(stages[i], t), t)
    {
      PlannedStageAt(stages, i, t, f);
    }
  }

  lemma {:induction false} PlanKeepsWithin(stages: seq<Stage>, t: Tournament, f: Starts)
    requires IsPlanned(PlanStages(stages, t), f)
    ensures NothingEarly(stages, f, t)
    ensures EachOverBy(stages, t.start + StagesMinutes(stages, t), f, t)
  {
    forall i | 0 <= i < |stages|
      ensures NotBefore(MatchesOfStage(stages[i]), t.start, f)
      ensures StageOverBy(stages[i], t.start + StagesMinutes(stages, t), f, t)
    {
      PlannedStageAt(stages, i, t, f);
      StagesMinutesGrow(stages, i + 1, t);
    }
  }

  /** The plan keeps the listed order, and ends when the formula says. */
  lemma {:induction false} PlannedInOrder(ordered: seq<Stage>, t: Tournament, f: Starts)
    requires IsPlanned(PlanStages(ordered, t), f)
    ensures FeasibleInOrder(ordered, f, t)
    ensures EachOverBy(ordered, t.start + StagesMinutes(ordered, t), f, t)
  {
    PlanKeepsWithin(ordered, t, f);
    PlanKeepsRoundOrder(ordered, t, f);
    forall i, j | 0 <= i < j < |ordered|
      ensures StageBefore(ordered[i], ordered[j], f, t)
    {
      PlannedStageBefore(ordered, i, j, t, f);
    }
  }

  // ----- Feasible by id, in whatever order stages and rounds are delivered -----

  /** Every match of a round is over when a match of a round with a larger id starts. */
  ghost predicate RoundsFollow(rounds: seq<Round>, f: Starts, d: nat, t: Tournament) {
    forall r, s :: r in rounds && s in rounds && r.id < s.id ==> AllBefore(r.matches, s.matches, f, d, t)
  }

  ghost predicate ItemsFollow(stage: Stage, f: Starts, t: Tournament) {
    forall item :: item in stage.stageItems ==> RoundsFollow(item.rounds, f, StageDuration(stage, t), t)
  }

  /** Every match of a stage is over when a match of a stage with a larger id starts. */
  ghost predicate StagesFollow(stages: seq<Stage>, f: Starts, t: Tournament) {
    forall a, b :: a in stages && b in stages && a.id < b.id ==> StageBefore(a, b, f, t)
  }

  /** Nothing starts before the tournament, the rounds of an item follow each other by their ids, and
      so do the stages. */
  ghost predicate Feasible(stages: seq<Stage>, f: Starts, t: Tournament) {
    && (forall s :: s in stages ==> NotBefore(MatchesOfStage(s), t.start, f) && ItemsFollow(s, f, t))
    && StagesFollow(stages, f, t)
  }

  /** The tournament is over at `x`. */
  ghost predicate FinishedBy(stages: seq<Stage>, x: Minutes, f: Starts, t: Tournament) {
    forall s :: s in stages ==> StageOverBy(s, x, f, t)
  }

  ghost predicate DistinctRounds(rounds: seq<Round>) {
    forall i, j :: 0 <= i < j < |rounds| ==> rounds[i].id != rounds[j].id
  }

  /** Ids are those of database rows. */
  ghost predicate ProperIds(stages: seq<Stage>) {
    && (forall i, j :: 0 <= i < j < |stages| ==> stages[i].id != stages[j].id)
    && (forall s, item :: s in stages && item in s.stageItems ==> DistinctRounds(item.rounds))
  }

  lemma {:induction false} IdOrders()
    ensures StrictWeak(StageById) && StrictWeak(RoundById)
  {
  }

  lemma {:induction false} OrderedItem(items: seq<StageItem>, i: nat)
    requires i < |items|
    ensures OrderItems(items)[i] == OrderItem(items[i])
  {
    var k := |items| - 1;
    if i < k { OrderedItem(items[..k], i); }
  }

  lemma {:induction false} OrderedStage(stages: seq<Stage>, i: nat)
    requires i < |stages|
    ensures OrderStages(stages)[i] == OrderStage(stages[i])
  {
    var k := |stages| - 1;
    if i < k { OrderedStage(stages[..k], i); }
  }

  lemma {:induction false} FromMatchesOfItems(items: seq<StageItem>, m: Match) returns (i: nat)
    requires m in MatchesOfItems(items)
    ensures i < |items| && m in MatchesOf(items[i].rounds)
  {
    if m in MatchesOf(items[0].rounds) {
      i := 0;
    } else {
      i := FromMatchesOfItems(items[1..], m);
      i := i + 1;
    }
  }

  lemma {:induction false} PermutedRounds(rounds: seq<Round>, others: seq<Round>, m: Match)
    requires multiset(rounds) == multiset(others) && m in MatchesOf(rounds)
    ensures m in MatchesOf(others)
  {
    var i := FromMatchesOf(rounds, m);
    MemberOfPermutation(rounds, others, rounds[i]);
    var j :| 0 <= j < |others| && others[j] == rounds[i];
    InMatchesOf(others, j, m);
  }

  lemma {:induction false} OrderedItemMatches(item: StageItem, m: Match)
    ensures m in MatchesOf(OrderItem(item).rounds) <==> m in MatchesOf(item.rounds)
  {
    if m in MatchesOf(item.rounds) { PermutedRounds(item.rounds, OrderItem(item).rounds, m); }
    if m in MatchesOf(OrderItem(item).rounds) { PermutedRounds(OrderItem(item).rounds, item.rounds, m); }
  }

  lemma {:induction false} OrderedStageMatches(stage: Stage, m: Match)
    ensures m in MatchesOfStage(OrderStage(stage)) <==> m in MatchesOfStage(stage)
  {
    var items, ordered := stage.stageItems, OrderItems(stage.stageItems);
    if m in MatchesOfItems(items) {
      var i := FromMatchesOfItems(items, m);
      OrderedItem(items, i);
      OrderedItemMatches(items[i], m);
      InMatchesOfItems(ordered, i, m);
    }
    if m in MatchesOfItems(ordered) {
      var i := FromMatchesOfItems(ordered, m);
      OrderedItem(items, i);
      OrderedItemMatches(items[i], m);
      InMatchesOfItems(items, i, m);
    }
  }

  /** What is said of all matches of a stage does not depend on the order of its rounds. */
  lemma {:induction false} OrderedStageBounds(stage: Stage, x: Minutes, f: Starts, t: Tournament)
    ensures NotBefore(MatchesOfStage(OrderStage(stage)), x, f) <==> NotBefore(MatchesOfStage(stage), x, f)
    ensures StageOverBy(OrderStage(stage), x, f, t) <==> StageOverBy(stage, x, f, t)
  {
    forall m
      ensures m in MatchesOfStage(OrderStage(stage)) <==> m in MatchesOfStage(stage)
    {
      OrderedStageMatches(stage, m);
    }
  }

  lemma {:induction false} OrderedStageBefore(a: Stage, b: Stage, f: Starts, t: Tournament)
    ensures StageBefore(OrderStage(a), OrderStage(b), f, t) <==> StageBefore(a, b, f, t)
  {
    forall m
      ensures m in MatchesOfStage(OrderStage(b)) <==> m in MatchesOfStage(b)
      ensures StageOverBy(OrderStage(a), f(m.id), f, t) <==> StageOverBy(a, f(m.id), f, t)
    {
      OrderedStageMatches(b, m);
      OrderedStageBounds(a, f(m.id), f, t);
    }
  }

  lemma {:induction false} RoundsAscend(rounds: seq<Round>)
    requires DistinctRounds(rounds)
    ensures StrictlySorted(RoundById, Sort(RoundById, rounds))
  {
    IdOrders();
    SortSeparated(RoundById, rounds);
  }

  lemma {:induction false} StagesAscend(stages: seq<Stage>)
    requires ProperIds(stages)
    ensures StrictlySorted(StageById, Sort(StageById, stages))
  {
    IdOrders();
    SortSeparated(StageById, stages);
  }

  /** Following each other by id is being in order once sorted by id. */
  lemma {:induction false} RoundsFollowInOrder(rounds: seq<Round>, f: Starts, d: nat, t: Tournament)
    requires DistinctRounds(rounds) && RoundsFollow(rounds, f, d, t)
    ensures RoundsInOrder(Sort(RoundById, rounds), f, d, t)
  {
    var sorted := Sort(RoundById, rounds);
    RoundsAscend(rounds);
    forall i, j | 0 <= i < j < |sorted|
      ensures AllBefore(sorted[i].matches, sorted[j].matches, f, d, t)
    {
      MemberOfPermutation(sorted, rounds, sorted[i]);
      MemberOfPermutation(sorted, rounds, sorted[j]);
      assert RoundById(sorted[i], sorted[j]);
    }
  }

  /** Where a round is in playing order; a smaller id comes earlier. */
  lemma {:induction false} PlacesOfRounds(rounds: seq<Round>, r: Round, s: Round) returns (i: nat, j: nat)
    requires r in rounds && s in rounds && r.id < s.id
    ensures i < j < |Sort(RoundById, rounds)| && Sort(RoundById, rounds)[i] == r && Sort(RoundById, rounds)[j] == s
  {
    var sorted := Sort(RoundById, rounds);
    IdOrders();
    SortSorts(RoundById, rounds);
    MemberOfPermutation(rounds, sorted, r);
    MemberOfPermutation(rounds, sorted, s);
    i :| 0 <= i < |sorted| && sorted[i] == r;
    j :| 0 <= j < |sorted| && sorted[j] == s;
    assert i < j || !RoundById(sorted[i], sorted[j]);
  }

  lemma {:induction false} RoundsInOrderFollow(rounds: seq<Round>, f: Starts, d: nat, t: Tournament)
    requires RoundsInOrder(Sort(RoundById, rounds), f, d, t)
    ensures RoundsFollow(rounds, f, d, t)
  {
    forall r, s | r in rounds && s in rounds && r.id < s.id
      ensures AllBefore(r.matches, s.matches, f, d, t)
    {
      var i, j := PlacesOfRounds(rounds, r, s);
    }
  }

  lemma {:induction false} StageFollowInOrder(stage: Stage, f: Starts, t: Tournament)
    requires ItemsFollow(stage, f, t)
    requires forall item :: item in stage.stageItems ==> DistinctRounds(item.rounds)
    ensures ItemsInOrder(OrderStage(stage).stageItems, f, StageDuration(stage, t), t)
  {
    var items := stage.stageItems;
    forall i | 0 <= i < |items|
      ensures RoundsInOrder(OrderItems(items)[i].rounds, f, StageDuration(stage, t), t)
    {
      assert items[i] in items;
      OrderedItem(items, i);
      RoundsFollowInOrder(items[i].rounds, f, StageDuration(stage, t), t);
    }
  }

  lemma {:induction false} StageInOrderFollow(stage: Stage, f: Starts, t: Tournament)
    requires ItemsInOrder(OrderStage(stage).stageItems, f, StageDuration(stage, t), t)
    ensures ItemsFollow(stage, f, t)
  {
    var items := stage.stageItems;
    forall item | item in items
      ensures RoundsFollow(item.rounds, f, StageDuration(stage, t), t)
    {
      var i :| 0 <= i < |items| && items[i] == item;
      OrderedItem(items, i);
      assert RoundsInOrder(OrderItems(items)[i].rounds, f, StageDuration(stage, t), t);
      RoundsInOrderFollow(item.rounds, f, StageDuration(stage, t), t);
    }
  }

  lemma {:induction false} FeasibleWhenOrdered(stages: seq<Stage>, f: Starts, t: Tournament)
    requires ProperIds(stages) && Feasible(stages, f, t)
    ensures FeasibleInOrder(InPlayingOrder(stages), f, t)
  {
    var sorted, ordered := Sort(StageById, stages), InPlayingOrder(stages);
    StagesAscend(stages);
    forall i | 0 <= i < |sorted|
      ensures ordered[i] == OrderStage(sorted[i]) && sorted[i] in stages
      ensures NotBefore(MatchesOfStage(ordered[i]), t.start, f)
      ensures ItemsInOrder(ordered[i].stageItems, f, StageDuration(ordered[i], t), t)
    {
      OrderedStage(sorted, i);
      MemberOfPermutation(sorted, stages, sorted[i]);
      OrderedStageBounds(sorted[i], t.start, f, t);
      StageFollowInOrder(sorted[i], f, t);
    }
    forall i, j | 0 <= i < j < |sorted|
      ensures StageBefore(ordered[i], ordered[j], f, t)
    {
      assert StageById(sorted[i], sorted[j]);
      OrderedStageBefore(sorted[i], sorted[j], f, t);
    }
  }

  /** Where a stage is in playing order. */
  lemma {:induction false} PlaceOf(stages: seq<Stage>, s: Stage) returns (i: nat)
    requires s in stages
    ensures i < |Sort(StageById, stages)| && Sort(StageById, stages)[i] == s
    ensures InPlayingOrder(stages)[i] == OrderStage(s)
  {
    var sorted := Sort(StageById, stages);
    MemberOfPermutation(stages, sorted, s);
    i :| 0 <= i < |sorted| && sorted[i] == s;
    OrderedStage(sorted, i);
  }

  /** A smaller id comes earlier. */
  lemma {:induction false} PlacesOf(stages: seq<Stage>, a: Stage, b: Stage) returns (i: nat, j: nat)
    requires a in stages && b in stages && a.id < b.id
    ensures i < j < |InPlayingOrder(stages)|
    ensures InPlayingOrder(stages)[i] == OrderStage(a) && InPlayingOrder(stages)[j] == OrderStage(b)
  {
    var sorted := Sort(StageById, stages);
    IdOrders();
    SortSorts(StageById, stages);
    i := PlaceOf(stages, a);
    j := PlaceOf(stages, b);
    assert i < j || !StageById(sorted[i], sorted[j]);
  }

  lemma {:induction false} OrderedStagesFollow(stages: seq<Stage>, f: Starts, t: Tournament)
    requires StagesInOrder(InPlayingOrder(stages), f, t)
    ensures StagesFollow(stages, f, t)
  {
    forall a, b | a in stages && b in stages && a.id < b.id
      ensures StageBefore(a, b, f, t)
    {
      var i, j := PlacesOf(stages, a, b);
      assert StageBefore(InPlayingOrder(stages)[i], InPlayingOrder(stages)[j], f, t);
      OrderedStageBefore(a, b, f, t);
    }
  }

  lemma {:induction false} OrderedIsFeasible(stages: seq<Stage>, f: Starts, t: Tournament)
    requires FeasibleInOrder(InPlayingOrder(stages), f, t)
    ensures Feasible(stages, f, t)
  {
    var ordered := InPlayingOrder(stages);
    OrderedStagesFollow(stages, f, t);
    forall s | s in stages
      ensures NotBefore(MatchesOfStage(s), t.start, f) && ItemsFollow(s, f, t)
    {
      var i := PlaceOf(stages, s);
      assert NotBefore(MatchesOfStage(ordered[i]), t.start, f);
      assert ItemsInOrder(ordered[i].stageItems, f, StageDuration(ordered[i], t), t);
      OrderedStageBounds(s, t.start, f, t);
      StageInOrderFollow(s, f, t);
    }
  }

  lemma {:induction false} OverWhenOrdered(stages: seq<Stage>, x: Minutes, f: Starts, t: Tournament)
    ensures FinishedBy(stages, x, f, t) <==> EachOverBy(InPlayingOrder(stages), x, f, t)
  {
    var sorted, ordered := Sort(StageById, stages), InPlayingOrder(stages);
    forall i | 0 <= i < |sorted|
      ensures sorted[i] in stages
      ensures StageOverBy(ordered[i], x, f, t) <==> StageOverBy(sorted[i], x, f, t)
    {
      MemberOfPermutation(sorted, stages, sorted[i]);
      OrderedStage(sorted, i);
      OrderedStageBounds(sorted[i], x, f, t);
    }
    if EachOverBy(ordered, x, f, t) {
      forall s | s in stages
        ensures StageOverBy(s, x, f, t)
      {
        var i := PlaceOf(stages, s);
        assert StageOverBy(ordered[i], x, f, t);
      }
    }
  }

  /** The planned times are the earliest possible: no feasible assignment starts any match
      earlier. */
  lemma {:induction false} PlanIsEarliest(stages: seq<Stage>, t: Tournament, f: Starts)
    requires ProperIds(stages) && Feasible(stages, f, t)
    ensures NoLater(Plan(stages, t), f)
  {
    FeasibleWhenOrdered(stages, f, t);
    StagesNoLater(InPlayingOrder(stages), t, f);
  }

  /** Nor can any feasible assignment finish earlier than the sum over the stages of the longest
      item, each the sum over its rounds of the longest match. */
  lemma {:induction false} FinishIsEarliest(stages: seq<Stage>, t: Tournament, f: Starts, x: Minutes)
    requires ProperIds(stages) && Feasible(stages, f, t) && t.start <= x && FinishedBy(stages, x, f, t)
    ensures t.start + StagesMinutes(InPlayingOrder(stages), t) <= x
  {
    FeasibleWhenOrdered(stages, f, t);
    OverWhenOrdered(stages, x, f, t);
    StagesOverBy(InPlayingOrder(stages), t, f, x);
  }

  /** The plan is one of the feasible assignments, and ends when the formula says. */
  lemma {:induction false} PlanIsFeasible(stages: seq<Stage>, t: Tournament, f: Starts)
    requires IsPlanned(Plan(stages, t), f)
    ensures Feasible(stages, f, t)
    ensures FinishedBy(stages, t.start + StagesMinutes(InPlayingOrder(stages), t), f, t)
  {
    var ordered := InPlayingOrder(stages);
    PlannedInOrder(ordered, t, f);
    OrderedIsFeasible(stages, f, t);
    OverWhenOrdered(stages, t.start + StagesMinutes(ordered, t), f, t);
  }
}
