/** Writing timings to stored matches: what that does to the plan, and that the plan has every match
    once. */
module Retiming {
  import opened Models
  import opened Sorting
  import opened Planning

  // ----- Writing timings -----

  function Timed(m: Match, p: Timing): Match {
    m.(start := Some(p.start), duration := p.duration, margin := p.margin)
  }

  predicate KeepsTo(m: Match, p: Timing) {
    m.start == Some(p.start) && m.duration == p.duration && m.margin == p.margin
  }

  /** The match after its row has been updated for every timing in turn. */
  function Retimed(m: Match, ts: seq<Timing>): (r: Match)
    ensures r.id == m.id && r.customDuration == m.customDuration && r.customMargin == m.customMargin
  {
    if ts == [] then m
    else
      var k := |ts| - 1;
      var r := Retimed(m, ts[..k]);
      if ts[k].matchId == m.id then Timed(r, ts[k]) else r
  }

  function RetimeMatches(ms: seq<Match>, ts: seq<Timing>): (r: seq<Match>)
    ensures |r| == |ms|
    ensures forall i :: 0 <= i < |ms| ==> r[i] == Retimed(ms[i], ts)
  {
    seq(|ms|, i requires 0 <= i < |ms| => Retimed(ms[i], ts))
  }

  function RetimeRound(r: Round, ts: seq<Timing>): Round {
    r.(matches := RetimeMatches(r.matches, ts))
  }

  function RetimeRounds(rounds: seq<Round>, ts: seq<Timing>): (r: seq<Round>)
    ensures |r| == |rounds|
    ensures forall i :: 0 <= i < |r| ==> r[i] == RetimeRound(rounds[i], ts)
  {
    seq(|rounds|, i requires 0 <= i < |rounds| => RetimeRound(rounds[i], ts))
  }

  function RetimeItem(item: StageItem, ts: seq<Timing>): StageItem {
    item.(rounds := RetimeRounds(item.rounds, ts))
  }

  function RetimeItems(items: seq<StageItem>, ts: seq<Timing>): (r: seq<StageItem>)
    ensures |r| == |items|
    ensures forall i :: 0 <= i < |r| ==> r[i] == RetimeItem(items[i], ts)
  {
    seq(|items|, i requires 0 <= i < |items| => RetimeItem(items[i], ts))
  }

  function RetimeStage(s: Stage, ts: seq<Timing>): Stage {
    s.(stageItems := RetimeItems(s.stageItems, ts))
  }

  function RetimeStages(stages: seq<Stage>, ts: seq<Timing>): (r: seq<Stage>)
    ensures |r| == |stages|
    ensures forall i :: 0 <= i < |r| ==> r[i] == RetimeStage(stages[i], ts)
  {
    seq(|stages|, i requires 0 <= i < |stages| => RetimeStage(stages[i], ts))
  }

  // ----- What is kept -----

  /** Nothing of the match but its start and its length is written. */
  ghost predicate SameButTimes(m: Match, n: Match) {
    n.(start := m.start, duration := m.duration, margin := m.margin) == m
  }

  ghost predicate SameMatches(ms: seq<Match>, ns: seq<Match>) {
    |ms| == |ns| && forall i :: 0 <= i < |ms| ==> SameButTimes(ms[i], ns[i])
  }

  ghost predicate SameRounds(rounds: seq<Round>, others: seq<Round>) {
    && |rounds| == |others|
    && forall i :: 0 <= i < |rounds| ==>
         others[i].(matches := rounds[i].matches) == rounds[i] && SameMatches(rounds[i].matches, others[i].matches)
  }

  ghost predicate SameItems(items: seq<StageItem>, others: seq<StageItem>) {
    && |items| == |others|
    && forall i :: 0 <= i < |items| ==>
         others[i].(rounds := items[i].rounds) == items[i] && SameRounds(items[i].rounds, others[i].rounds)
  }

  /** The same stages, items, inputs and rounds with the same matches in the same places, apart from
      the times of the matches. */
  ghost predicate OnlyTimesDiffer(stages: seq<Stage>, others: seq<Stage>) {
    && |stages| == |others|
    && forall i :: 0 <= i < |stages| ==>
         && others[i].(stageItems := stages[i].stageItems) == stages[i]
         && SameItems(stages[i].stageItems, others[i].stageItems)
  }

  lemma {:induction false} RetimedKeeps(m: Match, ts: seq<Timing>)
    ensures SameButTimes(m, Retimed(m, ts))
  {
    if ts != [] { RetimedKeeps(m, ts[..|ts| - 1]); }
  }

  lemma {:induction false} RetimeRoundsKeeps(rounds: seq<Round>, ts: seq<Timing>)
    ensures SameRounds(rounds, RetimeRounds(rounds, ts))
  {
    forall i, k | 0 <= i < |rounds| && 0 <= k < |rounds[i].matches|
      ensures SameButTimes(rounds[i].matches[k], RetimeRounds(rounds, ts)[i].matches[k])
    {
      RetimedKeeps(rounds[i].matches[k], ts);
    }
  }

  lemma {:induction false} RetimeItemsKeeps(items: seq<StageItem>, ts: seq<Timing>)
    ensures SameItems(items, RetimeItems(items, ts))
  {
    forall i | 0 <= i < |items|
      ensures SameRounds(items[i].rounds, RetimeItems(items, ts)[i].rounds)
    {
      RetimeRoundsKeeps(items[i].rounds, ts);
    }
  }

  lemma {:induction false} RetimeKeeps(stages: seq<Stage>, ts: seq<Timing>)
    ensures OnlyTimesDiffer(stages, RetimeStages(stages, ts))
  {
    forall i | 0 <= i < |stages|
      ensures SameItems(stages[i].stageItems, RetimeStages(stages, ts)[i].stageItems)
    {
      RetimeItemsKeeps(stages[i].stageItems, ts);
    }
  }

  // ----- Writing one timing after the other -----

  lemma {:induction false} RetimedAgain(m: Match, ts: seq<Timing>, k: nat)
    requires k < |ts|
    ensures Retimed(Retimed(m, ts[..k]), [ts[k]]) == Retimed(m, ts[..k + 1])
  {
    Prefix(ts, k);
    assert [ts[k]][..0] == [];
  }

  lemma {:induction false} RetimeMatchesAgain(ms: seq<Match>, ts: seq<Timing>, k: nat)
    requires k < |ts|
    ensures RetimeMatches(RetimeMatches(ms, ts[..k]), [ts[k]]) == RetimeMatches(ms, ts[..k + 1])
  {
    forall i | 0 <= i < |ms|
      ensures Retimed(Retimed(ms[i], ts[..k]), [ts[k]]) == Retimed(ms[i], ts[..k + 1])
    {
      RetimedAgain(ms[i], ts, k);
    }
  }

  lemma {:induction false} RetimeRoundsAgain(rounds: seq<Round>, ts: seq<Timing>, k: nat)
    requires k < |ts|
    ensures RetimeRounds(RetimeRounds(rounds, ts[..k]), [ts[k]]) == RetimeRounds(rounds, ts[..k + 1])
  {
    forall i | 0 <= i < |rounds|
      ensures RetimeRounds(RetimeRounds(rounds, ts[..k]), [ts[k]])[i] == RetimeRounds(rounds, ts[..k + 1])[i]
    {
      RetimeMatchesAgain(rounds[i].matches, ts, k);
    }
  }

  lemma {:induction false} RetimeItemsAgain(items: seq<StageItem>, ts: seq<Timing>, k: nat)
    requires k < |ts|
    ensures RetimeItems(RetimeItems(items, ts[..k]), [ts[k]]) == RetimeItems(items, ts[..k + 1])
  {
    forall i | 0 <= i < |items|
      ensures RetimeItems(RetimeItems(items, ts[..k]), [ts[k]])[i] == RetimeItems(items, ts[..k + 1])[i]
    {
      RetimeRoundsAgain(items[i].rounds, ts, k);
    }
  }

  lemma {:induction false} RetimeStagesAgain(stages: seq<Stage>, ts: seq<Timing>, k: nat)
    requires k < |ts|
    ensures RetimeStages(RetimeStages(stages, ts[..k]), [ts[k]]) == RetimeStages(stages, ts[..k + 1])
  {
    forall i | 0 <= i < |stages|
      ensures RetimeStages(RetimeStages(stages, ts[..k]), [ts[k]])[i] == RetimeStages(stages, ts[..k + 1])[i]
    {
      RetimeItemsAgain(stages[i].stageItems, ts, k);
    }
  }

  lemma {:induction false} RetimeNothing(stages: seq<Stage>)
    ensures RetimeStages(stages, []) == stages
  {
    forall i | 0 <= i < |stages|
      ensures RetimeItems(stages[i].stageItems, []) == stages[i].stageItems
    {
      forall j | 0 <= j < |stages[i].stageItems|
        ensures RetimeRounds(stages[i].stageItems[j].rounds, []) == stages[i].stageItems[j].rounds
      {
        RetimeNoRounds(stages[i].stageItems[j].rounds);
      }
    }
  }

  lemma {:induction false} RetimeNoRounds(rounds: seq<Round>)
    ensures RetimeRounds(rounds, []) == rounds
  {
    forall i | 0 <= i < |rounds|
      ensures RetimeMatches(rounds[i].matches, []) == rounds[i].matches
    {
    }
  }

  // ----- The plan does not depend on what it writes -----

  lemma {:induction false} PlanRoundKept(ms: seq<Match>, ts: seq<Timing>, start: Minutes, d: nat, t: Tournament)
    ensures PlanRound(RetimeMatches(ms, ts), start, d, t) == PlanRound(ms, start, d, t)
    ensures RoundMinutes(RetimeMatches(ms, ts), d, t) == RoundMinutes(ms, d, t)
  {
    if ms != [] {
      var k := |ms| - 1;
      assert RetimeMatches(ms, ts)[..k] == RetimeMatches(ms[..k], ts);
      PlanRoundKept(ms[..k], ts, start, d, t);
    }
  }

  lemma {:induction false} RoundsMinutesKept(rounds: seq<Round>, ts: seq<Timing>, d: nat, t: Tournament)
    ensures RoundsMinutes(RetimeRounds(rounds, ts), d, t) == RoundsMinutes(rounds, d, t)
  {
    if rounds != [] {
      var k := |rounds| - 1;
      assert RetimeRounds(rounds, ts)[..k] == RetimeRounds(rounds[..k], ts);
      RoundsMinutesKept(rounds[..k], ts, d, t);
      PlanRoundKept(rounds[k].matches, ts, 0, d, t);
    }
  }

  function PlanLastRound(rounds: seq<Round>, start: Minutes, d: nat, t: Tournament): seq<Timing>
    requires rounds != []
  {
    var k := |rounds| - 1;
    PlanRound(rounds[k].matches, start + RoundsMinutes(rounds[..k], d, t), d, t)
  }

  lemma {:induction false} PlanRoundsLast(rounds: seq<Round>, start: Minutes, d: nat, t: Tournament)
    requires rounds != []
    ensures PlanRounds(rounds, start, d, t)
         == PlanRounds(rounds[..|rounds| - 1], start, d, t) + PlanLastRound(rounds, start, d, t)
  {
  }

  lemma {:induction false} PlanLastRoundKept(
      rounds: seq<Round>, ts: seq<Timing>, start: Minutes, d: nat, t: Tournament)
    requires rounds != []
    ensures RetimeRounds(rounds, ts)[..|rounds| - 1] == RetimeRounds(rounds[..|rounds| - 1], ts)
    ensures PlanLastRound(RetimeRounds(rounds, ts), start, d, t) == PlanLastRound(rounds, start, d, t)
  {
    var k := |rounds| - 1;
    assert RetimeRounds(rounds, ts)[..k] == RetimeRounds(rounds[..k], ts);
    RoundsMinutesKept(rounds[..k], ts, d, t);
    PlanRoundKept(rounds[k].matches, ts, start + RoundsMinutes(rounds[..k], d, t), d, t);
  }

  lemma {:induction false} PlanRoundsKept(rounds: seq<Round>, ts: seq<Timing>, start: Minutes, d: nat, t: Tournament)
    ensures PlanRounds(RetimeRounds(rounds, ts), start, d, t) == PlanRounds(rounds, start, d, t)
  {
    if rounds != [] {
      PlanRoundsKept(rounds[..|rounds| - 1], ts, start, d, t);
      PlanLastRoundKept(rounds, ts, start, d, t);
      PlanRoundsLast(rounds, start, d, t);
      PlanRoundsLast(RetimeRounds(rounds, ts), start, d, t);
    }
  }

  lemma {:induction false} RetimeRoundsFirst(x: Round, rest: seq<Round>, ts: seq<Timing>)
    ensures RetimeRounds([x] + rest, ts) == [RetimeRound(x, ts)] + RetimeRounds(rest, ts)
  {
  }

  lemma {:induction false} InsertRoundKept(x: Round, rounds: seq<Round>, ts: seq<Timing>)
    ensures Insert(RoundById, RetimeRound(x, ts), RetimeRounds(rounds, ts))
         == RetimeRounds(Insert(RoundById, x, rounds), ts)
  {
    var y, r := RetimeRound(x, ts), RetimeRounds(rounds, ts);
    if rounds != [] && RoundById(rounds[0], x) {
      assert r[1..] == RetimeRounds(rounds[1..], ts);
      InsertRoundKept(x, rounds[1..], ts);
      RetimeRoundsFirst(rounds[0], Insert(RoundById, x, rounds[1..]), ts);
      assert Insert(RoundById, y, r) == [r[0]] + Insert(RoundById, y, r[1..]);
    } else {
      RetimeRoundsFirst(x, rounds, ts);
    }
  }

  lemma {:induction false} SortRoundsKept(rounds: seq<Round>, ts: seq<Timing>)
    ensures Sort(RoundById, RetimeRounds(rounds, ts)) == RetimeRounds(Sort(RoundById, rounds), ts)
  {
    if rounds != [] {
      assert RetimeRounds(rounds, ts)[1..] == RetimeRounds(rounds[1..], ts);
      SortRoundsKept(rounds[1..], ts);
      InsertRoundKept(rounds[0], Sort(RoundById, rounds[1..]), ts);
    }
  }

  lemma {:induction false} PlanItemsKept(
      items: seq<StageItem>, ts: seq<Timing>, start: Minutes, d: nat, t: Tournament)
    ensures PlanItems(RetimeItems(items, ts), start, d, t) == PlanItems(items, start, d, t)
  {
    if items != [] {
      var k := |items| - 1;
      assert RetimeItems(items, ts)[..k] == RetimeItems(items[..k], ts);
      PlanItemsKept(items[..k], ts, start, d, t);
      PlanRoundsKept(items[k].rounds, ts, start, d, t);
    }
  }

  lemma {:induction false} ItemsMinutesKept(items: seq<StageItem>, ts: seq<Timing>, d: nat, t: Tournament)
    ensures ItemsMinutes(RetimeItems(items, ts), d, t) == ItemsMinutes(items, d, t)
  {
    if items != [] {
      var k := |items| - 1;
      assert RetimeItems(items, ts)[..k] == RetimeItems(items[..k], ts);
      ItemsMinutesKept(items[..k], ts, d, t);
      RoundsMinutesKept(items[k].rounds, ts, d, t);
    }
  }

  lemma {:induction false} StagesMinutesKept(stages: seq<Stage>, ts: seq<Timing>, t: Tournament)
    ensures StagesMinutes(RetimeStages(stages, ts), t) == StagesMinutes(stages, t)
  {
    if stages != [] {
      var k := |stages| - 1;
      assert RetimeStages(stages, ts)[..k] == RetimeStages(stages[..k], ts);
      StagesMinutesKept(stages[..k], ts, t);
      ItemsMinutesKept(stages[k].stageItems, ts, StageDuration(stages[k], t), t);
    }
  }

  lemma {:induction false} PlanStageKept(stage: Stage, ts: seq<Timing>, start: Minutes, t: Tournament)
    ensures PlanStage(RetimeStage(stage, ts), start, t) == PlanStage(stage, start, t)
  {
    PlanItemsKept(stage.stageItems, ts, start, StageDuration(stage, t), t);
  }

  lemma {:induction false} EarlierStagesKept(stages: seq<Stage>, k: nat, ts: seq<Timing>, t: Tournament)
    requires k <= |stages|
    ensures RetimeStages(stages, ts)[..k] == RetimeStages(stages[..k], ts)
    ensures StagesMinutes(RetimeStages(stages, ts)[..k], t) == StagesMinutes(stages[..k], t)
  {
    assert RetimeStages(stages, ts)[..k] == RetimeStages(stages[..k], ts);
    StagesMinutesKept(stages[..k], ts, t);
  }

  function LastStart(stages: seq<Stage>, t: Tournament): Minutes
    requires stages != []
  {
    t.start + StagesMinutes(stages[..|stages| - 1], t)
  }

  lemma {:induction false} LastStartKept(stages: seq<Stage>, ts: seq<Timing>, t: Tournament)
    requires stages != []
    ensures LastStart(RetimeStages(stages, ts), t) == LastStart(stages, t)
  {
    EarlierStagesKept(stages, |stages| - 1, ts, t);
  }

  function PlanLastStage(stages: seq<Stage>, t: Tournament): seq<Timing>
    requires stages != []
  {
    PlanStage(stages[|stages| - 1], LastStart(stages, t), t)
  }

  lemma {:induction false} PlanStagesLast(stages: seq<Stage>, t: Tournament)
    requires stages != []
    ensures PlanStages(stages, t) == PlanStages(stages[..|stages| - 1], t) + PlanLastStage(stages, t)
  {
  }

  lemma {:induction false} PlanLastStageKept(stages: seq<Stage>, ts: seq<Timing>, t: Tournament)
    requires stages != []
    ensures PlanLastStage(RetimeStages(stages, ts), t) == PlanLastStage(stages, t)
  {
    LastStartKept(stages, ts, t);
    PlanStageKept(stages[|stages| - 1], ts, LastStart(stages, t), t);
  }

  lemma {:induction false} PlanStagesKept(stages: seq<Stage>, ts: seq<Timing>, t: Tournament)
    ensures PlanStages(RetimeStages(stages, ts), t) == PlanStages(stages, t)
  {
    var r := RetimeStages(stages, ts);
    if stages != [] {
      var k := |stages| - 1;
      EarlierStagesKept(stages, k, ts, t);
      PlanStagesKept(stages[..k], ts, t);
      PlanLastStageKept(stages, ts, t);
      PlanStagesLast(stages, t);
      PlanStagesLast(r, t);
    } else {
      assert r == stages;
    }
  }

  lemma {:induction false} OrderItemKept(item: StageItem, ts: seq<Timing>)
    ensures OrderItem(RetimeItem(item, ts)) == RetimeItem(OrderItem(item), ts)
  {
    SortRoundsKept(item.rounds, ts);
  }

  lemma {:induction false} OrderItemsLast(items: seq<StageItem>, item: StageItem)
    ensures OrderItems(items + [item]) == OrderItems(items) + [OrderItem(item)]
  {
    Appended(items, item);
  }

  lemma {:induction false} RetimeItemsLast(items: seq<StageItem>, k: nat, ts: seq<Timing>)
    requires |items| == k + 1
    ensures items == items[..k] + [items[k]]
    ensures RetimeItems(items, ts) == RetimeItems(items[..k], ts) + [RetimeItem(items[k], ts)]
  {
  }

  lemma {:induction false} OrderItemsKept(items: seq<StageItem>, ts: seq<Timing>)
    ensures OrderItems(RetimeItems(items, ts)) == RetimeItems(OrderItems(items), ts)
  {
    if items != [] {
      var k := |items| - 1;
      OrderItemsKept(items[..k], ts);
      OrderItemKept(items[k], ts);
      RetimeItemsLast(items, k, ts);
      OrderItemsLast(items[..k], items[k]);
      OrderItemsLast(RetimeItems(items[..k], ts), RetimeItem(items[k], ts));
    }
  }

  lemma {:induction false} OrderStageKept(stage: Stage, ts: seq<Timing>)
    ensures OrderStage(RetimeStage(stage, ts)) == RetimeStage(OrderStage(stage), ts)
  {
    OrderItemsKept(stage.stageItems, ts);
  }

  lemma {:induction false} OrderStagesLast(stages: seq<Stage>, stage: Stage)
    ensures OrderStages(stages + [stage]) == OrderStages(stages) + [OrderStage(stage)]
  {
    Appended(stages, stage);
  }

  lemma {:induction false} RetimeStagesLast(stages: seq<Stage>, k: nat, ts: seq<Timing>)
    requires |stages| == k + 1
    ensures stages == stages[..k] + [stages[k]]
    ensures RetimeStages(stages, ts) == RetimeStages(stages[..k], ts) + [RetimeStage(stages[k], ts)]
  {
  }

  lemma {:induction false} RetimeStagesAppend(stages: seq<Stage>, stage: Stage, ts: seq<Timing>)
    ensures RetimeStages(stages + [stage], ts) == RetimeStages(stages, ts) + [RetimeStage(stage, ts)]
  {
  }

  lemma {:induction false} OrderStagesKept(stages: seq<Stage>, ts: seq<Timing>)
    ensures OrderStages(RetimeStages(stages, ts)) == RetimeStages(OrderStages(stages), ts)
  {
    if stages != [] {
      var k := |stages| - 1;
      OrderStagesKept(stages[..k], ts);
      OrderStageKept(stages[k], ts);
      RetimeStagesLast(stages, k, ts);
      OrderStagesLast(stages[..k], stages[k]);
      OrderStagesLast(RetimeStages(stages[..k], ts), RetimeStage(stages[k], ts));
      RetimeStagesAppend(OrderStages(stages[..k]), OrderStage(stages[k]), ts);
    }
  }

  lemma {:induction false} RetimeStagesFirst(x: Stage, rest: seq<Stage>, ts: seq<Timing>)
    ensures RetimeStages([x] + rest, ts) == [RetimeStage(x, ts)] + RetimeStages(rest, ts)
  {
  }

  lemma {:induction false} InsertStageKept(x: Stage, stages: seq<Stage>, ts: seq<Timing>)
    ensures Insert(StageById, RetimeStage(x, ts), RetimeStages(stages, ts))
         == RetimeStages(Insert(StageById, x, stages), ts)
  {
    var y, r := RetimeStage(x, ts), RetimeStages(stages, ts);
    if stages != [] && StageById(stages[0], x) {
      assert r[1..] == RetimeStages(stages[1..], ts);
      InsertStageKept(x, stages[1..], ts);
      RetimeStagesFirst(stages[0], Insert(StageById, x, stages[1..]), ts);
      assert Insert(StageById, y, r) == [r[0]] + Insert(StageById, y, r[1..]);
    } else {
      RetimeStagesFirst(x, stages, ts);
    }
  }

  lemma {:induction false} SortStagesKept(stages: seq<Stage>, ts: seq<Timing>)
    ensures Sort(StageById, RetimeStages(stages, ts)) == RetimeStages(Sort(StageById, stages), ts)
  {
    var r := RetimeStages(stages, ts);
    if stages != [] {
      assert r[1..] == RetimeStages(stages[1..], ts) && r[0] == RetimeStage(stages[0], ts);
      SortStagesKept(stages[1..], ts);
      InsertStageKept(stages[0], Sort(StageById, stages[1..]), ts);
      SortFirst(StageById, r);
      SortFirst(StageById, stages);
    } else {
      assert r == stages;
    }
  }

  /** Whatever times the matches had, the plan comes out the same. */
  lemma {:induction false} PlanKept(stages: seq<Stage>, ts: seq<Timing>, t: Tournament)
    ensures Plan(RetimeStages(stages, ts), t) == Plan(stages, t)
  {
    SortStagesKept(stages, ts);
    OrderStagesKept(Sort(StageById, stages), ts);
    PlanStagesKept(InPlayingOrder(stages), ts, t);
  }

  // ----- The plan has every match once -----

  function MatchIds(ms: seq<Match>): seq<MatchId> {
    seq(|ms|, i requires 0 <= i < |ms| => ms[i].id)
  }

  function TimingIds(ts: seq<Timing>): seq<MatchId> {
    seq(|ts|, i requires 0 <= i < |ts| => ts[i].matchId)
  }

  ghost predicate UniqueIds(stages: seq<Stage>) { NoDuplicates(MatchIds(AllMatches(stages))) }

  lemma {:induction false} MatchIdsAppend(a: seq<Match>, b: seq<Match>)
    ensures MatchIds(a + b) == MatchIds(a) + MatchIds(b)
    ensures multiset(MatchIds(a + b)) == multiset(MatchIds(a)) + multiset(MatchIds(b))
  {
    assert MatchIds(a + b) == MatchIds(a) + MatchIds(b);
  }

  lemma {:induction false} TimingIdsAppend(a: seq<Timing>, b: seq<Timing>)
    ensures TimingIds(a + b) == TimingIds(a) + TimingIds(b)
    ensures multiset(TimingIds(a + b)) == multiset(TimingIds(a)) + multiset(TimingIds(b))
  {
    assert TimingIds(a + b) == TimingIds(a) + TimingIds(b);
  }

  lemma {:induction false} PlanRoundIds(ms: seq<Match>, start: Minutes, d: nat, t: Tournament)
    ensures TimingIds(PlanRound(ms, start, d, t)) == MatchIds(ms)
  {
    if ms != [] {
      var k := |ms| - 1;
      PlanRoundIds(ms[..k], start, d, t);
      TimingIdsAppend(PlanRound(ms[..k], start, d, t), [TimingOf(ms[k], start, d, t)]);
      MatchIdsAppend(ms[..k], [ms[k]]);
      assert ms == ms[..k] + [ms[k]];
    }
  }

  lemma {:induction false} PlanRoundsIds(rounds: seq<Round>, start: Minutes, d: nat, t: Tournament)
    ensures TimingIds(PlanRounds(rounds, start, d, t)) == MatchIds(MatchesOf(rounds))
  {
    if rounds != [] {
      var k := |rounds| - 1;
      var at := start + RoundsMinutes(rounds[..k], d, t);
      PlanRoundsIds(rounds[..k], start, d, t);
      PlanRoundIds(rounds[k].matches, at, d, t);
      TimingIdsAppend(PlanRounds(rounds[..k], start, d, t), PlanRound(rounds[k].matches, at, d, t));
      MatchesOfNext(rounds, k);
      MatchIdsAppend(MatchesOf(rounds[..k]), rounds[k].matches);
      assert rounds[..k + 1] == rounds;
    }
  }

  lemma {:induction false} InsertRoundIds(x: Round, rounds: seq<Round>)
    ensures multiset(MatchIds(MatchesOf(Insert(RoundById, x, rounds))))
         == multiset(MatchIds(x.matches)) + multiset(MatchIds(MatchesOf(rounds)))
  {
    if rounds != [] && RoundById(rounds[0], x) {
      InsertRoundIds(x, rounds[1..]);
      MatchIdsAppend(rounds[0].matches, MatchesOf(rounds[1..]));
      MatchIdsAppend(rounds[0].matches, MatchesOf(Insert(RoundById, x, rounds[1..])));
    } else {
      assert ([x] + rounds)[1..] == rounds;
      MatchIdsAppend(x.matches, MatchesOf(rounds));
    }
  }

  lemma {:induction false} SortedRoundIds(rounds: seq<Round>)
    ensures multiset(MatchIds(MatchesOf(Sort(RoundById, rounds)))) == multiset(MatchIds(MatchesOf(rounds)))
  {
    if rounds != [] {
      SortedRoundIds(rounds[1..]);
      InsertRoundIds(rounds[0], Sort(RoundById, rounds[1..]));
      MatchIdsAppend(rounds[0].matches, MatchesOf(rounds[1..]));
    }
  }

  lemma {:induction false} PlanItemsIds(items: seq<StageItem>, start: Minutes, d: nat, t: Tournament)
    ensures TimingIds(PlanItems(items, start, d, t)) == MatchIds(MatchesOfItems(items))
  {
    if items != [] {
      var k := |items| - 1;
      PlanItemsIds(items[..k], start, d, t);
      PlanRoundsIds(items[k].rounds, start, d, t);
      TimingIdsAppend(PlanItems(items[..k], start, d, t), PlanRounds(items[k].rounds, start, d, t));
      assert items == items[..k] + [items[k]];
      MatchesOfItemsAppend(items[..k], [items[k]]);
      assert MatchesOfItems([items[k]]) == MatchesOf(items[k].rounds);
      MatchIdsAppend(MatchesOfItems(items[..k]), MatchesOf(items[k].rounds));
    }
  }

  lemma {:induction false} PlanStageIds(stage: Stage, start: Minutes, t: Tournament)
    ensures TimingIds(PlanStage(stage, start, t)) == MatchIds(MatchesOfStage(stage))
  {
    PlanItemsIds(stage.stageItems, start, StageDuration(stage, t), t);
  }

  lemma {:induction false} AllMatchesIds(stages: seq<Stage>, k: nat)
    requires |stages| == k + 1
    ensures MatchIds(AllMatches(stages)) == MatchIds(AllMatches(stages[..k])) + MatchIds(MatchesOfStage(stages[k]))
  {
    assert stages == stages[..k] + [stages[k]];
    AllMatchesAppend(stages[..k], [stages[k]]);
    assert AllMatches([stages[k]]) == MatchesOfStage(stages[k]);
    MatchIdsAppend(AllMatches(stages[..k]), MatchesOfStage(stages[k]));
  }

  lemma {:induction false} PlanStagesIds(stages: seq<Stage>, t: Tournament)
    ensures TimingIds(PlanStages(stages, t)) == MatchIds(AllMatches(stages))
  {
    if stages != [] {
      var k := |stages| - 1;
      var at := t.start + StagesMinutes(stages[..k], t);
      PlanStagesIds(stages[..k], t);
      PlanStageIds(stages[k], at, t);
      TimingIdsAppend(PlanStages(stages[..k], t), PlanStage(stages[k], at, t));
      AllMatchesIds(stages, k);
    }
  }

  // ----- Playing order keeps the matches -----

  ghost function ItemsIds(items: seq<StageItem>): multiset<MatchId> { multiset(MatchIds(MatchesOfItems(items))) }

  ghost function StagesIds(stages: seq<Stage>): multiset<MatchId> { multiset(MatchIds(AllMatches(stages))) }

  lemma {:induction false} ItemsIdsLast(items: seq<StageItem>, item: StageItem)
    ensures ItemsIds(items + [item]) == ItemsIds(items) + multiset(MatchIds(MatchesOf(item.rounds)))
  {
    MatchesOfItemsAppend(items, [item]);
    assert MatchesOfItems([item]) == MatchesOf(item.rounds);
    MatchIdsAppend(MatchesOfItems(items), MatchesOf(item.rounds));
  }

  lemma {:induction false} StagesIdsLast(stages: seq<Stage>, stage: Stage)
    ensures StagesIds(stages + [stage]) == StagesIds(stages) + ItemsIds(stage.stageItems)
  {
    AllMatchesAppend(stages, [stage]);
    assert AllMatches([stage]) == MatchesOfItems(stage.stageItems);
    MatchIdsAppend(AllMatches(stages), MatchesOfItems(stage.stageItems));
  }

  lemma {:induction false} OrderItemIds(item: StageItem)
    ensures multiset(MatchIds(MatchesOf(OrderItem(item).rounds))) == multiset(MatchIds(MatchesOf(item.rounds)))
  {
    SortedRoundIds(item.rounds);
  }

  lemma {:induction false} SameIdsAdded(a: seq<StageItem>, x: StageItem, b: seq<StageItem>, y: StageItem)
    requires ItemsIds(a) == ItemsIds(b)
    requires multiset(MatchIds(MatchesOf(x.rounds))) == multiset(MatchIds(MatchesOf(y.rounds)))
    ensures ItemsIds(a + [x]) == ItemsIds(b + [y])
  {
    ItemsIdsLast(a, x);
    ItemsIdsLast(b, y);
  }

  lemma {:induction false} OrderItemsIds(items: seq<StageItem>)
    ensures ItemsIds(OrderItems(items)) == ItemsIds(items)
  {
    if items != [] {
      var k := |items| - 1;
      OrderItemsIds(items[..k]);
      OrderItemIds(items[k]);
      OrderItemsLast(items[..k], items[k]);
      SameIdsAdded(OrderItems(items[..k]), OrderItem(items[k]), items[..k], items[k]);
      assert items == items[..k] + [items[k]];
    }
  }

  lemma {:induction false} OrderStageIds(stage: Stage)
    ensures ItemsIds(OrderStage(stage).stageItems) == ItemsIds(stage.stageItems)
  {
    OrderItemsIds(stage.stageItems);
  }

  lemma {:induction false} OrderStagesIds(stages: seq<Stage>)
    ensures StagesIds(OrderStages(stages)) == StagesIds(stages)
  {
    if stages != [] {
      var k := |stages| - 1;
      OrderStagesIds(stages[..k]);
      OrderStageIds(stages[k]);
      assert stages == stages[..k] + [stages[k]];
      OrderStagesLast(stages[..k], stages[k]);
      StagesIdsLast(stages[..k], stages[k]);
      StagesIdsLast(OrderStages(stages[..k]), OrderStage(stages[k]));
    }
  }

  lemma {:induction false} InsertStageIds(x: Stage, stages: seq<Stage>)
    ensures multiset(MatchIds(AllMatches(Insert(StageById, x, stages))))
         == multiset(MatchIds(MatchesOfItems(x.stageItems))) + multiset(MatchIds(AllMatches(stages)))
  {
    if stages != [] && StageById(stages[0], x) {
      InsertStageIds(x, stages[1..]);
      MatchIdsAppend(MatchesOfItems(stages[0].stageItems), AllMatches(stages[1..]));
      MatchIdsAppend(MatchesOfItems(stages[0].stageItems), AllMatches(Insert(StageById, x, stages[1..])));
    } else {
      assert ([x] + stages)[1..] == stages;
      MatchIdsAppend(MatchesOfItems(x.stageItems), AllMatches(stages));
    }
  }

  lemma {:induction false} SortedStageIds(stages: seq<Stage>)
    ensures multiset(MatchIds(AllMatches(Sort(StageById, stages)))) == multiset(MatchIds(AllMatches(stages)))
  {
    if stages != [] {
      SortedStageIds(stages[1..]);
      InsertStageIds(stages[0], Sort(StageById, stages[1..]));
      MatchIdsAppend(MatchesOfItems(stages[0].stageItems), AllMatches(stages[1..]));
    }
  }

  /** The plan has exactly the matches of the tournament, each once. */
  lemma {:induction false} PlanIds(stages: seq<Stage>, t: Tournament)
    ensures multiset(TimingIds(Plan(stages, t))) == multiset(MatchIds(AllMatches(stages)))
    ensures UniqueIds(stages) ==> NoDuplicates(TimingIds(Plan(stages, t)))
  {
    PlanStagesIds(InPlayingOrder(stages), t);
    OrderStagesIds(Sort(StageById, stages));
    SortedStageIds(stages);
    if UniqueIds(stages) {
      NoDuplicatesPermuted(MatchIds(AllMatches(stages)), TimingIds(Plan(stages, t)));
    }
  }

  // ----- Retimed matches -----

  lemma {:induction false} RetimeAppend(a: seq<Match>, b: seq<Match>, ts: seq<Timing>)
    ensures RetimeMatches(a + b, ts) == RetimeMatches(a, ts) + RetimeMatches(b, ts)
  {
  }

  lemma {:induction false} RetimeRoundsMatches(rounds: seq<Round>, ts: seq<Timing>)
    ensures MatchesOf(RetimeRounds(rounds, ts)) == RetimeMatches(MatchesOf(rounds), ts)
  {
    if rounds != [] {
      assert RetimeRounds(rounds, ts)[1..] == RetimeRounds(rounds[1..], ts);
      RetimeRoundsMatches(rounds[1..], ts);
      RetimeAppend(rounds[0].matches, MatchesOf(rounds[1..]), ts);
    }
  }

  lemma {:induction false} RetimeItemsMatches(items: seq<StageItem>, ts: seq<Timing>)
    ensures MatchesOfItems(RetimeItems(items, ts)) == RetimeMatches(MatchesOfItems(items), ts)
  {
    if items != [] {
      assert RetimeItems(items, ts)[1..] == RetimeItems(items[1..], ts);
      RetimeItemsMatches(items[1..], ts);
      RetimeRoundsMatches(items[0].rounds, ts);
      RetimeAppend(MatchesOf(items[0].rounds), MatchesOfItems(items[1..]), ts);
    }
  }

  lemma {:induction false} RetimeStagesMatches(stages: seq<Stage>, ts: seq<Timing>)
    ensures AllMatches(RetimeStages(stages, ts)) == RetimeMatches(AllMatches(stages), ts)
  {
    if stages != [] {
      assert RetimeStages(stages, ts)[1..] == RetimeStages(stages[1..], ts);
      RetimeStagesMatches(stages[1..], ts);
      RetimeItemsMatches(stages[0].stageItems, ts);
      RetimeAppend(MatchesOfItems(stages[0].stageItems), AllMatches(stages[1..]), ts);
    }
  }

  lemma {:induction false} RetimeKeepsIds(ms: seq<Match>, ts: seq<Timing>)
    ensures MatchIds(RetimeMatches(ms, ts)) == MatchIds(ms)
  {
  }
}
