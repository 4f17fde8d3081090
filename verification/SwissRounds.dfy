/** Creating the rounds of a Swiss stage item, one after the other. */
module SwissRounds {
  import opened Models
  import opened Matching
  import opened SwissPairings
  import opened Swiss

  datatype Refusal = CreatedAutomatically | DraftExists | TooFewTeams | EveryoneHasMet

  /** A new match: nobody has scored. */
  function NewMatch(id: MatchId, roundId: RoundId, p: Pair, t: Tournament): Match {
    Match(id, roundId, Some(p.0), Some(p.1), None, None, 0, 0, None, t.duration, t.margin, None, None)
  }

  /** The matches of a round have these inputs. */
  ghost predicate HaveInputs(ms: seq<Match>, ids: seq<Pair>) {
    && |ms| == |ids|
    && forall i :: 0 <= i < |ms| ==> ms[i].input1 == Some(ids[i].0) && ms[i].input2 == Some(ids[i].1)
  }

  // ----- The step -----

  predicate HasDraft(rounds: seq<Round>)
    ensures HasDraft(rounds) <==> exists r :: r in rounds && r.isDraft
  {
    rounds != [] && (rounds[0].isDraft || HasDraft(rounds[1..]))
  }

  /** Why the creation of a round is refused, if it is. */
  ghost function Refused(kind: StageType, s: State): Option<Refusal> {
    if kind != Swiss then Some(CreatedAutomatically)
    else if exists r :: r in s.rounds && r.isDraft then Some(DraftExists)
    else if |ActiveTeams(s.inputs)| < 2 then Some(TooFewTeams)
    else if EveryoneMet(ActiveTeams(s.inputs), MatchesOf(s.rounds)) then Some(EveryoneHasMet)
    else None
  }

  /** Nobody has scored, no time is planned, and the length is that of the tournament. */
  ghost predicate IsNew(m: Match, id: MatchId, roundId: RoundId, t: Tournament) {
    && m.id == id && m.roundId == roundId && m.score1 == 0 && m.score2 == 0
    && m.start == None && m.duration == t.duration && m.margin == t.margin
    && m.customDuration == None && m.customMargin == None
  }

  /** `round` is a draft of a best, nonempty pairing; its matches are new and have consecutive ids. */
  ghost predicate IsNextRound(s: State, round: Round, roundId: RoundId, matchId: MatchId, t: Tournament) {
    && round.id == roundId && round.isDraft
    && (forall i :: 0 <= i < |round.matches| ==> IsNew(round.matches[i], matchId + i, roundId, t))
    && (forall m :: m in round.matches ==> m.source1 == None && m.source2 == None)
    && exists q :: IsDraw(s, round, q)
  }

  ghost predicate IsDraw(s: State, round: Round, q: seq<TeamPair>) {
    && q != []
    && IsBest(ActiveTeams(s.inputs), MatchesOf(s.rounds), q)
    && HaveInputs(round.matches, Ids(q))
  }

  // ----- Editing drafts -----

  datatype EditRefusal = NoSuchRound | NoSuchMatch | NotADraft | AgainstItself | AlreadyPlays

  /** The request to create a match. */
  datatype NewPairing = NewPairing(
    roundId: RoundId,
    input1: Option<InputId>,
    input2: Option<InputId>,
    source1: Option<MatchId>,
    source2: Option<MatchId>)

  function RoundIndex(rounds: seq<Round>, id: RoundId): (k: Option<nat>)
    ensures k.Some? ==> k.value < |rounds| && rounds[k.value].id == id
    ensures k.None? ==> forall r :: r in rounds ==> r.id != id
  {
    if rounds == [] then None
    else if rounds[0].id == id then Some(0)
    else
      var k := RoundIndex(rounds[1..], id);
      if k.Some? then Some(k.value + 1) else None
  }

  function Known(x: Option<InputId>): seq<InputId> { if x.Some? then [x.value] else [] }

  function InputsOfMatch(m: Match): seq<InputId> { Known(m.input1) + Known(m.input2) }

  /** The inputs of the matches, one after the other. */
  function InputsIn(ms: seq<Match>): seq<InputId> {
    if ms == [] then []
    else InputsIn(ms[..|ms| - 1]) + InputsOfMatch(ms[|ms| - 1])
  }

  /** Why a match is not created, if it is not. */
  function CreateRefused(kind: StageType, rounds: seq<Round>, b: NewPairing): Option<EditRefusal> {
    var k := RoundIndex(rounds, b.roundId);
    if k.None? then Some(NoSuchRound)
    else
      var round := rounds[k.value];
      if !round.isDraft || kind != Swiss then Some(NotADraft)
      else if b.input1.Some? && b.input1 == b.input2 then Some(AgainstItself)
      else if (b.input1.Some? && b.input1.value in InputsIn(round.matches))
              || (b.input2.Some? && b.input2.value in InputsIn(round.matches)) then Some(AlreadyPlays)
      else None
  }

  lemma {:induction false} InputsInIff(ms: seq<Match>, x: InputId)
    ensures x in InputsIn(ms) <==> exists m :: m in ms && m.HasInput(x)
  {
    if ms != [] {
      var k := |ms| - 1;
      assert ms == ms[..k] + [ms[k]];
      InputsInIff(ms[..k], x);
      assert x in InputsOfMatch(ms[k]) <==> ms[k].HasInput(x);
      assert forall m :: m in ms <==> m in ms[..k] || m == ms[k];
    }
  }

  /** Some match of the round has the input on a side. */
  ghost predicate Taken(ms: seq<Match>, input: Option<InputId>) {
    input.Some? && exists m :: m in ms && (m.input1 == input || m.input2 == input)
  }

  /** The refusals, in the order in which they are looked for. */
  lemma {:induction false} CreateRefusedIff(kind: StageType, rounds: seq<Round>, b: NewPairing)
    ensures var refused, k := CreateRefused(kind, rounds, b), RoundIndex(rounds, b.roundId);
      && (refused == Some(NoSuchRound) <==> forall r :: r in rounds ==> r.id != b.roundId)
      && (refused != Some(NoSuchRound) ==>
           && k.Some? && rounds[k.value].id == b.roundId
           && var round := rounds[k.value];
           && var oneself := b.input1.Some? && b.input1 == b.input2;
           && var taken := Taken(round.matches, b.input1) || Taken(round.matches, b.input2);
           && (refused == Some(NotADraft) <==> !round.isDraft || kind != Swiss)
           && (refused == Some(AgainstItself) <==> round.isDraft && kind == Swiss && oneself)
           && (refused == Some(AlreadyPlays) <==> round.isDraft && kind == Swiss && !oneself && taken)
           && (refused == None <==> round.isDraft && kind == Swiss && !oneself && !taken))
  {
    var k := RoundIndex(rounds, b.roundId);
    if k.Some? {
      var ms := rounds[k.value].matches;
      assert rounds[k.value] in rounds;
      if b.input1.Some? { InputsInIff(ms, b.input1.value); }
      if b.input2.Some? { InputsInIff(ms, b.input2.value); }
    }
  }

  function CreatedMatch(id: MatchId, b: NewPairing, t: Tournament): Match {
    Match(id, b.roundId, b.input1, b.input2, b.source1, b.source2, 0, 0, None, t.duration, t.margin, None, None)
  }

  function WithMatch(rounds: seq<Round>, k: nat, m: Match): seq<Round>
    requires k < |rounds|
  {
    rounds[k := rounds[k].(matches := rounds[k].matches + [m])]
  }

  function Without<T>(s: seq<T>, i: nat): seq<T>
    requires i < |s|
  {
    s[..i] + s[i + 1..]
  }

  function WithoutMatch(rounds: seq<Round>, k: nat, i: nat): seq<Round>
    requires k < |rounds| && i < |rounds[k].matches|
  {
    rounds[k := rounds[k].(matches := Without(rounds[k].matches, i))]
  }

  function MatchIndex(ms: seq<Match>, id: MatchId): (i: Option<nat>)
    ensures i.Some? ==> i.value < |ms| && ms[i.value].id == id
    ensures i.None? ==> forall m :: m in ms ==> m.id != id
  {
    if ms == [] then None
    else if ms[0].id == id then Some(0)
    else
      var i := MatchIndex(ms[1..], id);
      if i.Some? then Some(i.value + 1) else None
  }

  /** The round and position of a match. */
  function MatchPlace(rounds: seq<Round>, id: MatchId): (p: Option<(nat, nat)>)
    ensures p.Some? ==>
              && p.value.0 < |rounds| && p.value.1 < |rounds[p.value.0].matches|
              && rounds[p.value.0].matches[p.value.1].id == id
    ensures p.None? ==> forall r, m :: r in rounds && m in r.matches ==> m.id != id
  {
    if rounds == [] then None
    else
      var i := MatchIndex(rounds[0].matches, id);
      if i.Some? then Some((0, i.value))
      else
        var p := MatchPlace(rounds[1..], id);
        if p.Some? then Some((p.value.0 + 1, p.value.1)) else None
  }

  /** The new match `m` comes last in round `k`, and nothing else changes. */
  ghost predicate IsAppended(before: seq<Round>, after: seq<Round>, k: nat, m: Match) {
    && k < |before| == |after|
    && after[k] == before[k].(matches := after[k].matches) && after[k].matches == before[k].matches + [m]
    && forall j :: 0 <= j < |before| && j != k ==> after[j] == before[j]
  }

  /** A new match with the inputs and sources of the request. */
  ghost predicate IsRequested(m: Match, id: MatchId, b: NewPairing, t: Tournament) {
    && IsNew(m, id, b.roundId, t)
    && m.input1 == b.input1 && m.input2 == b.input2 && m.source1 == b.source1 && m.source2 == b.source2
  }

  /** The match at position `i` of round `k` is gone, and nothing else changes. */
  ghost predicate IsRemoved(before: seq<Round>, after: seq<Round>, k: nat, i: nat) {
    && k < |before| == |after| && i < |before[k].matches|
    && after[k] == before[k].(matches := after[k].matches)
    && after[k].matches == before[k].matches[..i] + before[k].matches[i + 1..]
    && forall j :: 0 <= j < |before| && j != k ==> after[j] == before[j]
  }

  class SwissItem {
    var kind: StageType
    var inputs: seq<Input>
    var rounds: seq<Round>

    ghost function Value(): State
      reads this
    {
      State(inputs, rounds)
    }

    /** Appends a freshly drawn draft, or says why not. The database numbers it `roundId` and its
        matches from `matchId` on. */
    method CreateRound(
        roundId: RoundId, matchId: MatchId, t: Tournament,
        shuffled: seq<Input>, library: Graph -> seq<Pair>)
        returns (result: Result<RoundId, Refusal>)
      requires ProperIds(inputs)
      requires multiset(shuffled) == multiset(ActiveTeams(inputs))
      requires forall g: Graph :: LargestHeaviest(g, library(g))
      modifies `rounds
      ensures match old(Refused(kind, Value()))
              case Some(refusal) => result == Err(refusal) && rounds == old(rounds)
              case None =>
                && result == Ok(roundId)
                && |rounds| == |old(rounds)| + 1 && rounds[..|old(rounds)|] == old(rounds)
                && IsNextRound(old(Value()), rounds[|old(rounds)|], roundId, matchId, t)
    {
      var planned := PlanRound(kind, State(inputs, rounds), roundId, matchId, t, shuffled, library);
      if planned.Err? {
        return Err(planned.error);
      }
      rounds := rounds + [planned.value];
      result := Ok(roundId);
    }

    /** Adds a match to a draft; the database gives it the id `id`. */
    method CreateMatch(b: NewPairing, id: MatchId, t: Tournament) returns (r: Result<MatchId, EditRefusal>)
      modifies `rounds
      ensures match CreateRefused(kind, old(rounds), b)
              case Some(refusal) => r == Err(refusal) && rounds == old(rounds)
              case None =>
                && r == Ok(id) && RoundIndex(old(rounds), b.roundId).Some?
                && IsAppended(old(rounds), rounds, RoundIndex(old(rounds), b.roundId).value, CreatedMatch(id, b, t))
                && IsRequested(CreatedMatch(id, b, t), id, b, t)
    {
      var k := RoundIndex(rounds, b.roundId);
      if k.None? {
        return Err(NoSuchRound);
      }
      var round := rounds[k.value];
      if !round.isDraft || kind != Swiss {
        return Err(NotADraft);
      }
      if b.input1.Some? && b.input1 == b.input2 {
        return Err(AgainstItself);
      }
      var taken := InputsIn(round.matches);
      if (b.input1.Some? && b.input1.value in taken) || (b.input2.Some? && b.input2.value in taken) {
        return Err(AlreadyPlays);
      }
      rounds := WithMatch(rounds, k.value, CreatedMatch(id, b, t));
      r := Ok(id);
    }

    /** Deletes a match of a draft. */
    method DeleteMatch(id: MatchId) returns (r: Result<MatchId, EditRefusal>)
      modifies `rounds
      ensures var p := MatchPlace(old(rounds), id);
        if p.None? then r == Err(NoSuchMatch) && rounds == old(rounds)
        else if !old(rounds)[p.value.0].isDraft || kind != Swiss then r == Err(NotADraft) && rounds == old(rounds)
        else r == Ok(id) && IsRemoved(old(rounds), rounds, p.value.0, p.value.1)
    {
      var p := MatchPlace(rounds, id);
      if p.None? {
        return Err(NoSuchMatch);
      }
      if !rounds[p.value.0].isDraft || kind != Swiss {
        return Err(NotADraft);
      }
      rounds := WithoutMatch(rounds, p.value.0, p.value.1);
      r := Ok(id);
    }

    /** Deletes a round with its matches. */
    method DeleteRound(id: RoundId) returns (r: Result<RoundId, EditRefusal>)
      modifies `rounds
      ensures var k := RoundIndex(old(rounds), id);
        if k.None? then r == Err(NoSuchRound) && rounds == old(rounds)
        else r == Ok(id) && rounds == old(rounds)[..k.value] + old(rounds)[k.value + 1..]
    {
      var k := RoundIndex(rounds, id);
      if k.None? {
        return Err(NoSuchRound);
      }
      rounds := Without(rounds, k.value);
      r := Ok(id);
    }
  }

  /** The round to create, or why there is none. */
  method PlanRound(
      kind: StageType, s: State, roundId: RoundId, matchId: MatchId,
      t: Tournament, shuffled: seq<Input>, library: Graph -> seq<Pair>)
      returns (result: Result<Round, Refusal>)
    requires ProperIds(s.inputs)
    requires multiset(shuffled) == multiset(ActiveTeams(s.inputs))
    requires forall g: Graph :: LargestHeaviest(g, library(g))
    ensures Refused(kind, s).Some? ==> result == Err(Refused(kind, s).value)
    ensures Refused(kind, s).None? ==> result.Ok? && IsNextRound(s, result.value, roundId, matchId, t)
  {
    if kind != Swiss {
      return Err(CreatedAutomatically);
    }
    if HasDraft(s.rounds) {
      return Err(DraftExists);
    }
    var pairing := Draw(StageItem(0, kind, |s.inputs|, s.inputs, s.rounds), shuffled, library);
    if |pairing.pairs| < 1 {
      return Err(if |pairing.unpaired| < 2 then TooFewTeams else EveryoneHasMet);
    }
    var created := CreateMatches(PairIds(pairing.pairs), matchId, roundId, t);
    assert IsDraw(s, Round(roundId, true, created), pairing.pairs);
    result := Ok(Round(roundId, true, created));
  }

  /** One match for every pair, with ascending ids. */
  method CreateMatches(ids: seq<Pair>, firstId: MatchId, roundId: RoundId, t: Tournament)
      returns (created: seq<Match>)
    ensures HaveInputs(created, ids)
    ensures forall i :: 0 <= i < |created| ==> IsNew(created[i], firstId + i, roundId, t)
    ensures forall m :: m in created ==> m.source1 == None && m.source2 == None
  {
    created := [];
    for i := 0 to |ids|
      invariant |created| == i
      invariant forall k :: 0 <= k < i ==> created[k] == NewMatch(firstId + k, roundId, ids[k], t)
    {
      created := created + [NewMatch(firstId + i, roundId, ids[i], t)];
    }
  }

  /** The best pairing; it is empty only if there is nothing left to pair. */
  method Draw(item: StageItem, shuffled: seq<Input>, library: Graph -> seq<Pair>)
      returns (pairing: SwissPairing)
    requires ProperIds(item.inputs)
    requires multiset(shuffled) == multiset(ActiveTeams(item.inputs))
    requires forall g: Graph :: LargestHeaviest(g, library(g))
    ensures IsBest(ActiveTeams(item.inputs), MatchesOf(item.rounds), pairing.pairs)
    ensures pairing.pairs == [] ==> |pairing.unpaired| == |ActiveTeams(item.inputs)|
    ensures pairing.pairs == [] <==>
              |ActiveTeams(item.inputs)| < 2 || EveryoneMet(ActiveTeams(item.inputs), MatchesOf(item.rounds))
  {
    pairing := GetSwissPairing(item, shuffled, library);
    ActiveProper(item.inputs);
    DrawOutcome(ActiveTeams(item.inputs), MatchesOf(item.rounds), pairing);
  }

  function PairIds(q: seq<TeamPair>): (r: seq<Pair>)
    ensures r == Ids(q)
  {
    Ids(q)
  }

  ghost predicate EveryoneMet(teams: seq<Input>, ms: seq<Match>) {
    forall a, b :: a in teams && b in teams && a.id != b.id ==> Edge((a.id, b.id)) in PlayedPairs(ms)
  }

  lemma {:induction false} UnmetPairing(teams: seq<Input>, played: set<Pair>, a: Input, b: Input)
    requires a in teams && b in teams && a.id != b.id && Edge((a.id, b.id)) !in played
    ensures IsPairing(teams, played, [(a, b)])
  {
  }

  lemma {:induction false} AllUnpaired(teams: seq<Input>, unpaired: seq<Input>)
    requires ProperIds(teams) && ProperIds(unpaired)
    requires forall t :: t in teams <==> t in unpaired
    ensures |unpaired| == |teams|
  {
    assert IdSet(teams) == IdSet(unpaired);
    IdSetSize(teams);
    IdSetSize(unpaired);
  }

  /** There is nothing to pair exactly if there are too few teams or everyone has met everyone. */
  lemma {:induction false} NothingToPairIff(teams: seq<Input>, ms: seq<Match>, pairs: seq<TeamPair>)
    requires ProperIds(teams) && IsLargest(teams, PlayedPairs(ms), pairs)
    ensures pairs == [] <==> |teams| < 2 || EveryoneMet(teams, ms)
  {
    if pairs != [] {
      var p := pairs[0];
      assert p.0 in teams && p.1 in teams && Edge((p.0.id, p.1.id)) !in PlayedPairs(ms);
    }
    if !EveryoneMet(teams, ms) {
      var a, b :| a in teams && b in teams && a.id != b.id && Edge((a.id, b.id)) !in PlayedPairs(ms);
      UnmetPairing(teams, PlayedPairs(ms), a, b);
      assert |[(a, b)]| <= |pairs|;
    }
  }

  lemma {:induction false} DrawOutcome(teams: seq<Input>, ms: seq<Match>, r: SwissPairing)
    requires ProperIds(teams) && ProperIds(r.unpaired) && IsLargest(teams, PlayedPairs(ms), r.pairs)
    requires forall t :: t in teams <==> t in r.unpaired || Plays(r.pairs, t)
    ensures r.pairs == [] ==> |r.unpaired| == |teams|
    ensures r.pairs == [] <==> |teams| < 2 || EveryoneMet(teams, ms)
  {
    NothingToPairIff(teams, ms, r.pairs);
    if r.pairs == [] {
      assert forall t :: t in teams <==> t in r.unpaired;
      AllUnpaired(teams, r.unpaired);
    }
  }

  // ----- Runs -----

  datatype State = State(inputs: seq<Input>, rounds: seq<Round>)

  /** One round was generated. */
  ghost predicate Generated(s: State, s': State) {
    && s'.inputs == s.inputs
    && |s'.rounds| == |s.rounds| + 1 && s'.rounds[..|s.rounds|] == s.rounds
    && exists q :: IsDraw(s, s'.rounds[|s.rounds|], q)
  }
}
