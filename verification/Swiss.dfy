/** One Swiss draw: from a history of rounds to the pairs of the coming round. */
module Swiss {
  import opened Models
  import opened Sorting
  import opened Matching
  import opened SwissPairings
  import opened SwissGraph

  datatype SwissPairing = SwissPairing(pairs: seq<TeamPair>, unpaired: seq<Input>)

  // ----- Who has played whom, and how often -----

  type Counter = map<InputId, nat>

  function Count(c: Counter, x: InputId): nat { if x in c then c[x] else 0 }

  function Increment(c: Counter, x: InputId): (r: Counter)
    ensures forall y :: Count(r, y) == Count(c, y) + if x == y then 1 else 0
  {
    c[x := Count(c, x) + 1]
  }

  method CollectPlayed(rounds: seq<Round>) returns (played: set<Pair>, times: Counter)
    ensures played == PlayedPairs(MatchesOf(rounds))
    ensures forall x :: Count(times, x) == TimesPlayed(MatchesOf(rounds), x)
  {
    played, times := {}, map[];
    ghost var seen: seq<Match> := [];
    for i := 0 to |rounds|
      invariant seen == MatchesOf(rounds[..i])
      invariant played == PlayedPairs(seen)
      invariant forall x :: Count(times, x) == TimesPlayed(seen, x)
    {
      var ms := rounds[i].matches;
      ghost var before := seen;
      for k := 0 to |ms|
        invariant seen == before + ms[..k]
        invariant played == PlayedPairs(seen)
        invariant forall x :: Count(times, x) == TimesPlayed(seen, x)
      {
        var m := ms[k];
        assert (seen + [m])[..|seen|] == seen;
        if m.IsDefinitive() {
          played := played + {Edge((m.input1.value, m.input2.value))};
          times := Increment(Increment(times, m.input1.value), m.input2.value);
        }
        seen := seen + [m];
      }
      MatchesOfNext(rounds, i);
    }
    assert rounds[..|rounds|] == rounds;
  }

  // ----- Building the graph -----

  lemma {:induction false} EdgeOfRanks(teams: seq<Input>, a: nat, b: nat, i: nat, j: nat)
    requires ProperIds(teams) && a < b < |teams| && i < j < |teams|
    ensures Edge((teams[a].id, teams[b].id)) == Edge((teams[i].id, teams[j].id)) <==> a == i && b == j
  {
  }

  predicate Before(a: nat, b: nat, i: nat, j: nat) { a < i || (a == i && b < j) }

  ghost predicate IsEdgeBefore(teams: seq<Input>, e: Pair, i: nat, j: nat) {
    exists a, b :: 0 <= a < b < |teams| && Before(a, b, i, j) && e == Edge((teams[a].id, teams[b].id))
  }

  /** The edges added so far: all pairs of ranks before `(i, j)` that have not met. */
  ghost predicate PairEdgesUpTo(g: Graph, played: set<Pair>, teams: seq<Input>, w: Scale, i: nat, j: nat) {
    && (forall a, b :: 0 <= a < b < |teams| && Before(a, b, i, j) ==> PairEdge(g, played, teams, w, a, b))
    && (forall e :: e in g ==> IsEdgeBefore(teams, e, i, j))
  }

  lemma {:induction false} NewEdge(teams: seq<Input>, i: nat, j: nat)
    requires ProperIds(teams) && i < j < |teams|
    ensures !IsEdgeBefore(teams, Edge((teams[i].id, teams[j].id)), i, j)
  {
    var e := Edge((teams[i].id, teams[j].id));
    forall a, b | 0 <= a < b < |teams| && Before(a, b, i, j)
      ensures e != Edge((teams[a].id, teams[b].id))
    {
      EdgeOfRanks(teams, a, b, i, j);
    }
  }

  lemma {:induction false} EdgeBeforeNext(teams: seq<Input>, e: Pair, i: nat, j: nat)
    requires i < j < |teams|
    requires IsEdgeBefore(teams, e, i, j) || e == Edge((teams[i].id, teams[j].id))
    ensures IsEdgeBefore(teams, e, i, j + 1)
  {
    if IsEdgeBefore(teams, e, i, j) {
      var a, b :| 0 <= a < b < |teams| && Before(a, b, i, j) && e == Edge((teams[a].id, teams[b].id));
      assert Before(a, b, i, j + 1);
    } else {
      assert Before(i, j, i, j + 1);
    }
  }

  lemma {:induction false} PairEdgeAdded(
      g: Graph, g': Graph, played: set<Pair>, teams: seq<Input>, w: Scale, i: nat, j: nat)
    requires ProperIds(teams) && i < j < |teams|
    requires PairEdgesUpTo(g, played, teams, w, i, j)
    requires w.gap(teams[i], teams[j]) <= w.credit
    requires var e := Edge((teams[i].id, teams[j].id));
      g' == if e in played then g else g[e := w.credit - w.gap(teams[i], teams[j])]
    ensures PairEdgesUpTo(g', played, teams, w, i, j + 1)
  {
    NewEdge(teams, i, j);
    forall a, b | 0 <= a < b < |teams| && Before(a, b, i, j + 1)
      ensures PairEdge(g', played, teams, w, a, b)
    {
      EdgeOfRanks(teams, a, b, i, j);
      assert (a == i && b == j) || PairEdge(g, played, teams, w, a, b);
    }
    forall e | e in g'
      ensures IsEdgeBefore(teams, e, i, j + 1)
    {
      EdgeBeforeNext(teams, e, i, j);
    }
  }

  /** Adds an edge from one team to every lower ranked team it has not met. */
  method AddPairEdgesOf(
      index: nat, g0: Graph, teams: seq<Input>, played: set<Pair>,
      gap: (Input, Input) -> nat, maxGap: nat, ghost w: Scale) returns (g: Graph)
    requires ProperIds(teams) && gap == w.gap && w.credit == maxGap + 1 && index < |teams|
    requires forall j :: index < j < |teams| ==> gap(teams[index], teams[j]) <= maxGap
    requires PairEdgesUpTo(g0, played, teams, w, index, index + 1)
    ensures PairEdgesUpTo(g, played, teams, w, index, |teams|)
  {
    g := g0;
    var team := teams[index];
    for k := index + 1 to |teams|
      invariant PairEdgesUpTo(g, played, teams, w, index, k)
    {
      var opponent := teams[k];
      ghost var before := g;
      if Edge((team.id, opponent.id)) !in played {
        g := g[Edge((team.id, opponent.id)) := maxGap - gap(team, opponent) + 1];
      }
      PairEdgeAdded(before, g, played, teams, w, index, k);
    }
  }

  /** Adds an edge for every two teams that have not met. */
  method AddPairEdges(
      teams: seq<Input>, played: set<Pair>, gap: (Input, Input) -> nat, maxGap: nat, ghost w: Scale)
      returns (g: Graph)
    requires ProperIds(teams) && gap == w.gap && w.credit == maxGap + 1
    requires forall i, j :: 0 <= i < j < |teams| ==> gap(teams[i], teams[j]) <= maxGap
    ensures PairEdgesUpTo(g, played, teams, w, |teams|, 0)
  {
    g := map[];
    for index := 0 to |teams|
      invariant PairEdgesUpTo(g, played, teams, w, index, 0)
    {
      RowStart(g, played, teams, w, index);
      g := AddPairEdgesOf(index, g, teams, played, gap, maxGap, w);
      NextRow(g, played, teams, w, index);
    }
  }

  lemma {:induction false} RowStart(g: Graph, played: set<Pair>, teams: seq<Input>, w: Scale, i: nat)
    requires i < |teams| && PairEdgesUpTo(g, played, teams, w, i, 0)
    ensures PairEdgesUpTo(g, played, teams, w, i, i + 1)
  {
    forall e | e in g
      ensures IsEdgeBefore(teams, e, i, i + 1)
    {
      var a, b :| 0 <= a < b < |teams| && Before(a, b, i, 0) && e == Edge((teams[a].id, teams[b].id));
      assert Before(a, b, i, i + 1);
    }
    forall a, b | 0 <= a < b < |teams| && Before(a, b, i, i + 1)
      ensures PairEdge(g, played, teams, w, a, b)
    {
      assert Before(a, b, i, 0);
    }
  }

  lemma {:induction false} NextRow(g: Graph, played: set<Pair>, teams: seq<Input>, w: Scale, i: nat)
    requires i < |teams| && PairEdgesUpTo(g, played, teams, w, i, |teams|)
    ensures PairEdgesUpTo(g, played, teams, w, i + 1, 0)
  {
    forall e | e in g
      ensures IsEdgeBefore(teams, e, i + 1, 0)
    {
      var a, b :| 0 <= a < b < |teams| && Before(a, b, i, |teams|) && e == Edge((teams[a].id, teams[b].id));
      assert Before(a, b, i + 1, 0);
    }
    forall a, b | 0 <= a < b < |teams| && Before(a, b, i + 1, 0)
      ensures PairEdge(g, played, teams, w, a, b)
    {
      assert Before(a, b, i, |teams|);
    }
  }

  ghost predicate BetweenTeams(g: Graph, teams: seq<Input>) {
    forall e :: e in g ==> IsTeam(teams, e.0) && IsTeam(teams, e.1)
  }

  lemma {:induction false} EdgesAreBetweenTeams(g: Graph, played: set<Pair>, teams: seq<Input>, w: Scale)
    requires PairEdgesUpTo(g, played, teams, w, |teams|, 0)
    ensures BetweenTeams(g, teams)
    ensures forall i, j :: 0 <= i < j < |teams| ==> PairEdge(g, played, teams, w, i, j)
  {
    forall e | e in g
      ensures IsTeam(teams, e.0) && IsTeam(teams, e.1)
    {
      var a, b :| 0 <= a < b < |teams| && Before(a, b, |teams|, 0) && e == Edge((teams[a].id, teams[b].id));
    }
    assert forall i, j :: 0 <= i < j < |teams| ==> Before(i, j, |teams|, 0);
  }

  /** `g` adds to `g0` the edges to the BYE of the first `rank` teams. */
  ghost predicate ByesUpTo(g0: Graph, g: Graph, teams: seq<Input>, w: Scale, rank: nat)
    requires |w.byes| == |teams|
  {
    && (forall e :: e in g0 ==> e in g && g[e] == g0[e])
    && (forall e :: e in g && e !in g0 ==> e.0 == BYE && IsTeam(teams, e.1))
    && (forall i :: 0 <= i < rank && i < |teams| ==> ByeEdge(g, teams, w, i))
  }

  lemma {:induction false} ByeAdded(g0: Graph, g: Graph, teams: seq<Input>, w: Scale, rank: nat)
    requires ProperIds(teams) && |w.byes| == |teams| && rank < |teams|
    requires BetweenTeams(g0, teams) && ByesUpTo(g0, g, teams, w, rank)
    ensures ByesUpTo(g0, g[Edge((teams[rank].id, BYE)) := w.byes[rank]], teams, w, rank + 1)
  {
    assert forall i :: 0 <= i < |teams| ==> teams[i] in teams && teams[i].id > 0;
    assert IsTeam(teams, teams[rank].id) && !IsTeam(teams, BYE);
    var e := Edge((teams[rank].id, BYE));
    assert e == (BYE, teams[rank].id);
    var g' := g[e := w.byes[rank]];
    assert ByeEdge(g', teams, w, rank);
    forall i | 0 <= i < rank
      ensures ByeEdge(g', teams, w, i)
    {
      assert ByeEdge(g, teams, w, i);
    }
  }

  lemma {:induction false} GraphComplete(
      g0: Graph, g: Graph, played: set<Pair>, teams: seq<Input>, w: Scale)
    requires ProperIds(teams) && |w.byes| == |teams| && PairEdgesUpTo(g0, played, teams, w, |teams|, 0)
    requires if |teams| % 2 == 1 then ByesUpTo(g0, g, teams, w, |teams|) else g == g0
    ensures IsPairingGraph(g, played, teams, w)
  {
    EdgesAreBetweenTeams(g0, played, teams, w);
    forall i, j | 0 <= i < j < |teams|
      ensures PairEdge(g, played, teams, w, i, j)
    {
      assert PairEdge(g0, played, teams, w, i, j);
      assert teams[i] in teams && teams[j] in teams;
    }
  }

  method FindMostPlayed(teams: seq<Input>, times: Counter, ghost ms: seq<Match>) returns (mostPlayed: nat)
    requires forall x :: Count(times, x) == TimesPlayed(ms, x)
    ensures mostPlayed == MostPlayed(ms, teams)
  {
    mostPlayed := 0;
    for k := 0 to |teams|
      invariant mostPlayed == 0 || exists i :: 0 <= i < k && TimesPlayed(ms, teams[i].id) == mostPlayed
      invariant forall i :: 0 <= i < k ==> TimesPlayed(ms, teams[i].id) <= mostPlayed
    {
      var n := Count(times, teams[k].id);
      mostPlayed := if n > mostPlayed then n else mostPlayed;
    }
  }

  method BuildGraph(teams: seq<Input>, played: set<Pair>, times: Counter, ghost ms: seq<Match>)
      returns (g: Graph)
    requires ProperIds(teams) && Sorted(HigherRanked, teams)
    requires played == PlayedPairs(ms)
    requires forall x :: Count(times, x) == TimesPlayed(ms, x)
    ensures IsPairingGraph(g, played, teams, ScaleOf(ms, teams))
  {
    ghost var w := ScaleOf(ms, teams);
    var maxTotalPairWeight := MaxTotalPairWeight(teams);
    var mostPlayed := FindMostPlayed(teams, times, ms);
    forall i, j | 0 <= i < j < |teams|
      ensures Gap(teams[i], teams[j]) <= MaxGap(teams)
    {
      GapBound(teams, i, j);
    }
    g := AddPairEdges(teams, played, Gap, MaxGap(teams), w);
    ghost var g0 := g;
    EdgesAreBetweenTeams(g0, played, teams, w);
    if |teams| % 2 == 1 {
      for rank := 0 to |teams|
        invariant ByesUpTo(g0, g, teams, w, rank)
      {
        var team := teams[rank];
        var hasntSatOut := Count(times, team.id) == mostPlayed;
        var weight := SitOutWeight(maxTotalPairWeight, Coefficient(|teams|, hasntSatOut, rank));
        assert weight == w.byes[rank];
        ByeAdded(g0, g, teams, w, rank);
        g := g[Edge((team.id, BYE)) := weight];
      }
    }
    GraphComplete(g0, g, played, teams, w);
  }

  // ----- From the matching back to teams -----

  /** Both ends of every pair are keys. */
  ghost predicate Known<T>(lookup: map<InputId, T>, m: seq<Pair>) {
    forall p :: p in m ==> p.0 in lookup && p.1 in lookup
  }

  /** The higher ranked team of every pair comes first. */
  function Oriented(rank: map<InputId, nat>, m: seq<Pair>): (r: seq<Pair>)
    requires Known(rank, m)
    ensures |r| == |m|
    ensures forall i :: 0 <= i < |m| ==> r[i] == m[i] || r[i] == (m[i].1, m[i].0)
    ensures forall p :: p in r ==> rank[p.0] <= rank[p.1]
  {
    if m == [] then []
    else
      assert m[0] in m;
      var p := m[0];
      [if rank[p.0] < rank[p.1] then p else (p.1, p.0)] + Oriented(rank, m[1..])
  }

  function RankOf(rank: map<InputId, nat>, x: InputId): nat { if x in rank then rank[x] else 0 }

  function ByFirstRank(rank: map<InputId, nat>): (Pair, Pair) -> bool {
    (p: Pair, q: Pair) => RankOf(rank, p.0) < RankOf(rank, q.0)
  }

  function Lookup(byId: map<InputId, Input>, m: seq<Pair>): (r: seq<TeamPair>)
    requires Known(byId, m)
    ensures |r| == |m|
    ensures forall i :: 0 <= i < |m| ==> r[i] == (byId[m[i].0], byId[m[i].1])
  {
    if m == [] then []
    else
      assert m[0] in m;
      [(byId[m[0].0], byId[m[0].1])] + Lookup(byId, m[1..])
  }

  function Unpaired(teams: seq<Input>, paired: set<InputId>): (r: seq<Input>)
    ensures forall t :: t in r <==> t in teams && t.id !in paired
  {
    if teams == [] then []
    else if teams[0].id in paired then Unpaired(teams[1..], paired)
    else [teams[0]] + Unpaired(teams[1..], paired)
  }

  lemma {:induction false} OrientedMatching(g: Graph, rank: map<InputId, nat>, m: seq<Pair>)
    requires Known(rank, m) && IsMatching(g, m)
    ensures IsMatching(g, Oriented(rank, m))
  {
    var r := Oriented(rank, m);
    forall p | p in r
      ensures p.0 != p.1 && Edge(p) in g
    {
      var i :| 0 <= i < |r| && r[i] == p;
      assert m[i] in m;
    }
    forall i, j | 0 <= i < j < |r|
      ensures Disjoint(r[i], r[j])
    {
      assert Disjoint(m[i], m[j]);
    }
  }

  lemma {:induction false} OrientedWeight(g: Graph, rank: map<InputId, nat>, m: seq<Pair>)
    requires Known(rank, m) && AreEdges(g, m) && AreEdges(g, Oriented(rank, m))
    ensures Weight(g, Oriented(rank, m)) == Weight(g, m)
  {
    if m != [] {
      assert Oriented(rank, m)[1..] == Oriented(rank, m[1..]);
      OrientedWeight(g, rank, m[1..]);
      assert m[0] in m;
    }
  }

  function RankById(teams: seq<Input>): (rank: map<InputId, nat>)
    requires ProperIds(teams)
    ensures forall i :: 0 <= i < |teams| ==> teams[i].id in rank && rank[teams[i].id] == i
    ensures forall x :: x in rank ==> rank[x] < |teams| && teams[rank[x]].id == x
  {
    map i: nat | i < |teams| :: teams[i].id := i
  }

  function TeamsById(teams: seq<Input>): (byId: map<InputId, Input>)
    requires ProperIds(teams)
    ensures forall x :: x in byId ==> byId[x] in teams && byId[x].id == x
  {
    map x | x in RankById(teams) :: teams[RankById(teams)[x]]
  }

  /** The pairs of the matching as the service orders them: by rank, higher ranked team first. */
  function OrderedIds(teams: seq<Input>, m: seq<Pair>): seq<Pair>
    requires ProperIds(teams) && Known(RankById(teams), WithoutBye(m))
  {
    Sort(ByFirstRank(RankById(teams)), Oriented(RankById(teams), WithoutBye(m)))
  }

  ghost predicate IsOrderedPair(rank: map<InputId, nat>, p: Pair) {
    p.0 in rank && p.1 in rank && rank[p.0] <= rank[p.1]
  }

  lemma {:induction false} MatchingKnown(
      g: Graph, played: set<Pair>, teams: seq<Input>, w: Scale, m: seq<Pair>)
    requires IsPairingGraph(g, played, teams, w) && ProperIds(teams) && IsMatching(g, m)
    ensures Known(RankById(teams), WithoutBye(m))
  {
    forall p | p in WithoutBye(m)
      ensures p.0 in RankById(teams) && p.1 in RankById(teams)
    {
      assert p in m && Edge(p) in g;
      assert IsTeam(teams, p.0) && IsTeam(teams, p.1);
    }
  }

  /** Orienting and sorting the pairs keeps the matching and its weight. */
  lemma {:induction false} OrderedMatching(g: Graph, teams: seq<Input>, m: seq<Pair>)
    requires ProperIds(teams) && Known(RankById(teams), WithoutBye(m)) && IsMatching(g, m)
    ensures AreEdges(g, WithoutBye(m)) && IsMatching(g, OrderedIds(teams, m))
    ensures Weight(g, OrderedIds(teams, m)) == Weight(g, WithoutBye(m))
    ensures |OrderedIds(teams, m)| == |WithoutBye(m)|
  {
    ByesApart(m);
    SplitByes(g, m);
    var rank := RankById(teams);
    OrientedMatching(g, rank, WithoutBye(m));
    OrientedWeight(g, rank, WithoutBye(m));
    SortKeepsMatching(g, ByFirstRank(rank), Oriented(rank, WithoutBye(m)));
  }

  lemma {:induction false} OrderedMembers(teams: seq<Input>, m: seq<Pair>)
    requires ProperIds(teams) && Known(RankById(teams), WithoutBye(m))
    ensures forall p :: p in OrderedIds(teams, m) ==>
              IsOrderedPair(RankById(teams), p) && (p in WithoutBye(m) || (p.1, p.0) in WithoutBye(m))
  {
    var rank := RankById(teams);
    var known := WithoutBye(m);
    var oriented := Oriented(rank, known);
    forall p | p in OrderedIds(teams, m)
      ensures IsOrderedPair(rank, p) && (p in known || (p.1, p.0) in known)
    {
      MemberOfPermutation(OrderedIds(teams, m), oriented, p);
      var i :| 0 <= i < |oriented| && oriented[i] == p;
      assert known[i] in known;
    }
  }

  ghost predicate FindsTeams(byId: map<InputId, Input>, teams: seq<Input>) {
    forall x :: x in byId ==> byId[x] in teams && byId[x].id == x
  }

  lemma {:induction false} IdsOfLookup(byId: map<InputId, Input>, teams: seq<Input>, m: seq<Pair>)
    requires FindsTeams(byId, teams) && Known(byId, m)
    ensures Ids(Lookup(byId, m)) == m
  {
    if m != [] {
      assert m[0] in m;
      IdsOfLookup(byId, teams, m[1..]);
      var l := Lookup(byId, m);
      assert l[1..] == Lookup(byId, m[1..]);
      assert Ids(l) == [(l[0].0.id, l[0].1.id)] + Ids(l[1..]);
      assert l[0].0.id == m[0].0 && l[0].1.id == m[0].1;
      assert m == [m[0]] + m[1..];
    }
  }

  lemma {:induction false} LookupIsPairing(
      g: Graph, played: set<Pair>, teams: seq<Input>, w: Scale, byId: map<InputId, Input>, ids: seq<Pair>)
    requires IsPairingGraph(g, played, teams, w) && Symmetric(teams, w.gap)
    requires FindsTeams(byId, teams) && Known(byId, ids) && IsMatching(g, ids)
    ensures IsPairing(teams, played, Lookup(byId, ids))
  {
    var p := Lookup(byId, ids);
    IdsOfLookup(byId, teams, ids);
    forall i | 0 <= i < |p|
      ensures && p[i].0 in teams && p[i].1 in teams && p[i].0.id != p[i].1.id
              && Edge((p[i].0.id, p[i].1.id)) !in played
    {
      assert ids[i] in ids;
      EdgeBetween(g, played, teams, w, p[i].0, p[i].1);
    }
  }

  /** Every pair is one of the matching's that is not with the BYE, in one orientation. */
  ghost predicate FromMatching(m: seq<Pair>, ids: seq<Pair>) {
    forall p :: p in ids ==> p in WithoutBye(m) || (p.1, p.0) in WithoutBye(m)
  }

  lemma {:induction false} PairedNotBye(m: seq<Pair>, ids: seq<Pair>, x: InputId, p: Pair)
    requires AreDisjoint(m) && FromMatching(m, ids)
    requires p in ids && (p.0 == x || p.1 == x)
    ensures (x, BYE) !in Byes(m) && (BYE, x) !in Byes(m)
  {
    ByesApart(m);
    var q := if p in WithoutBye(m) then p else (p.1, p.0);
    assert q in WithoutBye(m);
  }

  /** The pairs of the service are the pairs of the matching. */
  lemma {:induction false} LookupRepresents(
      g: Graph, played: set<Pair>, teams: seq<Input>, w: Scale, m: seq<Pair>,
      byId: map<InputId, Input>, ids: seq<Pair>)
    requires IsPairingGraph(g, played, teams, w) && Symmetric(teams, w.gap)
    requires IsMatching(g, m) && IsMatching(g, ids) && FromMatching(m, ids)
    requires AreEdges(g, WithoutBye(m)) && Weight(g, ids) == Weight(g, WithoutBye(m))
    requires |ids| == |WithoutBye(m)|
    requires FindsTeams(byId, teams) && Known(byId, ids)
    ensures Represents(g, played, teams, m, Lookup(byId, ids))
  {
    var p := Lookup(byId, ids);
    LookupIsPairing(g, played, teams, w, byId, ids);
    IdsOfLookup(byId, teams, ids);
    SplitByes(g, m);
    ByesApart(m);
    forall t | t in teams && Plays(p, t)
      ensures (t.id, BYE) !in Byes(m) && (BYE, t.id) !in Byes(m)
    {
      var i :| 0 <= i < |p| && (p[i].0 == t || p[i].1 == t);
      assert Ids(p)[i] == ids[i];
      PairedNotBye(m, ids, t.id, ids[i]);
    }
  }

  // ----- The pairing -----

  ghost predicate SameMembers(a: seq<Input>, b: seq<Input>) {
    |a| == |b| && forall t :: t in a <==> t in b
  }

  lemma {:induction false} LargestOfSame(a: seq<Input>, b: seq<Input>, played: set<Pair>, q: seq<TeamPair>)
    requires SameMembers(a, b)
    ensures IsLargest(a, played, q) ==> IsLargest(b, played, q)
  {
    forall o | IsPairing(b, played, o)
      ensures IsPairing(a, played, o)
    {
    }
  }

  lemma {:induction false} SitOutOfSame(a: seq<Input>, b: seq<Input>, ms: seq<Match>, q: seq<TeamPair>, s: Input)
    requires SameMembers(a, b) && IsBestSitOut(a, ms, q, s)
    ensures IsBestSitOut(b, ms, q, s)
  {
    assert MostPlayed(ms, a) == MostPlayed(ms, b);
    forall o, t | IsLargest(b, PlayedPairs(ms), o) && t in b && !Plays(o, t)
      ensures SitsOutBefore(ms, b, s, t) && (t == s ==> SquaredPoints(q) <= SquaredPoints(o))
    {
      LargestOfSame(b, a, PlayedPairs(ms), o);
      assert SitsOutBefore(ms, a, s, t);
    }
  }

  /** The order of the teams does not matter for what is best. */
  lemma {:induction false} BestOfSame(a: seq<Input>, b: seq<Input>, ms: seq<Match>, q: seq<TeamPair>)
    requires SameMembers(a, b) && IsBest(a, ms, q)
    ensures IsBest(b, ms, q)
  {
    LargestOfSame(a, b, PlayedPairs(ms), q);
    if |a| % 2 == 1 {
      var s :| IsBestSitOut(a, ms, q, s);
      SitOutOfSame(a, b, ms, q, s);
    } else {
      forall o | IsLargest(b, PlayedPairs(ms), o)
        ensures SquaredPoints(q) <= SquaredPoints(o)
      {
        LargestOfSame(b, a, PlayedPairs(ms), o);
      }
    }
  }

  lemma {:induction false} ActiveProper(inputs: seq<Input>)
    requires ProperIds(inputs)
    ensures ProperIds(ActiveTeams(inputs))
  {
    if inputs != [] {
      var rest := inputs[1..];
      assert forall t :: t in rest ==> t in inputs;
      ActiveProper(rest);
      var r := ActiveTeams(rest);
      forall i | 0 <= i < |r|
        ensures r[i].id != inputs[0].id
      {
        assert r[i] in r && r[i] in rest;
        var k :| 0 <= k < |rest| && rest[k] == r[i];
        assert inputs[k + 1] == r[i];
      }
    }
  }

  lemma {:induction false} ProperPermutation(a: seq<Input>, b: seq<Input>)
    requires ProperIds(a) && multiset(a) == multiset(b)
    ensures ProperIds(b) && SameMembers(a, b)
  {
    assert |a| == |multiset(a)| == |multiset(b)| == |b|;
    forall t
      ensures t in a <==> t in b
    {
      MemberOfPermutation(a, b, t);
    }
    forall i, j | 0 <= i < j < |b|
      ensures b[i].id != b[j].id
    {
      assert b[i] in b && b[j] in b;
      SameTeam(a, b[i], b[j]);
      if b[i] == b[j] {
        TwiceInMultiset(b, i, j);
        OnceInMultiset(a, b[i]);
      }
    }
  }

  lemma {:induction false} TwiceInMultiset(s: seq<Input>, i: nat, j: nat)
    requires i < j < |s| && s[i] == s[j]
    ensures multiset(s)[s[i]] >= 2
  {
    assert s == s[..j] + [s[j]] + s[j + 1..];
    assert s[..j][i] == s[j];
    assert s[j] in multiset(s[..j]);
  }

  lemma {:induction false} OnceInMultiset(s: seq<Input>, t: Input)
    requires ProperIds(s)
    ensures multiset(s)[t] <= 1
  {
    if s != [] {
      assert s == [s[0]] + s[1..];
      OnceInMultiset(s[1..], t);
      if t == s[0] {
        assert t !in s[1..];
      }
    }
  }

  lemma {:induction false} UnpairedProper(teams: seq<Input>, paired: set<InputId>)
    requires ProperIds(teams)
    ensures ProperIds(Unpaired(teams, paired))
  {
    if teams != [] {
      var rest := teams[1..];
      assert forall t :: t in rest ==> t in teams;
      UnpairedProper(rest, paired);
      var r := Unpaired(rest, paired);
      forall i | 0 <= i < |r|
        ensures r[i].id != teams[0].id
      {
        assert r[i] in r && r[i] in rest;
        var k :| 0 <= k < |rest| && rest[k] == r[i];
        assert teams[k + 1] == r[i];
      }
    }
  }

  lemma {:induction false} UnpairedSorted(teams: seq<Input>, paired: set<InputId>)
    requires Sorted(HigherRanked, teams)
    ensures Sorted(HigherRanked, Unpaired(teams, paired))
  {
    if teams != [] {
      var rest := teams[1..];
      UnpairedSorted(rest, paired);
      var r := Unpaired(rest, paired);
      forall i | 0 <= i < |r|
        ensures !HigherRanked(r[i], teams[0])
      {
        assert r[i] in r && r[i] in rest;
        var k :| 0 <= k < |rest| && rest[k] == r[i];
        assert teams[k + 1] == r[i];
      }
    }
  }

  /** Pairs and unpaired teams are listed from the top of the standings down, and the higher
      ranked team of a pair comes first. */
  ghost predicate InStandingsOrder(r: SwissPairing) {
    && (forall i :: 0 <= i < |r.pairs| ==> r.pairs[i].0.points >= r.pairs[i].1.points)
    && (forall i, j :: 0 <= i < j < |r.pairs| ==> r.pairs[i].0.points >= r.pairs[j].0.points)
    && (forall i, j :: 0 <= i < j < |r.unpaired| ==> r.unpaired[i].points >= r.unpaired[j].points)
  }

  lemma {:induction false} RankPoints(teams: seq<Input>, x: InputId, y: InputId)
    requires ProperIds(teams) && Sorted(HigherRanked, teams)
    requires x in RankById(teams) && y in RankById(teams) && RankById(teams)[x] <= RankById(teams)[y]
    ensures TeamsById(teams)[x].points >= TeamsById(teams)[y].points
  {
    var i, j := RankById(teams)[x], RankById(teams)[y];
    SameTeam(teams, TeamsById(teams)[x], teams[i]);
    SameTeam(teams, TeamsById(teams)[y], teams[j]);
    assert i == j || !HigherRanked(teams[j], teams[i]);
  }

  lemma {:induction false} OrderedPairs(teams: seq<Input>, ids: seq<Pair>, i: nat, j: nat)
    requires ProperIds(teams) && Sorted(HigherRanked, teams) && Known(TeamsById(teams), ids)
    requires forall p :: p in ids ==> IsOrderedPair(RankById(teams), p)
    requires Sorted(ByFirstRank(RankById(teams)), ids)
    requires i <= j < |ids|
    ensures Lookup(TeamsById(teams), ids)[i].0.points >= Lookup(TeamsById(teams), ids)[i].1.points
    ensures Lookup(TeamsById(teams), ids)[i].0.points >= Lookup(TeamsById(teams), ids)[j].0.points
  {
    assert ids[i] in ids && ids[j] in ids;
    RankPoints(teams, ids[i].0, ids[i].1);
    assert i == j || !ByFirstRank(RankById(teams))(ids[j], ids[i]);
    RankPoints(teams, ids[i].0, ids[j].0);
  }

  lemma {:induction false} StandingsOrder(teams: seq<Input>, m: seq<Pair>, paired: set<InputId>)
    requires ProperIds(teams) && Sorted(HigherRanked, teams)
    requires Known(RankById(teams), WithoutBye(m)) && Known(TeamsById(teams), OrderedIds(teams, m))
    ensures InStandingsOrder(
              SwissPairing(Lookup(TeamsById(teams), OrderedIds(teams, m)), Unpaired(teams, paired)))
  {
    var ids, unpaired := OrderedIds(teams, m), Unpaired(teams, paired);
    var p := Lookup(TeamsById(teams), ids);
    OrderedMembers(teams, m);
    SortSorts(ByFirstRank(RankById(teams)), Oriented(RankById(teams), WithoutBye(m)));
    forall i, j | 0 <= i <= j < |p|
      ensures p[i].0.points >= p[i].1.points && p[i].0.points >= p[j].0.points
    {
      OrderedPairs(teams, ids, i, j);
    }
    UnpairedSorted(teams, paired);
    forall i, j | 0 <= i < j < |unpaired|
      ensures unpaired[i].points >= unpaired[j].points
    {
      assert !HigherRanked(unpaired[j], unpaired[i]);
    }
  }

  lemma {:induction false} OrderedKnown(teams: seq<Input>, m: seq<Pair>)
    requires ProperIds(teams) && Known(RankById(teams), WithoutBye(m))
    ensures Known(TeamsById(teams), OrderedIds(teams, m))
    ensures FromMatching(m, OrderedIds(teams, m)) && FindsTeams(TeamsById(teams), teams)
  {
    OrderedMembers(teams, m);
  }

  lemma {:induction false} OrderedRepresents(
      g: Graph, played: set<Pair>, teams: seq<Input>, w: Scale, m: seq<Pair>)
    requires IsPairingGraph(g, played, teams, w) && Symmetric(teams, w.gap)
    requires ProperIds(teams) && IsMatching(g, m) && Known(RankById(teams), WithoutBye(m))
    ensures Known(TeamsById(teams), OrderedIds(teams, m))
    ensures Represents(g, played, teams, m, Lookup(TeamsById(teams), OrderedIds(teams, m)))
  {
    OrderedKnown(teams, m);
    OrderedMatching(g, teams, m);
    LookupRepresents(g, played, teams, w, m, TeamsById(teams), OrderedIds(teams, m));
  }

  lemma {:induction false} PairingOfMatching(
      g: Graph, ms: seq<Match>, teams: seq<Input>, m: seq<Pair>)
    requires IsPairingGraph(g, PlayedPairs(ms), teams, ScaleOf(ms, teams))
    requires Sorted(HigherRanked, teams) && ProperIds(teams) && LargestHeaviest(g, m)
    ensures Known(RankById(teams), WithoutBye(m)) && Known(TeamsById(teams), OrderedIds(teams, m))
    ensures IsBest(teams, ms, Lookup(TeamsById(teams), OrderedIds(teams, m)))
  {
    MatchingKnown(g, PlayedPairs(ms), teams, ScaleOf(ms, teams), m);
    OrderedRepresents(g, PlayedPairs(ms), teams, ScaleOf(ms, teams), m);
    HeaviestIsBest(g, ms, teams, m, Lookup(TeamsById(teams), OrderedIds(teams, m)));
  }

  lemma {:induction false} PairedTeams(teams: seq<Input>, played: set<Pair>, p: seq<TeamPair>, t: Input)
    requires ProperIds(teams) && IsPairing(teams, played, p) && t in teams
    ensures t.id in Covered(Ids(p)) <==> Plays(p, t)
  {
    InCovered(Ids(p), t.id);
    if t.id in Covered(Ids(p)) {
      var i :| 0 <= i < |p| && (Ids(p)[i].0 == t.id || Ids(p)[i].1 == t.id);
      SameTeam(teams, p[i].0, t);
      SameTeam(teams, p[i].1, t);
    }
  }

  function PairedIds(m: seq<Pair>): (r: set<InputId>)
    ensures r == Covered(m)
  {
    if m == [] then {} else {m[0].0, m[0].1} + PairedIds(m[1..])
  }

  /** The pairing of the service, for teams in the order of the standings. */
  function PairingOf(teams: seq<Input>, matching: seq<Pair>): SwissPairing
    requires ProperIds(teams) && Known(RankById(teams), WithoutBye(matching))
    requires Known(TeamsById(teams), OrderedIds(teams, matching))
  {
    var ids := OrderedIds(teams, matching);
    SwissPairing(Lookup(TeamsById(teams), ids), Unpaired(teams, PairedIds(ids)))
  }

  /** Whoever is not paired is unpaired. */
  lemma {:induction false} Partition(teams: seq<Input>, played: set<Pair>, pairs: seq<TeamPair>)
    requires ProperIds(teams) && IsPairing(teams, played, pairs)
    ensures var unpaired := Unpaired(teams, Covered(Ids(pairs)));
      && (forall t :: t in teams <==> t in unpaired || Plays(pairs, t))
      && (forall t :: t in unpaired ==> !Plays(pairs, t))
  {
    forall t | t in teams
      ensures t.id in Covered(Ids(pairs)) <==> Plays(pairs, t)
    {
      PairedTeams(teams, played, pairs, t);
    }
  }

  lemma {:induction false} PairingPartitions(teams: seq<Input>, played: set<Pair>, m: seq<Pair>)
    requires ProperIds(teams) && Known(RankById(teams), WithoutBye(m))
    requires Known(TeamsById(teams), OrderedIds(teams, m))
    requires IsPairing(teams, played, PairingOf(teams, m).pairs)
    ensures var r := PairingOf(teams, m);
      && (forall t :: t in teams <==> t in r.unpaired || Plays(r.pairs, t))
      && (forall t :: t in r.unpaired ==> !Plays(r.pairs, t))
  {
    OrderedKnown(teams, m);
    IdsOfLookup(TeamsById(teams), teams, OrderedIds(teams, m));
    Partition(teams, played, PairingOf(teams, m).pairs);
  }

  /** One Swiss draw. Ties in points are broken by `shuffled`, any permutation; `library` is any
      function that finds a largest matching of maximal weight. */
  method GetSwissPairing(item: StageItem, shuffled: seq<Input>, library: Graph -> seq<Pair>)
      returns (r: SwissPairing)
    requires ProperIds(item.inputs)
    requires multiset(shuffled) == multiset(ActiveTeams(item.inputs))
    requires forall g: Graph :: LargestHeaviest(g, library(g))
    ensures IsBest(ActiveTeams(item.inputs), MatchesOf(item.rounds), r.pairs)
    ensures forall t :: t in ActiveTeams(item.inputs) <==> t in r.unpaired || Plays(r.pairs, t)
    ensures forall t :: t in r.unpaired ==> !Plays(r.pairs, t)
    ensures ProperIds(r.unpaired) && InStandingsOrder(r)
  {
    ghost var ms, active := MatchesOf(item.rounds), ActiveTeams(item.inputs);
    var played, times := CollectPlayed(item.rounds);
    var teams := Sort(HigherRanked, shuffled);
    TeamsInOrder(item.inputs, shuffled);
    var graph := BuildGraph(teams, played, times, ms);
    var matching := library(graph);
    PairingOfMatching(graph, ms, teams, matching);
    r := PairingOf(teams, matching);
    PairingPartitions(teams, played, matching);
    UnpairedProper(teams, PairedIds(OrderedIds(teams, matching)));
    StandingsOrder(teams, matching, PairedIds(OrderedIds(teams, matching)));
    BestOfSame(teams, active, ms, r.pairs);
  }

  lemma {:induction false} TeamsInOrder(inputs: seq<Input>, shuffled: seq<Input>)
    requires ProperIds(inputs) && multiset(shuffled) == multiset(ActiveTeams(inputs))
    ensures var teams := Sort(HigherRanked, shuffled);
      ProperIds(teams) && Sorted(HigherRanked, teams) && SameMembers(teams, ActiveTeams(inputs))
  {
    HigherRankedIsOrder();
    SortSorts(HigherRanked, shuffled);
    ActiveProper(inputs);
    ProperPermutation(ActiveTeams(inputs), Sort(HigherRanked, shuffled));
  }

  lemma {:induction false} HigherRankedIsOrder()
    ensures StrictWeak(HigherRanked)
  {
  }
}
