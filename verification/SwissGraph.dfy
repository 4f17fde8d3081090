/** The weighted graph of a Swiss round, and why its heaviest largest matching is the best
    pairing: integer weights that encode three levels of preference. */
module SwissGraph {
  import opened Models
  import opened Sorting
  import opened Matching
  import opened SwissPairings

  /** The node that stands for having no opponent; no input has this id. */
  const BYE: InputId := -1

  /** How edges are weighed: a pair weighs `credit` minus its gap, and `byes` are the weights of
      the edges to the BYE, by rank. */
  datatype Scale = Scale(gap: (Input, Input) -> nat, credit: nat, byes: seq<nat>)

  /** The edge between two ranks, with its weight. */
  ghost predicate PairEdge(g: Graph, played: set<Pair>, teams: seq<Input>, w: Scale, i: nat, j: nat)
    requires i < |teams| && j < |teams|
  {
    var e := Edge((teams[i].id, teams[j].id));
    if e in played then e !in g
    else e in g && g[e] + w.gap(teams[i], teams[j]) == w.credit
  }

  ghost predicate ByeEdge(g: Graph, teams: seq<Input>, w: Scale, i: nat)
    requires i < |teams| && i < |w.byes|
  {
    var e := Edge((teams[i].id, BYE));
    e in g && g[e] == w.byes[i]
  }

  ghost predicate IsTeam(teams: seq<Input>, x: InputId) {
    exists i :: 0 <= i < |teams| && teams[i].id == x
  }

  /** An edge for every two teams that have not met; for an odd number of teams an edge from every
      team to the BYE; and no other edges. */
  ghost predicate IsPairingGraph(g: Graph, played: set<Pair>, teams: seq<Input>, w: Scale) {
    && |w.byes| == |teams|
    && (forall i, j :: 0 <= i < j < |teams| ==> PairEdge(g, played, teams, w, i, j))
    && (|teams| % 2 == 1 ==> forall i :: 0 <= i < |teams| ==> ByeEdge(g, teams, w, i))
    && (forall e :: e in g ==>
         && (IsTeam(teams, e.0) || (e.0 == BYE && |teams| % 2 == 1))
         && (IsTeam(teams, e.1) || (e.1 == BYE && |teams| % 2 == 1)))
  }

  ghost predicate Symmetric(teams: seq<Input>, gap: (Input, Input) -> nat) {
    forall a, b :: a in teams && b in teams ==> gap(a, b) == gap(b, a)
  }

  // ----- Pairings are matchings -----

  lemma {:induction false} EdgeBetween(
      g: Graph, played: set<Pair>, teams: seq<Input>, w: Scale, a: Input, b: Input)
    requires IsPairingGraph(g, played, teams, w) && Symmetric(teams, w.gap)
    requires a in teams && b in teams && a.id != b.id
    ensures var e := Edge((a.id, b.id));
      && (e in g <==> e !in played)
      && (e in g ==> g[e] + w.gap(a, b) == w.credit)
  {
    var i :| 0 <= i < |teams| && teams[i] == a;
    var j :| 0 <= j < |teams| && teams[j] == b;
    assert if i < j then PairEdge(g, played, teams, w, i, j) else PairEdge(g, played, teams, w, j, i);
  }

  lemma {:induction false} PairingIsMatching(
      g: Graph, played: set<Pair>, teams: seq<Input>, w: Scale, q: seq<TeamPair>)
    requires IsPairingGraph(g, played, teams, w) && Symmetric(teams, w.gap)
    requires IsPairing(teams, played, q)
    ensures IsMatching(g, Ids(q))
  {
    forall p | p in Ids(q)
      ensures p.0 != p.1 && Edge(p) in g
    {
      var i :| 0 <= i < |q| && Ids(q)[i] == p;
      EdgeBetween(g, played, teams, w, q[i].0, q[i].1);
    }
  }

  /** Every pair lies on an edge whose weight and gap add up to the credit. */
  ghost predicate GapsComplement(g: Graph, w: Scale, q: seq<TeamPair>) {
    forall i :: 0 <= i < |q| ==>
      var p := q[i];
      Edge((p.0.id, p.1.id)) in g && g[Edge((p.0.id, p.1.id))] + w.gap(p.0, p.1) == w.credit
  }

  lemma {:induction false} ProductStep(n: nat, c: nat)
    ensures (n + 1) * c == c + n * c
  {
  }

  lemma {:induction false} WeightComplementsGap(g: Graph, w: Scale, q: seq<TeamPair>)
    requires AreEdges(g, Ids(q)) && GapsComplement(g, w, q)
    ensures Weight(g, Ids(q)) + TotalGap(w.gap, q) == |q| * w.credit
  {
    if q != [] {
      var rest := q[1..];
      assert Ids(q)[1..] == Ids(rest);
      assert forall i :: 0 <= i < |rest| ==> rest[i] == q[i + 1];
      WeightComplementsGap(g, w, rest);
      ProductStep(|rest|, w.credit);
    }
  }

  /** A pairing is a matching, and the closer its teams are, the more it weighs. */
  lemma {:induction false} PairingWeight(
      g: Graph, played: set<Pair>, teams: seq<Input>, w: Scale, q: seq<TeamPair>)
    requires IsPairingGraph(g, played, teams, w) && Symmetric(teams, w.gap)
    requires IsPairing(teams, played, q)
    ensures IsMatching(g, Ids(q))
    ensures Weight(g, Ids(q)) + TotalGap(w.gap, q) == |q| * w.credit
  {
    PairingIsMatching(g, played, teams, w, q);
    forall i | 0 <= i < |q|
      ensures var p := q[i];
        && Edge((p.0.id, p.1.id)) in g
        && g[Edge((p.0.id, p.1.id))] + w.gap(p.0, p.1) == w.credit
    {
      EdgeBetween(g, played, teams, w, q[i].0, q[i].1);
    }
    WeightComplementsGap(g, w, q);
  }

  /** With an odd number of teams, a pairing and the sit-out of a team it leaves out form a
      matching. */
  lemma {:induction false} SitOutMatching(
      g: Graph, played: set<Pair>, teams: seq<Input>, w: Scale, q: seq<TeamPair>, rank: nat)
    requires IsPairingGraph(g, played, teams, w) && Symmetric(teams, w.gap) && ProperIds(teams)
    requires IsPairing(teams, played, q)
    requires |teams| % 2 == 1 && rank < |teams| && !Plays(q, teams[rank])
    ensures IsMatching(g, Ids(q))
    ensures var m := Ids(q) + [(teams[rank].id, BYE)];
      && IsMatching(g, m)
      && Weight(g, m) == Weight(g, Ids(q)) + w.byes[rank]
  {
    PairingIsMatching(g, played, teams, w, q);
    var bye := [(teams[rank].id, BYE)];
    assert ByeEdge(g, teams, w, rank);
    WeightAppend(g, Ids(q), bye);
    assert Weight(g, bye) == g[Edge(bye[0])] + Weight(g, bye[1..]);
    forall i | 0 <= i < |q|
      ensures Disjoint(Ids(q)[i], bye[0])
    {
      SameTeam(teams, q[i].0, teams[rank]);
      SameTeam(teams, q[i].1, teams[rank]);
    }
  }

  // ----- What the library returns -----

  predicate IsBye(p: Pair) { p.0 == BYE || p.1 == BYE }

  function WithoutBye(m: seq<Pair>): (r: seq<Pair>)
    ensures forall p :: p in r <==> p in m && !IsBye(p)
  {
    if m == [] then []
    else if IsBye(m[0]) then WithoutBye(m[1..])
    else [m[0]] + WithoutBye(m[1..])
  }

  ghost function Byes(m: seq<Pair>): (r: seq<Pair>)
    ensures forall p :: p in r <==> p in m && IsBye(p)
  {
    if m == [] then []
    else if IsBye(m[0]) then [m[0]] + Byes(m[1..])
    else Byes(m[1..])
  }

  lemma {:induction false} OnlyBye(b: Pair, rest: seq<Pair>)
    requires IsBye(b) && forall p :: p in rest ==> Disjoint(b, p)
    ensures Byes(rest) == []
  {
    if rest != [] {
      assert rest[0] in rest;
      OnlyBye(b, rest[1..]);
    }
  }

  lemma {:induction false} HeadDisjoint(m: seq<Pair>)
    requires AreDisjoint(m) && m != []
    ensures forall p :: p in m[1..] ==> Disjoint(m[0], p) && Disjoint(p, m[0])
  {
    forall p | p in m[1..]
      ensures Disjoint(m[0], p)
    {
      var i :| 0 <= i < |m[1..]| && m[1..][i] == p;
      assert Disjoint(m[0], m[i + 1]);
    }
  }

  /** A matching uses the BYE at most once. */
  lemma {:induction false} SplitByes(g: Graph, m: seq<Pair>)
    requires IsMatching(g, m)
    ensures AreEdges(g, WithoutBye(m)) && AreEdges(g, Byes(m))
    ensures |m| == |WithoutBye(m)| + |Byes(m)|
    ensures Weight(g, m) == Weight(g, WithoutBye(m)) + Weight(g, Byes(m))
  {
    if m != [] {
      var rest := m[1..];
      SplitByes(g, rest);
      assert m[0] in m;
      if IsBye(m[0]) {
        assert Byes(m)[1..] == Byes(rest);
      } else {
        assert WithoutBye(m)[1..] == WithoutBye(rest);
      }
    }
  }

  lemma {:induction false} ByesApart(m: seq<Pair>)
    requires AreDisjoint(m)
    ensures |Byes(m)| <= 1 && AreDisjoint(WithoutBye(m))
    ensures forall p, q :: p in WithoutBye(m) && q in Byes(m) ==> Disjoint(p, q)
  {
    if m != [] {
      ByesApart(m[1..]);
      HeadDisjoint(m);
      if IsBye(m[0]) { OnlyBye(m[0], m[1..]); }
    }
  }

  /** `p` are the pairs of teams in the matching `m`. */
  ghost predicate Represents(
      g: Graph, played: set<Pair>, teams: seq<Input>, m: seq<Pair>, p: seq<TeamPair>)
    requires AreEdges(g, m)
  {
    && IsPairing(teams, played, p)
    && AreEdges(g, Ids(p)) && AreEdges(g, Byes(m)) && |Byes(m)| <= 1
    && |m| == |p| + |Byes(m)|
    && Weight(g, m) == Weight(g, Ids(p)) + Weight(g, Byes(m))
    && forall t :: t in teams && Plays(p, t) ==> (t.id, BYE) !in Byes(m) && (BYE, t.id) !in Byes(m)
  }

  lemma {:induction false} WithoutByeEdges(g: Graph, m: seq<Pair>)
    requires AreEdges(g, m) && forall e :: e in g ==> e.0 != BYE && e.1 != BYE
    ensures Byes(m) == []
  {
    if m != [] {
      assert m[0] in m;
      WithoutByeEdges(g, m[1..]);
    }
  }

  lemma {:induction false} NoByeForEven(
      g: Graph, played: set<Pair>, teams: seq<Input>, w: Scale, m: seq<Pair>)
    requires IsPairingGraph(g, played, teams, w) && ProperIds(teams)
    requires IsMatching(g, m) && |teams| % 2 == 0
    ensures Byes(m) == []
  {
    assert forall i :: 0 <= i < |teams| ==> teams[i] in teams;
    WithoutByeEdges(g, m);
  }

  lemma {:induction false} LeftOut(teams: seq<Input>, played: set<Pair>, q: seq<TeamPair>) returns (rank: nat)
    requires ProperIds(teams) && IsPairing(teams, played, q) && |teams| % 2 == 1
    ensures rank < |teams| && !Plays(q, teams[rank])
  {
    PairingCovers(teams, played, q);
    var t :| t in teams && !Plays(q, t);
    rank :| 0 <= rank < |teams| && teams[rank] == t;
  }

  /** With an odd number of teams, every pairing extends to a matching with one more edge. */
  lemma {:induction false} PairingExtends(
      g: Graph, played: set<Pair>, teams: seq<Input>, w: Scale, o: seq<TeamPair>) returns (q: seq<Pair>)
    requires IsPairingGraph(g, played, teams, w) && Symmetric(teams, w.gap) && ProperIds(teams)
    requires IsPairing(teams, played, o)
    ensures IsMatching(g, q) && |q| == |o| + |teams| % 2
  {
    PairingIsMatching(g, played, teams, w, o);
    q := Ids(o);
    if |teams| % 2 == 1 {
      var rank := LeftOut(teams, played, o);
      SitOutMatching(g, played, teams, w, o, rank);
      q := q + [(teams[rank].id, BYE)];
    }
  }

  /** Every largest matching of oddly many teams uses the BYE, so the pairs are as
      many as any pairing has. */
  lemma {:induction false} LargestMatchingLargestPairing(
      g: Graph, played: set<Pair>, teams: seq<Input>, w: Scale, m: seq<Pair>, p: seq<TeamPair>)
    requires IsPairingGraph(g, played, teams, w) && Symmetric(teams, w.gap) && ProperIds(teams)
    requires LargestHeaviest(g, m) && Represents(g, played, teams, m, p)
    ensures IsLargest(teams, played, p)
    ensures |Byes(m)| == |teams| % 2
  {
    forall o | IsPairing(teams, played, o)
      ensures |o| + |teams| % 2 <= |m|
    {
      var q := PairingExtends(g, played, teams, w, o);
    }
    if |teams| % 2 == 0 { NoByeForEven(g, played, teams, w, m); }
  }

  /** The team that the matching pairs with the BYE. */
  lemma {:induction false} SitOutOf(
      g: Graph, played: set<Pair>, teams: seq<Input>, w: Scale, m: seq<Pair>, p: seq<TeamPair>)
      returns (rank: nat)
    requires IsPairingGraph(g, played, teams, w) && ProperIds(teams)
    requires IsMatching(g, m) && Represents(g, played, teams, m, p)
    requires |teams| % 2 == 1 && |Byes(m)| == 1
    ensures rank < |teams| && !Plays(p, teams[rank])
    ensures Weight(g, Byes(m)) == w.byes[rank]
  {
    var bye := Byes(m)[0];
    assert bye in Byes(m) && bye in m && Edge(bye) in g;
    var x := if bye.0 == BYE then bye.1 else bye.0;
    assert x != BYE && IsTeam(teams, x);
    rank :| 0 <= rank < |teams| && teams[rank].id == x;
    assert ByeEdge(g, teams, w, rank);
    assert Byes(m)[1..] == [];
    assert teams[rank] in teams;
  }

  /** The matching that sits out `t` does not outweigh the one returned, which sits out `b`. */
  lemma {:induction false} SitOutWeights(
      g: Graph, played: set<Pair>, teams: seq<Input>, w: Scale, m: seq<Pair>, p: seq<TeamPair>,
      b: nat, o: seq<TeamPair>, t: nat)
    requires IsPairingGraph(g, played, teams, w) && Symmetric(teams, w.gap) && ProperIds(teams)
    requires LargestHeaviest(g, m) && Represents(g, played, teams, m, p)
    requires |teams| % 2 == 1 && |Byes(m)| == 1
    requires b < |teams| && Weight(g, Byes(m)) == w.byes[b]
    requires IsPairing(teams, played, o) && |o| == |p| && t < |teams| && !Plays(o, teams[t])
    ensures IsMatching(g, Ids(o))
    ensures Weight(g, Ids(o)) + w.byes[t] <= Weight(g, Ids(p)) + w.byes[b]
  {
    SitOutMatching(g, played, teams, w, o, t);
    assert IsMatching(g, Ids(o) + [(teams[t].id, BYE)]);
  }

  lemma {:induction false} ProductMonotone(a: nat, b: nat, c: nat)
    requires a <= b
    ensures a * c <= b * c
  {
  }

  lemma {:induction false} PairWeightBound(
      g: Graph, played: set<Pair>, teams: seq<Input>, w: Scale, q: seq<TeamPair>)
    requires IsPairingGraph(g, played, teams, w) && Symmetric(teams, w.gap) && ProperIds(teams)
    requires IsPairing(teams, played, q)
    ensures IsMatching(g, Ids(q))
    ensures Weight(g, Ids(q)) <= (|teams| / 2) * w.credit
  {
    PairingCovers(teams, played, q);
    PairingWeight(g, played, teams, w, q);
    ProductMonotone(|q|, |teams| / 2, w.credit);
  }

  lemma {:induction false} SmallerGap(
      g: Graph, played: set<Pair>, teams: seq<Input>, w: Scale, p: seq<TeamPair>, o: seq<TeamPair>)
    requires IsPairingGraph(g, played, teams, w) && Symmetric(teams, w.gap)
    requires IsPairing(teams, played, p) && IsPairing(teams, played, o) && |p| == |o|
    requires AreEdges(g, Ids(p)) && AreEdges(g, Ids(o)) && Weight(g, Ids(o)) <= Weight(g, Ids(p))
    ensures TotalGap(w.gap, p) <= TotalGap(w.gap, o)
  {
    PairingWeight(g, played, teams, w, o);
    PairingWeight(g, played, teams, w, p);
  }

  // ----- The weights the service uses -----

  predicate HigherRanked(a: Input, b: Input) { a.points > b.points }

  function MaxGap(teams: seq<Input>): nat {
    if |teams| > 0 then Gap(teams[0], teams[|teams| - 1]) else 0
  }

  function MaxTotalPairWeight(teams: seq<Input>): nat {
    (|teams| / 2) * (MaxGap(teams) + 1)
  }

  /** Orders the teams: first whether they pass the test, then by rank. */
  function Coefficient(n: nat, hasntSatOut: bool, rank: nat): nat {
    n * (if hasntSatOut then 1 else 0) + rank + 1
  }

  /** The weight of a BYE edge: more than all pairs together, times the coefficient. */
  function SitOutWeight(maxTotalPairWeight: nat, coefficient: nat): nat {
    (maxTotalPairWeight + 1) * coefficient
  }

  function ByeWeight(ms: seq<Match>, teams: seq<Input>, rank: nat): nat
    requires rank < |teams|
  {
    SitOutWeight(MaxTotalPairWeight(teams),
      Coefficient(|teams|, HasntSatOut(ms, teams, teams[rank]), rank))
  }

  ghost function ScaleOf(ms: seq<Match>, teams: seq<Input>): Scale {
    Scale(Gap, MaxGap(teams) + 1,
      seq(|teams|, i requires 0 <= i < |teams| => ByeWeight(ms, teams, i)))
  }

  lemma {:induction false} SquareMonotone(a: int, b: int)
    requires 0 <= a <= b
    ensures a * a <= b * b
  {
    assert a * a <= a * b <= b * b;
  }

  /** No gap exceeds the one between the first and the last team of the standings. */
  lemma {:induction false} GapBound(teams: seq<Input>, i: nat, j: nat)
    requires Sorted(HigherRanked, teams) && i < |teams| && j < |teams|
    ensures Gap(teams[i], teams[j]) <= MaxGap(teams)
  {
    var last := |teams| - 1;
    assert i == 0 || !HigherRanked(teams[i], teams[0]);
    assert j == 0 || !HigherRanked(teams[j], teams[0]);
    assert i == last || !HigherRanked(teams[last], teams[i]);
    assert j == last || !HigherRanked(teams[last], teams[j]);
    var a, b := AbsDiff(teams[i], teams[j]).Floor, AbsDiff(teams[0], teams[last]).Floor;
    assert 0 <= a <= b;
    SquareMonotone(a, b);
  }

  /** No difference between pairs makes up for a smaller coefficient. */
  lemma {:induction false} LexicographicWeights(w: nat, pairs1: nat, pairs2: nat, c1: nat, c2: nat)
    requires pairs1 <= w && pairs2 <= w
    requires pairs1 + SitOutWeight(w, c1) <= pairs2 + SitOutWeight(w, c2)
    ensures c1 <= c2
    ensures c1 == c2 ==> pairs1 <= pairs2
  {
    assert c1 <= c2 || (w + 1) * c1 >= (w + 1) * (c2 + 1);
  }

  /** The order of the coefficients of the BYE edges is the order of preference. */
  lemma {:induction false} CoefficientOrder(ms: seq<Match>, teams: seq<Input>, t: nat, b: nat)
    requires Sorted(HigherRanked, teams) && t < |teams| && b < |teams|
    requires Coefficient(|teams|, HasntSatOut(ms, teams, teams[t]), t)
          <= Coefficient(|teams|, HasntSatOut(ms, teams, teams[b]), b)
    ensures SitsOutBefore(ms, teams, teams[b], teams[t])
  {
    assert t >= b || !HigherRanked(teams[b], teams[t]);
  }

  lemma {:induction false} LexicographicByes(
      ms: seq<Match>, teams: seq<Input>, pairs1: nat, pairs2: nat, t: nat, b: nat)
    requires Sorted(HigherRanked, teams) && t < |teams| && b < |teams|
    requires pairs1 <= (|teams| / 2) * ScaleOf(ms, teams).credit
    requires pairs2 <= (|teams| / 2) * ScaleOf(ms, teams).credit
    requires pairs1 + ScaleOf(ms, teams).byes[t] <= pairs2 + ScaleOf(ms, teams).byes[b]
    ensures SitsOutBefore(ms, teams, teams[b], teams[t])
    ensures t == b ==> pairs1 <= pairs2
  {
    LexicographicWeights(MaxTotalPairWeight(teams), pairs1, pairs2,
      Coefficient(|teams|, HasntSatOut(ms, teams, teams[t]), t),
      Coefficient(|teams|, HasntSatOut(ms, teams, teams[b]), b));
    CoefficientOrder(ms, teams, t, b);
  }

  lemma {:induction false} CompareSitOuts(
      g: Graph, ms: seq<Match>, played: set<Pair>, teams: seq<Input>, w: Scale, m: seq<Pair>,
      p: seq<TeamPair>, b: nat, o: seq<TeamPair>, t: nat)
    requires w == ScaleOf(ms, teams) && IsPairingGraph(g, played, teams, w) && Symmetric(teams, w.gap)
    requires Sorted(HigherRanked, teams) && ProperIds(teams)
    requires LargestHeaviest(g, m) && Represents(g, played, teams, m, p)
    requires |teams| % 2 == 1 && |Byes(m)| == 1
    requires b < |teams| && Weight(g, Byes(m)) == w.byes[b]
    requires IsPairing(teams, played, o) && |o| == |p| && t < |teams| && !Plays(o, teams[t])
    ensures SitsOutBefore(ms, teams, teams[b], teams[t])
    ensures t == b ==> TotalGap(w.gap, p) <= TotalGap(w.gap, o)
  {
    SitOutWeights(g, played, teams, w, m, p, b, o, t);
    PairWeightBound(g, played, teams, w, o);
    PairWeightBound(g, played, teams, w, p);
    var weightO, weightP := Weight(g, Ids(o)), Weight(g, Ids(p));
    LexicographicByes(ms, teams, weightO, weightP, t, b);
    if t == b { SmallerGap(g, played, teams, w, p, o); }
  }

  /** The integer weights implement the preference of `IsBest`. */
  lemma {:induction false} HeaviestIsBest(
      g: Graph, ms: seq<Match>, teams: seq<Input>, m: seq<Pair>, p: seq<TeamPair>)
    requires IsPairingGraph(g, PlayedPairs(ms), teams, ScaleOf(ms, teams))
    requires Sorted(HigherRanked, teams) && ProperIds(teams)
    requires LargestHeaviest(g, m) && Represents(g, PlayedPairs(ms), teams, m, p)
    ensures IsBest(teams, ms, p)
  {
    var w, played := ScaleOf(ms, teams), PlayedPairs(ms);
    LargestMatchingLargestPairing(g, played, teams, w, m, p);
    TotalGapIsSquares(p);
    if |teams| % 2 == 0 {
      NoByeForEven(g, played, teams, w, m);
      forall o | IsLargest(teams, played, o)
        ensures SquaredPoints(p) <= SquaredPoints(o)
      {
        TotalGapIsSquares(o);
        PairingIsMatching(g, played, teams, w, o);
        assert |Ids(o)| == |m|;
        SmallerGap(g, played, teams, w, p, o);
      }
    } else {
      var b := SitOutOf(g, played, teams, w, m, p);
      forall o, t | IsLargest(teams, played, o) && t in teams && !Plays(o, t)
        ensures SitsOutBefore(ms, teams, teams[b], t)
        ensures t == teams[b] ==> SquaredPoints(p) <= SquaredPoints(o)
      {
        TotalGapIsSquares(o);
        var r :| 0 <= r < |teams| && teams[r] == t;
        SameTeam(teams, t, teams[b]);
        CompareSitOuts(g, ms, played, teams, w, m, p, b, o, r);
      }
      assert IsBestSitOut(teams, ms, p, teams[b]);
    }
  }
}
