/** Weighted graphs over input ids and what the graph library promises about them. */
module Matching {
  import opened Models
  import opened Sorting

  type Pair = (InputId, InputId)

  /** An undirected edge: the smaller id comes first. */
  function Edge(p: Pair): Pair {
    if p.0 < p.1 then p else (p.1, p.0)
  }

  type Graph = map<Pair, nat>

  predicate Disjoint(p: Pair, q: Pair) {
    p.0 != q.0 && p.0 != q.1 && p.1 != q.0 && p.1 != q.1
  }

  ghost predicate AreEdges(g: Graph, m: seq<Pair>) {
    forall p :: p in m ==> p.0 != p.1 && Edge(p) in g
  }

  ghost predicate AreDisjoint(m: seq<Pair>) {
    forall i, j :: 0 <= i < j < |m| ==> Disjoint(m[i], m[j])
  }

  /** The library returns a set of pairs, in no particular order or orientation. */
  ghost predicate IsMatching(g: Graph, m: seq<Pair>) {
    AreEdges(g, m) && AreDisjoint(m)
  }

  ghost function Weight(g: Graph, m: seq<Pair>): nat
    requires AreEdges(g, m)
  {
    if m == [] then 0 else g[Edge(m[0])] + Weight(g, m[1..])
  }

  /** What is required of the library: no matching has more edges, and none
      with as many edges weighs more. */
  ghost predicate LargestHeaviest(g: Graph, m: seq<Pair>) {
    && IsMatching(g, m)
    && forall q :: IsMatching(g, q) ==>
         |q| < |m| || (|q| == |m| && Weight(g, q) <= Weight(g, m))
  }

  ghost function Covered(m: seq<Pair>): set<InputId> {
    if m == [] then {} else {m[0].0, m[0].1} + Covered(m[1..])
  }

  lemma {:induction false} InCovered(m: seq<Pair>, x: InputId)
    ensures x in Covered(m) <==> exists i :: 0 <= i < |m| && (m[i].0 == x || m[i].1 == x)
  {
    if m != [] {
      InCovered(m[1..], x);
      if x in Covered(m[1..]) {
        var i :| 0 <= i < |m[1..]| && (m[1..][i].0 == x || m[1..][i].1 == x);
        assert m[i + 1] == m[1..][i];
      }
      if exists i :: 0 <= i < |m| && (m[i].0 == x || m[i].1 == x) {
        var i :| 0 <= i < |m| && (m[i].0 == x || m[i].1 == x);
        if i > 0 { assert m[1..][i - 1] == m[i]; }
      }
    }
  }

  lemma {:induction false} CoveredSize(m: seq<Pair>)
    requires AreDisjoint(m) && forall p :: p in m ==> p.0 != p.1
    ensures |Covered(m)| == 2 * |m|
  {
    if m != [] {
      CoveredSize(m[1..]);
      InCovered(m[1..], m[0].0);
      InCovered(m[1..], m[0].1);
      assert m[0] in m;
      assert |{m[0].0, m[0].1}| == 2;
      assert {m[0].0, m[0].1} !! Covered(m[1..]);
    }
  }

  lemma {:induction false} WeightAppend(g: Graph, m: seq<Pair>, q: seq<Pair>)
    requires AreEdges(g, m) && AreEdges(g, q)
    ensures AreEdges(g, m + q)
    ensures Weight(g, m + q) == Weight(g, m) + Weight(g, q)
  {
    if m == [] {
      assert m + q == q;
    } else {
      assert (m + q)[1..] == m[1..] + q;
      WeightAppend(g, m[1..], q);
    }
  }

  // Rearranging a matching keeps it a matching of the same weight.

  lemma {:induction false} InsertKeepsMatching(
      g: Graph, before: (Pair, Pair) -> bool, x: Pair, m: seq<Pair>)
    requires IsMatching(g, [x] + m)
    ensures IsMatching(g, Insert(before, x, m))
    ensures Weight(g, Insert(before, x, m)) == Weight(g, [x] + m)
  {
    var r := Insert(before, x, m);
    if m != [] && before(m[0], x) {
      var t := Insert(before, x, m[1..]);
      var whole := [x] + m;
      assert whole[1..] == m && whole[1] == m[0];
      forall i, j | 0 <= i < j < |[x] + m[1..]|
        ensures Disjoint(([x] + m[1..])[i], ([x] + m[1..])[j])
      {
        assert Disjoint(whole[if i == 0 then 0 else i + 1], whole[j + 1]);
      }
      InsertKeepsMatching(g, before, x, m[1..]);
      forall j | 0 <= j < |t|
        ensures Disjoint(m[0], t[j])
      {
        assert t[j] in multiset(t);
        if t[j] == x {
          assert Disjoint(whole[0], whole[1]);
        } else {
          assert t[j] in m[1..];
          var k :| 0 <= k < |m[1..]| && m[1..][k] == t[j];
          assert Disjoint(whole[1], whole[k + 2]);
        }
      }
      forall p | p in r
        ensures p.0 != p.1 && Edge(p) in g
      {
        assert p == m[0] || p in t;
        assert m[0] in whole;
      }
      assert ([x] + m[1..])[1..] == m[1..];
    }
  }

  lemma {:induction false} SortKeepsMatching(g: Graph, before: (Pair, Pair) -> bool, m: seq<Pair>)
    requires IsMatching(g, m)
    ensures IsMatching(g, Sort(before, m))
    ensures Weight(g, Sort(before, m)) == Weight(g, m)
  {
    if m != [] {
      SortKeepsMatching(g, before, m[1..]);
      var t := Sort(before, m[1..]);
      forall j | 0 <= j < |t|
        ensures Disjoint(m[0], t[j])
      {
        assert t[j] in multiset(t);
        assert t[j] in m[1..];
      }
      assert m[0] in m;
      assert IsMatching(g, [m[0]] + t);
      assert ([m[0]] + t)[1..] == t;
      InsertKeepsMatching(g, before, m[0], t);
    }
  }

  // Every graph has a largest matching of maximal weight, so the promise can be kept.

  ghost function Largest(s: set<nat>): (n: nat)
    ensures forall x :: x in s ==> x <= n
  {
    if s == {} then 0
    else
      var x :| x in s;
      var rest := Largest(s - {x});
      assert forall y :: y in s ==> y == x || y in s - {x};
      if x > rest then x else rest
  }

  lemma {:induction false} WeightBound(g: Graph, m: seq<Pair>, bound: nat)
    requires AreEdges(g, m)
    requires forall p :: p in m ==> g[Edge(p)] <= bound
    ensures Weight(g, m) <= |m| * bound
  {
    if m != [] {
      WeightBound(g, m[1..], bound);
      assert m[0] in m;
      assert |m| * bound == bound + |m[1..]| * bound;
    }
  }

  lemma {:induction false} CoveredBound(g: Graph, m: seq<Pair>, nodes: set<InputId>)
    requires AreEdges(g, m)
    requires forall e :: e in g ==> e.0 in nodes && e.1 in nodes
    ensures Covered(m) <= nodes
  {
    if m != [] {
      assert m[0] in m && Edge(m[0]) in g;
      CoveredBound(g, m[1..], nodes);
    }
  }

  lemma {:induction false} SubsetSize<T>(a: set<T>, b: set<T>)
    requires a <= b
    ensures |a| <= |b|
    ensures |a| == |b| ==> a == b
  {
    assert b == a + (b - a);
  }

  lemma {:induction false} Improve(g: Graph, m: seq<Pair>, nodes: set<InputId>, bound: nat)
      returns (best: seq<Pair>)
    requires IsMatching(g, m)
    requires forall e :: e in g ==> e.0 in nodes && e.1 in nodes
    requires forall e :: e in g ==> g[e] <= bound
    ensures LargestHeaviest(g, best)
    decreases |nodes| - |m|, |m| * bound - Weight(g, m)
  {
    if LargestHeaviest(g, m) {
      best := m;
    } else {
      var q :| IsMatching(g, q) && !(|q| < |m| || (|q| == |m| && Weight(g, q) <= Weight(g, m)));
      CoveredSize(q);
      CoveredBound(g, q, nodes);
      SubsetSize(Covered(q), nodes);
      WeightBound(g, q, bound);
      best := Improve(g, q, nodes, bound);
    }
  }

  /** The specification of the library can be met for every graph. */
  lemma {:induction false} LargestHeaviestExists(g: Graph)
    ensures exists m :: LargestHeaviest(g, m)
  {
    var nodes := (set e | e in g :: e.0) + (set e | e in g :: e.1);
    assert forall e :: e in g ==> g[e] in g.Values;
    assert IsMatching(g, []);
    var best := Improve(g, [], nodes, Largest(g.Values));
  }
}
