/** The detector of teams that are planned to play twice at a time. */
module Conflicts {
  import opened Models

  /** The test of the detector, for `a` listed before `b`. */
  predicate MatchesOverlap(a: Match, b: Match) {
    if a.start.None? || b.start.None? then false
    else !((a.End() < b.End() && a.start.value < b.start.value)
           || a.start.value > b.start.value || a.End() > b.End())
  }

  // ----- What the test sees -----

  /** The test in full: the first neither starts nor ends after the second, and they start or end
      together. */
  lemma {:induction false} OverlapIff(a: Match, b: Match)
    ensures MatchesOverlap(a, b) <==>
            && a.start.Some? && b.start.Some?
            && var endA, endB := a.start.value + a.duration + a.margin, b.start.value + b.duration + b.margin;
            && a.start.value <= b.start.value && endA <= endB
            && (a.start.value == b.start.value || endA == endB)
  {
    if a.start.Some? && b.start.Some? {
      assert a.End() == a.start.value + a.duration + a.margin;
    }
  }

  predicate Intersect(a: Match, b: Match) {
    && a.start.Some? && b.start.Some?
    && a.start.value < b.End() && b.start.value < a.End()
  }

  /** Two intersecting matches pass unnoticed exactly when they neither start nor end together, or
      when the one listed first is the later one or the longer one. */
  lemma {:induction false} OverlapsMissed(a: Match, b: Match)
    requires a.duration + a.margin > 0 && b.duration + b.margin > 0
    ensures MatchesOverlap(a, b) ==> Intersect(a, b)
    ensures Intersect(a, b) ==>
              (MatchesOverlap(a, b) <==>
               (a.start.value == b.start.value && a.End() <= b.End())
               || (a.start.value <= b.start.value && a.End() == b.End()))
  {
  }

  /** Half an hour in common, and no conflict whichever is listed first. */
  lemma {:induction false} StaggeredMatchesAreMissed(a: Match, b: Match)
    requires a.start == Some(0) && b.start == Some(30)
    requires a.duration == b.duration == 50 && a.margin == b.margin == 10
    ensures Intersect(a, b) && !MatchesOverlap(a, b) && !MatchesOverlap(b, a)
  {
    assert a.End() == 60 && b.End() == 90;
  }

  // ----- The listed matches -----

  function Definitive(ms: seq<Match>): (r: seq<Match>)
    ensures forall m :: m in r <==> m in ms && m.IsDefinitive()
  {
    if ms == [] then []
    else
      assert forall m :: m in ms <==> m == ms[0] || m in ms[1..];
      if ms[0].IsDefinitive() then [ms[0]] + Definitive(ms[1..])
      else Definitive(ms[1..])
  }

  // ----- Conflicts -----

  /** Which of its two inputs a flag of a match is about. */
  datatype Side = First | Second

  function InputAt(m: Match, side: Side): Option<InputId> {
    if side.First? then m.input1 else m.input2
  }

  predicate Uses(m: Match, x: Option<InputId>) { x == m.input1 || x == m.input2 }

  predicate ShareInput(a: Match, b: Match) { Uses(a, b.input1) || Uses(a, b.input2) }

  /** What makes the detector report a pair, in list order. */
  predicate Clash(a: Match, b: Match) {
    a.id != b.id && ShareInput(a, b) && MatchesOverlap(a, b)
  }

  /** The pair clashes and its conflict concerns the input of match `id` at `side`. */
  predicate Marks(a: Match, b: Match, id: MatchId, side: Side) {
    && Clash(a, b)
    && ((a.id == id && Uses(b, InputAt(a, side))) || (b.id == id && Uses(a, InputAt(b, side))))
  }

  type Pair = (nat, nat)

  ghost predicate PairsOf(pairs: set<Pair>, n: nat) {
    forall p :: p in pairs ==> p.0 < p.1 < n
  }

  ghost predicate Marked(ms: seq<Match>, pairs: set<Pair>, id: MatchId, side: Side)
    requires PairsOf(pairs, |ms|)
  {
    exists p :: p in pairs && Marks(ms[p.0], ms[p.1], id, side)
  }

  ghost predicate InConflict(ms: seq<Match>, pairs: set<Pair>, id: MatchId)
    requires PairsOf(pairs, |ms|)
  {
    exists p :: p in pairs && Clash(ms[p.0], ms[p.1]) && (ms[p.0].id == id || ms[p.1].id == id)
  }

  type Flags = map<MatchId, (bool, bool)>

  /** The flags of match `id` say what the pairs looked at say. */
  ghost predicate ExactAt(ms: seq<Match>, pairs: set<Pair>, flags: Flags, id: MatchId)
    requires PairsOf(pairs, |ms|)
  {
    && (id in flags <==> InConflict(ms, pairs, id))
    && (FlagsFor(flags, id).0 <==> Marked(ms, pairs, id, First))
    && (FlagsFor(flags, id).1 <==> Marked(ms, pairs, id, Second))
  }

  ghost predicate Exact(ms: seq<Match>, pairs: set<Pair>, flags: Flags)
    requires PairsOf(pairs, |ms|)
  {
    forall id :: ExactAt(ms, pairs, flags, id)
  }

  function FlagsFor(flags: Flags, id: MatchId): (bool, bool) {
    if id in flags then flags[id] else (false, false)
  }

  /** Sets the flags of one match of a clashing pair, leaving flags that are already set. */
  method MarkMatch(flags: Flags, m: Match, conflicting: seq<InputId>) returns (r: Flags)
    requires m.IsDefinitive()
    ensures r == flags[m.id := (FlagsFor(flags, m.id).0 || m.input1.value in conflicting,
                                FlagsFor(flags, m.id).1 || m.input2.value in conflicting)]
  {
    var flag1, flag2 := FlagsFor(flags, m.id).0, FlagsFor(flags, m.id).1;
    if !flag1 {
      flag1 := m.input1.value in conflicting;
    }
    if !flag2 {
      flag2 := m.input2.value in conflicting;
    }
    r := flags[m.id := (flag1, flag2)];
  }

  function PairFlags(flags: Flags, a: Match, b: Match): Flags {
    if !Clash(a, b) then flags
    else
      var f := FlagsFor(flags, a.id);
      var g := FlagsFor(flags, b.id);
      flags[a.id := (f.0 || Uses(b, a.input1), f.1 || Uses(b, a.input2))]
           [b.id := (g.0 || Uses(a, b.input1), g.1 || Uses(a, b.input2))]
  }

  /** Looks at one pair. */
  method ComparePair(flags: Flags, withConflicts: set<MatchId>, a: Match, b: Match)
      returns (r: Flags, s: set<MatchId>)
    requires a.IsDefinitive() && b.IsDefinitive()
    ensures r == PairFlags(flags, a, b)
    ensures s == if Clash(a, b) then withConflicts + {a.id, b.id} else withConflicts
  {
    r, s := flags, withConflicts;
    if a.id == b.id {
      return;
    }
    var conflicting: seq<InputId> := [];
    if a.HasInput(b.input1.value) {
      conflicting := conflicting + [b.input1.value];
    }
    if a.HasInput(b.input2.value) {
      conflicting := conflicting + [b.input2.value];
    }
    if |conflicting| < 1 {
      return;
    }
    if MatchesOverlap(a, b) {
      r := MarkMatch(r, a, conflicting);
      r := MarkMatch(r, b, conflicting);
      s := s + {a.id} + {b.id};
    }
  }

  lemma {:induction false} PairFlagsAt(flags: Flags, a: Match, b: Match, id: MatchId)
    ensures var r := PairFlags(flags, a, b);
      && (id in r <==> id in flags || (Clash(a, b) && (a.id == id || b.id == id)))
      && (FlagsFor(r, id).0 <==> FlagsFor(flags, id).0 || Marks(a, b, id, First))
      && (FlagsFor(r, id).1 <==> FlagsFor(flags, id).1 || Marks(a, b, id, Second))
  {
  }

  lemma {:induction false} PairFlagsExact(ms: seq<Match>, pairs: set<Pair>, flags: Flags, p: Pair)
    requires PairsOf(pairs, |ms|) && p.0 < p.1 < |ms|
    requires Exact(ms, pairs, flags)
    ensures Exact(ms, pairs + {p}, PairFlags(flags, ms[p.0], ms[p.1]))
  {
    var r := PairFlags(flags, ms[p.0], ms[p.1]);
    forall id
      ensures ExactAt(ms, pairs + {p}, r, id)
    {
      assert ExactAt(ms, pairs, flags, id);
      GrowPairs(ms, pairs, p, id);
      PairFlagsAt(flags, ms[p.0], ms[p.1], id);
    }
  }

  lemma {:induction false} GrowPairs(ms: seq<Match>, pairs: set<Pair>, p: Pair, id: MatchId)
    requires PairsOf(pairs, |ms|) && p.0 < p.1 < |ms|
    ensures var a, b := ms[p.0], ms[p.1];
      && (InConflict(ms, pairs + {p}, id) <==> InConflict(ms, pairs, id) || (Clash(a, b) && (a.id == id || b.id == id)))
      && (forall side :: Marked(ms, pairs + {p}, id, side) <==> Marked(ms, pairs, id, side) || Marks(a, b, id, side))
  {
    assert p in pairs + {p};
    assert forall q :: q in pairs + {p} <==> q in pairs || q == p;
  }

  ghost function PairsUpTo(i: nat, j: nat, n: nat): set<Pair> {
    set p: nat, q: nat | p < n && q < n && p < q && (p < i || (p == i && q < j)) :: (p, q)
  }

  lemma {:induction false} NextPair(i: nat, j: nat, n: nat)
    requires i < j < n
    ensures PairsUpTo(i, j + 1, n) == PairsUpTo(i, j, n) + {(i, j)}
  {
    forall p: Pair
      ensures p in PairsUpTo(i, j + 1, n) <==> p in PairsUpTo(i, j, n) || p == (i, j)
    {
      assert p == (p.0, p.1);
    }
  }

  lemma {:induction false} NextRow(i: nat, n: nat)
    requires i < n
    ensures PairsUpTo(i, n, n) == PairsUpTo(i + 1, i + 2, n)
  {
  }

  /** Compares the match at `i` with all later ones. */
  method CompareRow(ms: seq<Match>, i: nat, before: Flags, beforeSet: set<MatchId>)
      returns (flags: Flags, withConflicts: set<MatchId>)
    requires forall m :: m in ms ==> m.IsDefinitive()
    requires i < |ms| && Exact(ms, PairsUpTo(i, i + 1, |ms|), before) && beforeSet == before.Keys
    ensures Exact(ms, PairsUpTo(i, |ms|, |ms|), flags) && withConflicts == flags.Keys
  {
    flags, withConflicts := before, beforeSet;
    for j := i + 1 to |ms|
      invariant Exact(ms, PairsUpTo(i, j, |ms|), flags)
      invariant withConflicts == flags.Keys
    {
      PairFlagsExact(ms, PairsUpTo(i, j, |ms|), flags, (i, j));
      NextPair(i, j, |ms|);
      flags, withConflicts := ComparePair(flags, withConflicts, ms[i], ms[j]);
    }
  }

  /** The loop over all pairs in list order. */
  method ComparePairs(ms: seq<Match>) returns (flags: Flags, withConflicts: set<MatchId>)
    requires forall m :: m in ms ==> m.IsDefinitive()
    ensures Exact(ms, PairsUpTo(|ms|, |ms|, |ms|), flags)
    ensures withConflicts == flags.Keys
  {
    flags, withConflicts := map[], {};
    for i := 0 to |ms|
      invariant Exact(ms, PairsUpTo(i, i + 1, |ms|), flags)
      invariant withConflicts == flags.Keys
    {
      flags, withConflicts := CompareRow(ms, i, flags, withConflicts);
      NextRow(i, |ms|);
    }
    assert PairsUpTo(|ms|, |ms| + 1, |ms|) == PairsUpTo(|ms|, |ms|, |ms|);
  }

  // ----- The result -----

  /** The matches at `k` and `o` are different, both inputs of each are known, in list order they pass
      the test, and the one at `o` has the input that the one at `k` has at `side`. */
  ghost predicate ConflictsAt(ms: seq<Match>, k: nat, o: nat, side: Side)
    requires k < |ms| && o < |ms|
  {
    var x := if side.First? then ms[k].input1 else ms[k].input2;
    && ms[k].input1.Some? && ms[k].input2.Some? && ms[o].input1.Some? && ms[o].input2.Some?
    && ms[k].id != ms[o].id && (ms[o].input1 == x || ms[o].input2 == x)
    && (if k < o then MatchesOverlap(ms[k], ms[o]) else MatchesOverlap(ms[o], ms[k]))
  }

  /** Some match conflicts with match `id` and has its input at `side`. */
  ghost predicate FlagDue(ms: seq<Match>, id: MatchId, side: Side) {
    exists k: nat, o: nat ::
      k < |ms| && o < |ms| && ms[k].id == id && ConflictsAt(ms, k, o, side)
  }

  /** The matches of `listed` stand at the positions `at` of `ms`, in order, and every match with known
      inputs is among them. */
  ghost predicate ArePlaces(ms: seq<Match>, listed: seq<Match>, at: seq<nat>) {
    && |at| == |listed|
    && (forall i :: 0 <= i < |at| ==> at[i] < |ms| && ms[at[i]] == listed[i])
    && (forall i, j :: 0 <= i < j < |at| ==> at[i] < at[j])
    && (forall k :: 0 <= k < |ms| && ms[k].IsDefinitive() ==> k in at)
  }

  ghost function Shifted(at: seq<nat>): (r: seq<nat>)
    ensures |r| == |at| && forall i :: 0 <= i < |at| ==> r[i] == at[i] + 1
  {
    seq(|at|, i requires 0 <= i < |at| => at[i] + 1)
  }

  lemma {:induction false} ShiftedPlaces(ms: seq<Match>, listed: seq<Match>, at: seq<nat>)
    requires ms != [] && ArePlaces(ms[1..], listed, at)
    ensures forall k :: 0 < k < |ms| && ms[k].IsDefinitive() ==> k in Shifted(at)
    ensures forall i :: 0 <= i < |at| ==> 0 < Shifted(at)[i] < |ms| && ms[Shifted(at)[i]] == listed[i]
  {
    forall k | 0 < k < |ms| && ms[k].IsDefinitive()
      ensures k in Shifted(at)
    {
      assert ms[1..][k - 1] == ms[k];
      var i :| 0 <= i < |at| && at[i] == k - 1;
      assert Shifted(at)[i] == k;
    }
  }

  lemma {:induction false} FirstPlace(ms: seq<Match>, listed: seq<Match>, at: seq<nat>)
    requires ms != [] && ms[0].IsDefinitive() && ArePlaces(ms[1..], listed, at)
    ensures ArePlaces(ms, [ms[0]] + listed, [0] + Shifted(at))
  {
    ShiftedPlaces(ms, listed, at);
  }

  lemma {:induction false} NoFirstPlace(ms: seq<Match>, listed: seq<Match>, at: seq<nat>)
    requires ms != [] && !ms[0].IsDefinitive() && ArePlaces(ms[1..], listed, at)
    ensures ArePlaces(ms, listed, Shifted(at))
  {
    ShiftedPlaces(ms, listed, at);
  }

  /** The listed matches keep their order. */
  lemma {:induction false} Places(ms: seq<Match>) returns (at: seq<nat>)
    ensures ArePlaces(ms, Definitive(ms), at)
  {
    if ms == [] {
      at := [];
    } else {
      var rest := Places(ms[1..]);
      if ms[0].IsDefinitive() {
        at := [0] + Shifted(rest);
        FirstPlace(ms, Definitive(ms[1..]), rest);
      } else {
        at := Shifted(rest);
        NoFirstPlace(ms, Definitive(ms[1..]), rest);
      }
    }
  }

  lemma {:induction false} ConflictAtPlaces(
      ms: seq<Match>, listed: seq<Match>, at: seq<nat>, i: nat, j: nat, side: Side)
    requires ArePlaces(ms, listed, at) && i < |listed| && j < |listed|
    ensures ConflictsAt(listed, i, j, side) <==> ConflictsAt(ms, at[i], at[j], side)
  {
    assert ms[at[i]] == listed[i] && ms[at[j]] == listed[j];
    assert if i < j then at[i] < at[j] else if j < i then at[j] < at[i] else at[i] == at[j];
  }

  lemma {:induction false} DueOfListed(ms: seq<Match>, listed: seq<Match>, at: seq<nat>, id: MatchId, side: Side)
    requires ArePlaces(ms, listed, at) && FlagDue(listed, id, side)
    ensures FlagDue(ms, id, side)
  {
    var i: nat, j: nat :| i < |listed| && j < |listed| && listed[i].id == id && ConflictsAt(listed, i, j, side);
    ConflictAtPlaces(ms, listed, at, i, j, side);
    assert ms[at[i]] == listed[i];
  }

  lemma {:induction false} DueOfAll(ms: seq<Match>, listed: seq<Match>, at: seq<nat>, id: MatchId, side: Side)
    requires ArePlaces(ms, listed, at) && FlagDue(ms, id, side)
    ensures FlagDue(listed, id, side)
  {
    var k: nat, o: nat :| k < |ms| && o < |ms| && ms[k].id == id && ConflictsAt(ms, k, o, side);
    assert ms[k].IsDefinitive() && ms[o].IsDefinitive();
    var i :| 0 <= i < |at| && at[i] == k;
    var j :| 0 <= j < |at| && at[j] == o;
    ConflictAtPlaces(ms, listed, at, i, j, side);
    assert ms[at[i]] == listed[i];
  }

  /** Leaving out the other matches does not change what is due. */
  lemma {:induction false} DueAmongListed(ms: seq<Match>, id: MatchId, side: Side)
    ensures FlagDue(Definitive(ms), id, side) <==> FlagDue(ms, id, side)
  {
    var at := Places(ms);
    if FlagDue(Definitive(ms), id, side) { DueOfListed(ms, Definitive(ms), at, id, side); }
    if FlagDue(ms, id, side) { DueOfAll(ms, Definitive(ms), at, id, side); }
  }

  lemma {:induction false} MarkedIsFlagDue(ms: seq<Match>, id: MatchId, side: Side)
    requires forall m :: m in ms ==> m.IsDefinitive()
    ensures Marked(ms, PairsUpTo(|ms|, |ms|, |ms|), id, side) <==> FlagDue(ms, id, side)
  {
    var pairs := PairsUpTo(|ms|, |ms|, |ms|);
    if Marked(ms, pairs, id, side) {
      var p :| p in pairs && Marks(ms[p.0], ms[p.1], id, side);
      assert ms[p.0] in ms && ms[p.1] in ms;
      if ms[p.0].id == id && Uses(ms[p.1], InputAt(ms[p.0], side)) {
        assert ConflictsAt(ms, p.0, p.1, side);
      } else {
        assert ConflictsAt(ms, p.1, p.0, side);
      }
    }
    if FlagDue(ms, id, side) {
      var k: nat, o: nat :| k < |ms| && o < |ms| && ms[k].id == id 
        && ConflictsAt(ms, k, o, side);
      var p: Pair := if k < o then (k, o) else (o, k);
      assert p in pairs && Marks(ms[p.0], ms[p.1], id, side);
    }
  }

  lemma {:induction false} InConflictIsFlagDue(ms: seq<Match>, id: MatchId)
    requires forall m :: m in ms ==> m.IsDefinitive()
    ensures InConflict(ms, PairsUpTo(|ms|, |ms|, |ms|), id) <==> FlagDue(ms, id, First) || FlagDue(ms, id, Second)
  {
    var pairs := PairsUpTo(|ms|, |ms|, |ms|);
    MarkedIsFlagDue(ms, id, First);
    MarkedIsFlagDue(ms, id, Second);
    if InConflict(ms, pairs, id) {
      var p :| p in pairs && Clash(ms[p.0], ms[p.1]) && (ms[p.0].id == id || ms[p.1].id == id);
      var a, b := ms[p.0], ms[p.1];
      assert Marks(a, b, id, First) || Marks(a, b, id, Second);
    }
  }

  ghost function Ids(ms: seq<Match>): set<MatchId> { set m | m in ms :: m.id }

  /** The matches whose inputs are both known. */
  ghost function ListedIds(ms: seq<Match>): set<MatchId> {
    set m | m in ms && m.input1.Some? && m.input2.Some? :: m.id
  }

  /** A flag of a match is set if and only if another listed match has that input and the two, in
      list order, pass the test; and each listed match is either set or cleared. */
  ghost predicate IsReport(ms: seq<Match>, toSet: Flags, toClear: set<MatchId>) {
    && (forall id :: id in toSet <==> FlagDue(ms, id, First) || FlagDue(ms, id, Second))
    && (forall id :: id in toSet ==>
         (toSet[id].0 <==> FlagDue(ms, id, First)) && (toSet[id].1 <==> FlagDue(ms, id, Second)))
    && toSet.Keys !! toClear
    && toSet.Keys + toClear == ListedIds(ms)
  }

  lemma {:induction false} ExactIsReport(all: seq<Match>, ms: seq<Match>, flags: Flags)
    requires ms == Definitive(all) && Exact(ms, PairsUpTo(|ms|, |ms|, |ms|), flags)
    ensures IsReport(all, flags, Ids(ms) - flags.Keys)
  {
    forall id
      ensures id in flags <==> FlagDue(all, id, First) || FlagDue(all, id, Second)
      ensures id in flags ==>
           (flags[id].0 <==> FlagDue(all, id, First)) && (flags[id].1 <==> FlagDue(all, id, Second))
    {
      DueAmongListed(all, id, First);
      DueAmongListed(all, id, Second);
      assert ExactAt(ms, PairsUpTo(|ms|, |ms|, |ms|), flags, id);
      InConflictIsFlagDue(ms, id);
      MarkedIsFlagDue(ms, id, First);
      MarkedIsFlagDue(ms, id, Second);
    }
    forall id | id in flags
      ensures id in Ids(ms)
    {
      assert FlagDue(all, id, First) || FlagDue(all, id, Second);
      DueAmongListed(all, id, First);
      DueAmongListed(all, id, Second);
    }
    assert Ids(ms) == ListedIds(all);
  }

  /** The detector is exact. */
  method GetConflictingMatches(stages: seq<Stage>) returns (toSet: Flags, toClear: set<MatchId>)
    ensures IsReport(AllMatches(stages), toSet, toClear)
  {
    var ms := Definitive(AllMatches(stages));
    var withConflicts;
    toSet, withConflicts := ComparePairs(ms);
    toClear := CollectUnmarked(ms, withConflicts);
    ExactIsReport(AllMatches(stages), ms, toSet);
  }

  method CollectUnmarked(ms: seq<Match>, withConflicts: set<MatchId>) returns (toClear: set<MatchId>)
    ensures toClear == Ids(ms) - withConflicts
  {
    toClear := {};
    for k := 0 to |ms|
      invariant toClear == Ids(ms[..k]) - withConflicts
    {
      assert ms[..k + 1] == ms[..k] + [ms[k]];
      if ms[k].id !in withConflicts {
        toClear := toClear + {ms[k].id};
      }
    }
    assert ms[..|ms|] == ms;
  }

  /** With unique ids, a flag is about its own match only. */
  lemma {:induction false} FlagOfOneMatch(ms: seq<Match>, k: nat, side: Side)
    requires k < |ms| && (forall i, j :: 0 <= i < j < |ms| ==> ms[i].id != ms[j].id)
    ensures FlagDue(ms, ms[k].id, side) <==>
            exists o: nat :: o < |ms| && o != k && ConflictsAt(ms, k, o, side)
  {
    if FlagDue(ms, ms[k].id, side) {
      var i: nat, o: nat :| i < |ms| && o < |ms| && ms[i].id == ms[k].id
        && ConflictsAt(ms, i, o, side);
      assert i == k;
    }
  }
}
