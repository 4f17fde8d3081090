/** The bracket as the web client draws it. The drawing library takes positions for the tree, so each
    round has to be in tree order. */
module Viewer {
  import opened Models
  import opened Sorting
  import opened Elimination
  import opened EliminationTable
  import opened BracketStandings

  type Positions = map<MatchId, nat>

  const MAX_SAFE_INTEGER: nat := 0x1F_FFFF_FFFF_FFFF

  // ----- The order of a round -----

  function Origin(source: Option<MatchId>, positions: Positions): Option<nat> {
    if source.Some? && source.value in positions then Some(positions[source.value]) else None
  }

  /** The first of the positions of a match's sources; matches without known sources come last. */
  function OriginPosition(m: Match, positions: Positions): nat {
    var a, b := Origin(m.source1, positions), Origin(m.source2, positions);
    if a.Some? && b.Some? then (if a.value < b.value then a.value else b.value)
    else if a.Some? then a.value
    else if b.Some? then b.value
    else MAX_SAFE_INTEGER
  }

  /** A match with its sort key. */
  datatype Keyed = Keyed(origin: nat, m: Match)

  predicate KeyedBefore(a: Keyed, b: Keyed) {
    if a.origin != b.origin then a.origin < b.origin else a.m.id < b.m.id
  }

  function WithKeys(ms: seq<Match>, positions: Positions): (r: seq<Keyed>)
    ensures |r| == |ms| && forall i :: 0 <= i < |ms| ==> r[i] == Keyed(OriginPosition(ms[i], positions), ms[i])
  {
    seq(|ms|, i requires 0 <= i < |ms| => Keyed(OriginPosition(ms[i], positions), ms[i]))
  }

  function WithoutKeys(ks: seq<Keyed>): (r: seq<Match>)
    ensures |r| == |ks| && forall i :: 0 <= i < |ks| ==> r[i] == ks[i].m
  {
    seq(|ks|, i requires 0 <= i < |ks| => ks[i].m)
  }

  function Ordered(ms: seq<Match>, positions: Positions): seq<Match> {
    WithoutKeys(Sort(KeyedBefore, WithKeys(ms, positions)))
  }

  function Placed(positions: Positions, ms: seq<Match>): Positions {
    if ms == [] then positions
    else Placed(positions, ms[..|ms| - 1])[ms[|ms| - 1].id := |ms| - 1]
  }

  function View(rounds: seq<Round>, positions: Positions): seq<seq<Match>> {
    if rounds == [] then []
    else
      var ordered := Ordered(rounds[0].matches, positions);
      [ordered] + View(rounds[1..], Placed(positions, ordered))
  }

  method PlaceMatches(positions: Positions, ordered: seq<Match>) returns (r: Positions)
    ensures r == Placed(positions, ordered)
  {
    r := positions;
    for index := 0 to |ordered|
      invariant r == Placed(positions, ordered[..index])
    {
      assert ordered[..index + 1][..index] == ordered[..index];
      r := r[ordered[index].id := index];
    }
    assert ordered[..|ordered|] == ordered;
  }

  lemma {:induction false} ViewNext(rounds: seq<Round>, k: nat, positions: Positions, ordered: seq<Match>)
    requires k < |rounds| && ordered == Ordered(rounds[k].matches, positions)
    ensures View(rounds[k..], positions) == [ordered] + View(rounds[k + 1..], Placed(positions, ordered))
  {
    assert rounds[k..][0] == rounds[k] && rounds[k..][1..] == rounds[k + 1..];
  }

  /** Puts the matches of one more round in order. */
  method OrderNext(rounds: seq<Round>, k: nat, before: seq<seq<Match>>, known: Positions, ghost all: seq<seq<Match>>)
      returns (view: seq<seq<Match>>, positions: Positions)
    requires k < |rounds| && before + View(rounds[k..], known) == all
    ensures view + View(rounds[k + 1..], positions) == all
  {
    var ordered := Ordered(rounds[k].matches, known);
    ViewNext(rounds, k, known, ordered);
    positions := PlaceMatches(known, ordered);
    view := before + [ordered];
    assert before + ([ordered] + View(rounds[k + 1..], positions)) == view + View(rounds[k + 1..], positions);
  }

  method OrderRounds(rounds: seq<Round>) returns (view: seq<seq<Match>>)
    ensures view == View(rounds, map[])
  {
    view := [];
    var positions: Positions := map[];
    for k := 0 to |rounds|
      invariant view + View(rounds[k..], positions) == View(rounds, map[])
    {
      view, positions := OrderNext(rounds, k, view, positions, View(rounds, map[]));
    }
  }

  // ----- The order in any round -----

  /** The match has a source that is known to be at the position. */
  ghost predicate HasSourceAt(m: Match, positions: Positions, q: nat) {
    || (m.source1.Some? && m.source1.value in positions && positions[m.source1.value] == q)
    || (m.source2.Some? && m.source2.value in positions && positions[m.source2.value] == q)
  }

  /** `q` is the first position of a source of the match. */
  ghost predicate FirstSourceAt(m: Match, positions: Positions, q: nat) {
    HasSourceAt(m, positions, q) && forall r :: HasSourceAt(m, positions, r) ==> q <= r
  }

  ghost predicate NoSourceKnown(m: Match, positions: Positions) { forall q :: !HasSourceAt(m, positions, q) }

  lemma {:induction false} OriginIsFirst(m: Match, positions: Positions)
    ensures NoSourceKnown(m, positions) ==> OriginPosition(m, positions) == 9_007_199_254_740_991
    ensures !NoSourceKnown(m, positions) ==> FirstSourceAt(m, positions, OriginPosition(m, positions))
  {
    if m.source1.Some? && m.source1.value in positions {
      assert HasSourceAt(m, positions, positions[m.source1.value]);
    }
    if m.source2.Some? && m.source2.value in positions {
      assert HasSourceAt(m, positions, positions[m.source2.value]);
    }
  }

  /** Of any round: the matches are ordered by the first position of their sources, those without a known
      source come last, and the id decides between matches that are level. */
  lemma {:induction false} OrderedByOrigin(ms: seq<Match>, positions: Positions, i: nat, j: nat)
    requires forall id :: id in positions ==> positions[id] < 9_007_199_254_740_991
    requires i < j < |Ordered(ms, positions)|
    ensures var a, b := Ordered(ms, positions)[i], Ordered(ms, positions)[j];
      && (NoSourceKnown(a, positions) ==> NoSourceKnown(b, positions) && a.id <= b.id)
      && (forall p, q :: FirstSourceAt(a, positions, p) && FirstSourceAt(b, positions, q) ==>
            p <= q && (p == q ==> a.id <= b.id))
  {
    var keys, sorted := WithKeys(ms, positions), Sort(KeyedBefore, WithKeys(ms, positions));
    KeyedBeforeIsStrictWeak();
    SortSorts(KeyedBefore, keys);
    MemberOfPermutation(sorted, keys, sorted[i]);
    MemberOfPermutation(sorted, keys, sorted[j]);
    assert !KeyedBefore(sorted[j], sorted[i]);
    OriginIsFirst(sorted[i].m, positions);
    OriginIsFirst(sorted[j].m, positions);
  }

  lemma {:induction false} OrderedMembers(ms: seq<Match>, positions: Positions, m: Match)
    ensures m in Ordered(ms, positions) <==> m in ms
  {
    var keys, sorted := WithKeys(ms, positions), Sort(KeyedBefore, WithKeys(ms, positions));
    var key := Keyed(OriginPosition(m, positions), m);
    MemberOfPermutation(sorted, keys, key);
    KeyMember(ms, positions, key);
    if m in ms {
      var i :| 0 <= i < |sorted| && sorted[i] == key;
      assert Ordered(ms, positions)[i] == m;
    }
    if m in Ordered(ms, positions) {
      var i :| 0 <= i < |sorted| && sorted[i].m == m;
      MemberOfPermutation(sorted, keys, sorted[i]);
      KeyMember(ms, positions, sorted[i]);
    }
  }

  // ----- The tree is recovered -----

  /** The matches of the first `k` rounds are at their positions in the tree. */
  ghost predicate InPlace(positions: Positions, layout: seq<RoundIds>, k: nat)
    requires k <= |layout|
  {
    forall r, i :: 0 <= r < k && 0 <= i < |layout[r].matches| ==> At(positions, layout[r].matches[i], i)
  }

  predicate At(positions: Positions, id: MatchId, i: int) { id in positions && positions[id] == i }

  lemma {:induction false} PlacedOthers(positions: Positions, ms: seq<Match>, id: MatchId, i: int)
    requires (forall j :: 0 <= j < |ms| ==> ms[j].id != id) && At(positions, id, i)
    ensures At(Placed(positions, ms), id, i)
  {
    if ms != [] {
      PlacedOthers(positions, ms[..|ms| - 1], id, i);
    }
  }

  lemma {:induction false} PlacedAt(positions: Positions, ms: seq<Match>, i: nat)
    requires i < |ms| && forall j :: i < j < |ms| ==> ms[j].id != ms[i].id
    ensures At(Placed(positions, ms), ms[i].id, i)
  {
    var k := |ms| - 1;
    if i < k {
      assert ms[..k][i] == ms[i];
      PlacedAt(positions, ms[..k], i);
    }
  }

  lemma {:induction false} RoundIdsDiffer(
      rows: Rows, layout: seq<RoundIds>, inputs: seq<InputId>, r: nat, i: nat, k: nat, j: nat)
    requires IsBracket(rows, layout, inputs)
    requires r < |layout| && i < |layout[r].matches| && k < |layout| && j < |layout[k].matches|
    requires IdsIn(rows, layout[k].matches)
    requires Earlier(r, i, k, j)
    ensures ReadRound(rows, layout[k])[j].id == layout[k].matches[j] && layout[k].matches[j] != layout[r].matches[i]
  {
    assert BracketMatch(rows, layout, inputs, k, j);
  }

  lemma {:induction false} RoundPlaced(
      rows: Rows, layout: seq<RoundIds>, inputs: seq<InputId>, k: nat, positions: Positions)
    requires IsBracket(rows, layout, inputs) && k < |layout| && IdsIn(rows, layout[k].matches)
    requires InPlace(positions, layout, k)
    ensures InPlace(Placed(positions, ReadRound(rows, layout[k])), layout, k + 1)
  {
    var ms := ReadRound(rows, layout[k]);
    forall r, i | 0 <= r < k + 1 && 0 <= i < |layout[r].matches|
      ensures At(Placed(positions, ms), layout[r].matches[i], i)
    {
      var id := layout[r].matches[i];
      forall j | 0 <= j < |ms| && Earlier(r, i, k, j)
        ensures ms[j].id != id
      {
        RoundIdsDiffer(rows, layout, inputs, r, i, k, j);
      }
      if r < k {
        assert forall j :: 0 <= j < |ms| ==> Earlier(r, i, k, j);
        assert At(positions, id, i);
        PlacedOthers(positions, ms, id, i);
      } else {
        assert BracketMatch(rows, layout, inputs, k, i);
        assert forall j :: i < j < |ms| ==> Earlier(r, i, k, j);
        PlacedAt(positions, ms, i);
      }
    }
  }

  /** The matches of a bracket round are in the order of their keys. */
  lemma {:induction false} RoundInOrder(
      rows: Rows, layout: seq<RoundIds>, inputs: seq<InputId>, k: nat, positions: Positions)
    requires IsBracket(rows, layout, inputs) && k < |layout| && IdsIn(rows, layout[k].matches)
    requires InPlace(positions, layout, k)
    ensures StrictlySorted(KeyedBefore, WithKeys(ReadRound(rows, layout[k]), positions))
  {
    var ms := ReadRound(rows, layout[k]);
    forall i | 0 <= i < |ms|
      ensures OriginPosition(ms[i], positions) == if k == 0 then MAX_SAFE_INTEGER else 2 * i
      ensures ms[i].id == layout[k].matches[i]
    {
      assert BracketMatch(rows, layout, inputs, k, i);
      if k > 0 {
        assert At(positions, layout[k - 1].matches[2 * i], 2 * i);
        assert At(positions, layout[k - 1].matches[2 * i + 1], 2 * i + 1);
      }
    }
    forall i, j | 0 <= i < j < |ms|
      ensures ms[i].id < ms[j].id
    {
      assert Earlier(k, i, k, j);
    }
  }

  lemma {:induction false} KeysOfPermutation(ms: seq<Match>, delivered: seq<Match>, positions: Positions)
    requires NoDuplicates(ms) && multiset(ms) == multiset(delivered)
    ensures multiset(WithKeys(ms, positions)) == multiset(WithKeys(delivered, positions))
  {
    NoDuplicatesPermuted(ms, delivered);
    var s, u := WithKeys(ms, positions), WithKeys(delivered, positions);
    forall x
      ensures x in s <==> x in u
    {
      MemberOfPermutation(ms, delivered, x.m);
      KeyMember(ms, positions, x);
      KeyMember(delivered, positions, x);
    }
    SameMembers(s, u);
  }

  lemma {:induction false} KeyMember(ms: seq<Match>, positions: Positions, x: Keyed)
    ensures x in WithKeys(ms, positions) <==> x.m in ms && x.origin == OriginPosition(x.m, positions)
  {
    if x.m in ms && x.origin == OriginPosition(x.m, positions) {
      var i :| 0 <= i < |ms| && ms[i] == x.m;
      assert WithKeys(ms, positions)[i] == x;
    }
  }

  lemma {:induction false} KeyedBeforeIsStrictWeak()
    ensures StrictWeak(KeyedBefore)
  {
  }

  /** In whatever order the matches of round `k` are delivered, they are put in tree order. */
  lemma {:induction false} RoundRecovered(
      rows: Rows, layout: seq<RoundIds>, inputs: seq<InputId>, k: nat, positions: Positions, delivered: seq<Match>)
    requires IsBracket(rows, layout, inputs) && k < |layout| && IdsIn(rows, layout[k].matches)
    requires InPlace(positions, layout, k) && multiset(delivered) == multiset(ReadRound(rows, layout[k]))
    ensures Ordered(delivered, positions) == ReadRound(rows, layout[k])
  {
    var ms := ReadRound(rows, layout[k]);
    RoundInOrder(rows, layout, inputs, k, positions);
    forall i, j | 0 <= i < j < |ms|
      ensures ms[i] != ms[j]
    {
      assert KeyedBefore(WithKeys(ms, positions)[i], WithKeys(ms, positions)[j]);
    }
    KeysOfPermutation(ms, delivered, positions);
    KeyedBeforeIsStrictWeak();
    SortRestores(KeyedBefore, WithKeys(ms, positions), WithKeys(delivered, positions));
  }

  ghost predicate DeliveredAt(rows: Rows, layout: seq<RoundIds>, rounds: seq<Round>, k: nat)
    requires k < |layout| == |rounds|
  {
    IdsIn(rows, layout[k].matches) && multiset(rounds[k].matches) == multiset(ReadRound(rows, layout[k]))
  }

  /** The rounds of the bracket arrive in order, the matches of each in any order. */
  ghost predicate Delivered(rows: Rows, layout: seq<RoundIds>, rounds: seq<Round>) {
    |rounds| == |layout| && forall k: nat :: k < |layout| ==> DeliveredAt(rows, layout, rounds, k)
  }

  ghost predicate Shows(view: seq<seq<Match>>, rows: Rows, layout: seq<RoundIds>, k: nat, r: nat)
    requires k <= r < |layout| && |view| == |layout| - k
  {
    IdsIn(rows, layout[r].matches) && view[r - k] == ReadRound(rows, layout[r])
  }

  lemma {:induction false} ViewFrom(
      rows: Rows, layout: seq<RoundIds>, inputs: seq<InputId>, rounds: seq<Round>, k: nat, positions: Positions)
    requires IsBracket(rows, layout, inputs) && Delivered(rows, layout, rounds)
    requires k <= |layout| && InPlace(positions, layout, k)
    ensures |View(rounds[k..], positions)| == |layout| - k
    ensures forall r: nat :: k <= r < |layout| ==> Shows(View(rounds[k..], positions), rows, layout, k, r)
    decreases |layout| - k
  {
    if k < |layout| {
      assert DeliveredAt(rows, layout, rounds, k);
      var ms := ReadRound(rows, layout[k]);
      RoundRecovered(rows, layout, inputs, k, positions, rounds[k].matches);
      RoundPlaced(rows, layout, inputs, k, positions);
      ViewFrom(rows, layout, inputs, rounds, k + 1, Placed(positions, ms));
      ViewNext(rounds, k, positions, ms);
      ShowsFrom(View(rounds[k + 1..], Placed(positions, ms)), rows, layout, k, k + 1);
    }
  }

  lemma {:induction false} ShowsFrom(rest: seq<seq<Match>>, rows: Rows, layout: seq<RoundIds>, k: nat, next: nat)
    requires k < |layout| && next == k + 1 && |rest| == |layout| - next && IdsIn(rows, layout[k].matches)
    requires forall r: nat :: next <= r < |layout| ==> Shows(rest, rows, layout, next, r)
    ensures forall r: nat :: k <= r < |layout| ==> Shows([ReadRound(rows, layout[k])] + rest, rows, layout, k, r)
  {
    forall r: nat | k <= r < |layout|
      ensures Shows([ReadRound(rows, layout[k])] + rest, rows, layout, k, r)
    {
      assert r == k || Shows(rest, rows, layout, next, r);
    }
  }

  /** The view of a bracket is its rounds, every match at its position in the tree. */
  lemma {:induction false} ViewIsTree(
      rows: Rows, layout: seq<RoundIds>, inputs: seq<InputId>, rounds: seq<Round>, r: nat)
    requires IsBracket(rows, layout, inputs) && Delivered(rows, layout, rounds) && r < |layout|
    ensures |View(rounds, map[])| == |layout| && IdsIn(rows, layout[r].matches)
    ensures View(rounds, map[])[r] == ReadRound(rows, layout[r])
  {
    assert rounds[0..] == rounds;
    ViewFrom(rows, layout, inputs, rounds, 0, map[]);
    assert Shows(View(rounds, map[]), rows, layout, 0, r);
  }

  /** What the matches at position `i` of round `r` and its sources are. */
  lemma {:induction false} TreeSources(rows: Rows, layout: seq<RoundIds>, inputs: seq<InputId>, r: nat, i: nat)
    requires IsBracket(rows, layout, inputs) && 0 < r < |layout| && i < |layout[r].matches|
    requires IdsIn(rows, layout[r].matches) && IdsIn(rows, layout[r - 1].matches)
    ensures 2 * |layout[r].matches| == |layout[r - 1].matches|
    ensures var m, before := ReadRound(rows, layout[r])[i], ReadRound(rows, layout[r - 1]);
      m.source1 == Some(before[2 * i].id) && m.source2 == Some(before[2 * i + 1].id)
  {
    assert Halves(layout, inputs, r);
    assert BracketMatch(rows, layout, inputs, r, i);
    assert BracketMatch(rows, layout, inputs, r - 1, 2 * i);
    assert BracketMatch(rows, layout, inputs, r - 1, 2 * i + 1);
  }

  /** In the view of a bracket the sources of the match at position `i` of a round are at positions
      `2i` and `2i+1` of the round before. */
  lemma {:induction false} SourcesAreAdjacent(
      rows: Rows, layout: seq<RoundIds>, inputs: seq<InputId>, rounds: seq<Round>, r: nat, i: nat)
    requires IsBracket(rows, layout, inputs) && Delivered(rows, layout, rounds)
    requires 0 < r < |layout| && i < |layout[r].matches|
    ensures var view := View(rounds, map[]);
      && |view| == |layout| && |view[r]| == |layout[r].matches| && 2 * |view[r]| == |view[r - 1]|
      && view[r][i].source1 == Some(view[r - 1][2 * i].id)
      && view[r][i].source2 == Some(view[r - 1][2 * i + 1].id)
  {
    ViewIsTree(rows, layout, inputs, rounds, r);
    ViewIsTree(rows, layout, inputs, rounds, r - 1);
    TreeSources(rows, layout, inputs, r, i);
  }

  // ----- Round names -----

  datatype GroupType = FinalGroup | LoserBracket | RoundRobinGroup | SingleBracket | WinnerBracket

  datatype Label = Numbered(number: nat) | Final | SemiFinals | QuarterFinals | RoundOf(inputs: nat)

  function RoundLabel(groupType: GroupType, roundCount: nat, roundNumber: nat): Label
    requires roundNumber <= roundCount
  {
    if groupType.RoundRobinGroup? then Numbered(roundNumber)
    else
      var fromFinal := roundCount - roundNumber;
      if fromFinal == 0 then Final
      else if fromFinal == 1 then SemiFinals
      else if fromFinal == 2 then QuarterFinals
      else RoundOf(Pow2(fromFinal + 1))
  }

  /** How many inputs enter a round with the label. */
  function EnteringFor(name: Label): Option<nat> {
    match name
    case Numbered(_) => None
    case Final => Some(2)
    case SemiFinals => Some(4)
    case QuarterFinals => Some(8)
    case RoundOf(n) => Some(n)
  }

  /** The label of a bracket round names the number of inputs that enter it. */
  lemma {:induction false} LabelNamesEntrants(
      rows: Rows, layout: seq<RoundIds>, inputs: seq<InputId>, r: nat, groupType: GroupType)
    requires IsBracket(rows, layout, inputs) && r < |layout| && !groupType.RoundRobinGroup?
    ensures EnteringFor(RoundLabel(groupType, |layout|, r + 1)) == Some(|Entrants(rows, layout, inputs, r)|)
  {
    RoundSize(rows, layout, inputs, r);
    assert Pow2(1) == 2 && Pow2(2) == 4;
    assert Pow2(3) == 8;
  }
}
