/** What the pairing of a Swiss round promises, in terms of teams and played matches. */
module SwissPairings {
  import opened Models
  import opened Matching

  type TeamPair = (Input, Input)

  function ActiveTeams(inputs: seq<Input>): (r: seq<Input>)
    ensures forall t :: t in r <==> t in inputs && t.team.Some? && t.team.value.active
  {
    if inputs == [] then []
    else if inputs[0].team.Some? && inputs[0].team.value.active then
      [inputs[0]] + ActiveTeams(inputs[1..])
    else ActiveTeams(inputs[1..])
  }

  /** The ids are those of different database rows. */
  ghost predicate ProperIds(teams: seq<Input>) {
    && (forall t :: t in teams ==> t.id > 0)
    && (forall i, j :: 0 <= i < j < |teams| ==> teams[i].id != teams[j].id)
  }

  /** The pairs of inputs that met in a match whose inputs are known. */
  ghost function PlayedPairs(ms: seq<Match>): set<Pair> {
    if ms == [] then {}
    else
      var m := ms[|ms| - 1];
      PlayedPairs(ms[..|ms| - 1]) +
      if m.IsDefinitive() then {Edge((m.input1.value, m.input2.value))} else {}
  }

  /** Two inputs have met exactly when some match has one on each side. */
  lemma {:induction false} MetIff(ms: seq<Match>, x: InputId, y: InputId)
    ensures Edge((x, y)) in PlayedPairs(ms) <==>
            exists m :: m in ms && ((m.input1 == Some(x) && m.input2 == Some(y))
                                    || (m.input1 == Some(y) && m.input2 == Some(x)))
  {
    if ms != [] {
      var k := |ms| - 1;
      assert ms == ms[..k] + [ms[k]];
      MetIff(ms[..k], x, y);
    }
  }

  /** How often an input occurs in a match whose inputs are known. */
  function TimesPlayed(ms: seq<Match>, x: InputId): nat {
    if ms == [] then 0
    else
      var m := ms[|ms| - 1];
      TimesPlayed(ms[..|ms| - 1], x) +
      if !m.IsDefinitive() then 0
      else (if m.input1.value == x then 1 else 0) + (if m.input2.value == x then 1 else 0)
  }

  function MostPlayed(ms: seq<Match>, teams: seq<Input>): (n: nat)
    ensures forall t :: t in teams ==> TimesPlayed(ms, t.id) <= n
    ensures teams != [] ==> exists t :: t in teams && TimesPlayed(ms, t.id) == n
  {
    if teams == [] then 0
    else
      var rest := MostPlayed(ms, teams[1..]);
      var first := TimesPlayed(ms, teams[0].id);
      if first > rest || |teams| == 1 then
        assert teams[0] in teams && (|teams| == 1 ==> teams[1..] == []);
        first
      else rest
  }

  /** The test that decides who may sit out first: as many matches as the busiest team. When it
      means what its name says is the subject of `SwissSitOuts`. */
  predicate HasntSatOut(ms: seq<Match>, teams: seq<Input>, t: Input) {
    TimesPlayed(ms, t.id) == MostPlayed(ms, teams)
  }

  function AbsDiff(a: Input, b: Input): real {
    if a.points >= b.points then a.points - b.points else b.points - a.points
  }

  /** The squared whole number of points between two teams. */
  function Gap(a: Input, b: Input): nat {
    AbsDiff(a, b).Floor * AbsDiff(a, b).Floor
  }

  function TotalGap(gap: (Input, Input) -> nat, q: seq<TeamPair>): nat {
    if q == [] then 0 else gap(q[0].0, q[0].1) + TotalGap(gap, q[1..])
  }

  /** How many whole points are between two teams, whichever has more. */
  ghost function WholePoints(a: Input, b: Input): (d: nat)
    ensures d as real <= a.points - b.points < (d + 1) as real || d as real <= b.points - a.points < (d + 1) as real
  {
    AbsDiff(a, b).Floor
  }

  /** The gap of two teams is the square of the whole points between them. */
  lemma {:induction false} GapIsSquare(a: Input, b: Input, d: nat)
    requires d as real <= a.points - b.points < (d + 1) as real || d as real <= b.points - a.points < (d + 1) as real
    ensures WholePoints(a, b) == d && Gap(a, b) == d * d
  {
    assert d as real <= AbsDiff(a, b) < (d + 1) as real;
    assert AbsDiff(a, b).Floor == d;
  }

  /** How unequal a pairing is: the sum of the squared whole points between the two of each pair. */
  ghost function SquaredPoints(q: seq<TeamPair>): nat {
    if q == [] then 0 else WholePoints(q[0].0, q[0].1) * WholePoints(q[0].0, q[0].1) + SquaredPoints(q[1..])
  }

  lemma {:induction false} TotalGapIsSquares(q: seq<TeamPair>)
    ensures TotalGap(Gap, q) == SquaredPoints(q)
  {
    if q != [] {
      GapIsSquare(q[0].0, q[0].1, WholePoints(q[0].0, q[0].1));
      TotalGapIsSquares(q[1..]);
    }
  }

  function Ids(q: seq<TeamPair>): (r: seq<Pair>)
    ensures |r| == |q|
    ensures forall i :: 0 <= i < |q| ==> r[i] == (q[i].0.id, q[i].1.id)
  {
    if q == [] then [] else [(q[0].0.id, q[0].1.id)] + Ids(q[1..])
  }

  ghost predicate Plays(q: seq<TeamPair>, t: Input) {
    exists i :: 0 <= i < |q| && (q[i].0 == t || q[i].1 == t)
  }

  /** Disjoint pairs of different teams that have not met. */
  ghost predicate IsPairing(teams: seq<Input>, played: set<Pair>, q: seq<TeamPair>) {
    && (forall i :: 0 <= i < |q| ==>
         && q[i].0 in teams && q[i].1 in teams && q[i].0.id != q[i].1.id
         && Edge((q[i].0.id, q[i].1.id)) !in played)
    && AreDisjoint(Ids(q))
  }

  ghost predicate IsLargest(teams: seq<Input>, played: set<Pair>, q: seq<TeamPair>) {
    && IsPairing(teams, played, q)
    && forall o :: IsPairing(teams, played, o) ==> |o| <= |q|
  }

  /** `b` is at least as good a choice to sit out as `t`: a team that passes the test before one that
      fails it, and the lower ranked if both pass or both fail. */
  ghost predicate SitsOutBefore(ms: seq<Match>, teams: seq<Input>, b: Input, t: Input) {
    && (HasntSatOut(ms, teams, t) ==> HasntSatOut(ms, teams, b))
    && (HasntSatOut(ms, teams, t) == HasntSatOut(ms, teams, b) ==> b.points <= t.points)
  }

  /** `b` is the best choice among all teams that a largest pairing can leave out, and no largest
      pairing that leaves it out has smaller gaps. */
  ghost predicate IsBestSitOut(teams: seq<Input>, ms: seq<Match>, q: seq<TeamPair>, b: Input) {
    && b in teams && !Plays(q, b)
    && forall o, t :: IsLargest(teams, PlayedPairs(ms), o) && t in teams && !Plays(o, t) ==>
         && SitsOutBefore(ms, teams, b, t)
         && (t == b ==> SquaredPoints(q) <= SquaredPoints(o))
  }

  /** What the weights are to express: as many pairs as possible; then the right team sits out; then
      the smallest gaps. With an even number of teams nobody is chosen to sit out. */
  ghost predicate IsBest(teams: seq<Input>, ms: seq<Match>, q: seq<TeamPair>) {
    && IsLargest(teams, PlayedPairs(ms), q)
    && (|teams| % 2 == 0 ==>
         forall o :: IsLargest(teams, PlayedPairs(ms), o) ==> SquaredPoints(q) <= SquaredPoints(o))
    && (|teams| % 2 == 1 ==> exists b :: IsBestSitOut(teams, ms, q, b))
  }

  lemma {:induction false} SameTeam(teams: seq<Input>, a: Input, b: Input)
    requires ProperIds(teams) && a in teams && b in teams
    ensures a.id == b.id <==> a == b
  {
    var i :| 0 <= i < |teams| && teams[i] == a;
    var j :| 0 <= j < |teams| && teams[j] == b;
  }

  ghost function IdSet(teams: seq<Input>): set<InputId> {
    set t | t in teams :: t.id
  }

  lemma {:induction false} IdSetSize(teams: seq<Input>)
    requires ProperIds(teams)
    ensures |IdSet(teams)| == |teams|
  {
    if teams != [] {
      var rest := teams[1..];
      IdSetSize(rest);
      forall t | t in rest
        ensures t.id != teams[0].id
      {
        var i :| 0 <= i < |rest| && rest[i] == t;
        assert teams[i + 1] == t;
      }
      assert IdSet(teams) == {teams[0].id} + IdSet(rest);
    }
  }

  lemma {:induction false} CoveredAreTeams(teams: seq<Input>, played: set<Pair>, q: seq<TeamPair>)
    requires IsPairing(teams, played, q)
    ensures Covered(Ids(q)) <= IdSet(teams)
  {
    forall x | x in Covered(Ids(q))
      ensures x in IdSet(teams)
    {
      InCovered(Ids(q), x);
    }
  }

  lemma {:induction false} AllPlay(teams: seq<Input>, q: seq<TeamPair>)
    requires forall t :: t in teams ==> Plays(q, t)
    ensures IdSet(teams) <= Covered(Ids(q))
  {
    forall x | x in IdSet(teams)
      ensures x in Covered(Ids(q))
    {
      InCovered(Ids(q), x);
    }
  }

  /** A pairing covers an even number of teams, at most all of them. */
  lemma {:induction false} PairingCovers(teams: seq<Input>, played: set<Pair>, q: seq<TeamPair>)
    requires ProperIds(teams) && IsPairing(teams, played, q)
    ensures 2 * |q| <= |teams|
    ensures 2 * |q| < |teams| ==> exists t :: t in teams && !Plays(q, t)
  {
    CoveredAreTeams(teams, played, q);
    CoveredSize(Ids(q));
    IdSetSize(teams);
    SubsetSize(Covered(Ids(q)), IdSet(teams));
    if forall t :: t in teams ==> Plays(q, t) {
      AllPlay(teams, q);
      assert Covered(Ids(q)) == IdSet(teams);
    }
  }
}
