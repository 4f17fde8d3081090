/** Round robin schedules by the circle method. */
module RoundRobin {
  import opened Models

  type Pairing = (nat, nat)

  function NumberOfRounds(teamCount: int): nat {
    if teamCount < 1 then 0 else if teamCount % 2 == 0 then teamCount - 1 else teamCount
  }

  // ----- Python lists -----

  /** `t.remove(x)`: the first occurrence of `x` goes. */
  function Remove(t: seq<nat>, x: nat): seq<nat>
    requires x in t
  {
    if t[0] == x then t[1..] else [t[0]] + Remove(t[1..], x)
  }

  /** `t.insert(1, x)` */
  function InsertSecond(t: seq<nat>, x: nat): seq<nat>
    requires |t| >= 1
  {
    t[..1] + [x] + t[1..]
  }

  lemma {:induction false} RemoveLast(t: seq<nat>, x: nat)
    requires |t| > 0 && t[|t| - 1] == x && forall j :: 0 <= j < |t| - 1 ==> t[j] != x
    ensures Remove(t, x) == t[..|t| - 1]
  {
    if |t| > 1 {
      RemoveLast(t[1..], x);
    }
  }

  // ----- The circle -----

  /** Who stands at position `j` after `r` rotations: 0 stays, the others move around it. */
  function At(rounds: nat, r: nat, j: nat): (a: nat)
    requires r <= rounds && j <= rounds
    ensures a <= rounds
  {
    if j == 0 then 0 else if j > r then j - r else j - r + rounds
  }

  ghost predicate IsRotation(t: seq<nat>, rounds: nat, r: nat) {
    |t| == rounds + 1 && r <= rounds && forall j :: 0 <= j <= rounds ==> t[j] == At(rounds, r, j)
  }

  lemma {:induction false} Rotate(t: seq<nat>, rounds: nat, r: nat)
    requires IsRotation(t, rounds, r) && r < rounds
    ensures rounds - r in t && |Remove(t, rounds - r)| >= 1
    ensures IsRotation(InsertSecond(Remove(t, rounds - r), rounds - r), rounds, r + 1)
  {
    assert t[rounds] == rounds - r;
    RemoveLast(t, rounds - r);
  }

  /** The pairings of every round: position `m` against position `rounds - m`. */
  ghost predicate IsSchedule(matches: seq<seq<Pairing>>, rounds: nat) {
    && |matches| == rounds
    && forall r :: 0 <= r < rounds ==> IsRound(matches[r], rounds, r)
  }

  ghost predicate IsRound(row: seq<Pairing>, rounds: nat, r: nat)
    requires r <= rounds
  {
    && |row| == (rounds + 1) / 2
    && forall m :: 0 <= m < |row| ==> row[m] == (At(rounds, r, m), At(rounds, r, rounds - m))
  }

  method GetRoundRobinCombinations(teamCount: nat) returns (matches: seq<seq<Pairing>>)
    ensures IsSchedule(matches, NumberOfRounds(teamCount))
  {
    var rounds: int := teamCount - 1;
    if teamCount % 2 == 1 {
      rounds := teamCount;
    }
    var matchesPerRound := (rounds + 1) / 2;
    var t: seq<nat> := [];
    for i := 0 to rounds + 1
      invariant |t| == i && forall j :: 0 <= j < i ==> t[j] == j
    {
      t := t + [i];
    }
    matches := [];
    var r := 0;
    while r < rounds
      invariant rounds < 0 ==> r == 0
      invariant rounds >= 0 ==> r <= rounds && IsRotation(t, rounds, r)
      invariant |matches| == r && forall k :: 0 <= k < r ==> IsRound(matches[k], rounds, k)
    {
      matches := matches + [[]];
      for m := 0 to matchesPerRound
        invariant |matches| == r + 1 && |matches[r]| == m
        invariant forall k :: 0 <= k < r ==> IsRound(matches[k], rounds, k)
        invariant forall k :: 0 <= k < m ==> matches[r][k] == (At(rounds, r, k), At(rounds, r, rounds - k))
      {
        matches := matches[r := matches[r] + [(t[m], t[|t| - 1 - m])]];
      }
      Rotate(t, rounds, r);
      t := Remove(t, rounds - r);
      t := InsertSecond(t, rounds - r);
      r := r + 1;
    }
  }

  // ----- Counting -----

  function CountIf<T>(s: seq<T>, p: T -> bool): nat {
    if s == [] then 0 else (if p(s[0]) then 1 else 0) + CountIf(s[1..], p)
  }

  lemma {:induction false} CountNone<T>(s: seq<T>, p: T -> bool)
    requires forall k :: 0 <= k < |s| ==> !p(s[k])
    ensures CountIf(s, p) == 0
  {
    if s != [] { CountNone(s[1..], p); }
  }

  lemma {:induction false} CountOne<T>(s: seq<T>, p: T -> bool, i: nat)
    requires i < |s| && p(s[i]) && forall k :: 0 <= k < |s| && k != i ==> !p(s[k])
    ensures CountIf(s, p) == 1
  {
    if i == 0 {
      CountNone(s[1..], p);
    } else {
      CountOne(s[1..], p, i - 1);
    }
  }

  /** How often `p` holds over all rounds. */
  function CountAll<T>(rows: seq<seq<T>>, p: T -> bool): nat {
    if rows == [] then 0 else CountIf(rows[0], p) + CountAll(rows[1..], p)
  }

  lemma {:induction false} CountAllNone<T>(rows: seq<seq<T>>, p: T -> bool)
    requires forall r :: 0 <= r < |rows| ==> CountIf(rows[r], p) == 0
    ensures CountAll(rows, p) == 0
  {
    if rows != [] { CountAllNone(rows[1..], p); }
  }

  lemma {:induction false} CountAllOne<T>(rows: seq<seq<T>>, p: T -> bool, i: nat)
    requires i < |rows| && CountIf(rows[i], p) == 1
    requires forall r :: 0 <= r < |rows| && r != i ==> CountIf(rows[r], p) == 0
    ensures CountAll(rows, p) == 1
  {
    if i == 0 {
      CountAllNone(rows[1..], p);
    } else {
      CountAllOne(rows[1..], p, i - 1);
    }
  }

  // ----- Everyone meets everyone -----

  function Meets(a: nat, b: nat): Pairing -> bool {
    (p: Pairing) => p == (a, b) || p == (b, a)
  }

  function Plays(a: nat): Pairing -> bool {
    (p: Pairing) => p.0 == a || p.1 == a
  }

  /** Where `a` stands in round `r`. */
  function Position(rounds: nat, r: nat, a: nat): (j: nat)
    requires r < rounds && a <= rounds
    ensures j <= rounds
  {
    if a == 0 then 0 else if a + r <= rounds then a + r else a + r - rounds
  }

  lemma {:induction false} PositionIsInverse(rounds: nat, r: nat, a: nat, j: nat)
    requires r < rounds && a <= rounds && j <= rounds
    ensures At(rounds, r, j) == a <==> j == Position(rounds, r, a)
  {
  }

  /** Two people meet in a round exactly if their positions are opposite. */
  lemma {:induction false} MeetsIff(row: seq<Pairing>, rounds: nat, r: nat, a: nat, b: nat, m: nat)
    requires r < rounds && rounds % 2 == 1 && IsRound(row, rounds, r) && m < |row|
    requires a <= rounds && b <= rounds && a != b
    ensures var i, j := Position(rounds, r, a), Position(rounds, r, b);
      Meets(a, b)(row[m]) <==> i + j == rounds && (m == i || m == j)
  {
    PositionIsInverse(rounds, r, a, m);
    PositionIsInverse(rounds, r, b, m);
    PositionIsInverse(rounds, r, a, rounds - m);
    PositionIsInverse(rounds, r, b, rounds - m);
  }

  /** The one round in which two people meet: twice the round is the number of laps minus the sum
      of their numbers, and 2 can be divided by because the number of rounds is odd. */
  function MeetingRound(rounds: nat, a: nat, b: nat): (r: int)
    requires rounds % 2 == 1 && a < b <= rounds
  {
    if a == 0 then (if b == rounds then 0 else rounds - b)
    else if (a + b) % 2 == 0 then rounds - (a + b) / 2
    else if a + b <= rounds then (rounds - (a + b)) / 2
    else (3 * rounds - (a + b)) / 2
  }

  lemma {:induction false} OppositeIff(rounds: nat, r: nat, a: nat, b: nat)
    requires rounds % 2 == 1 && r < rounds && a < b <= rounds
    ensures 0 <= MeetingRound(rounds, a, b) < rounds
    ensures Position(rounds, r, a) + Position(rounds, r, b) == rounds <==> r == MeetingRound(rounds, a, b)
  {
  }

  lemma {:induction false} CountInRound(row: seq<Pairing>, rounds: nat, r: nat, a: nat, b: nat)
    requires r < rounds && rounds % 2 == 1 && IsRound(row, rounds, r) && a < b <= rounds
    ensures CountIf(row, Meets(a, b)) == if r == MeetingRound(rounds, a, b) then 1 else 0
  {
    OppositeIff(rounds, r, a, b);
    forall m | 0 <= m < |row|
      ensures var i, j := Position(rounds, r, a), Position(rounds, r, b);
        Meets(a, b)(row[m]) <==> i + j == rounds && (m == i || m == j)
    {
      MeetsIff(row, rounds, r, a, b, m);
    }
    var i, j := Position(rounds, r, a), Position(rounds, r, b);
    if r == MeetingRound(rounds, a, b) {
      CountOne(row, Meets(a, b), if i < j then i else j);
    } else {
      CountNone(row, Meets(a, b));
    }
  }

  /** Any two people meet exactly once. */
  lemma {:induction false} EveryPairMeetsOnce(matches: seq<seq<Pairing>>, rounds: nat, a: nat, b: nat)
    requires IsSchedule(matches, rounds) && rounds % 2 == 1 && a < b <= rounds
    ensures CountAll(matches, Meets(a, b)) == 1
  {
    forall r | 0 <= r < rounds
      ensures CountIf(matches[r], Meets(a, b)) == if r == MeetingRound(rounds, a, b) then 1 else 0
    {
      CountInRound(matches[r], rounds, r, a, b);
    }
    OppositeIff(rounds, 0, a, b);
    CountAllOne(matches, Meets(a, b), MeetingRound(rounds, a, b));
  }

  /** Everyone plays exactly once in every round. */
  lemma {:induction false} EveryonePlaysOnce(row: seq<Pairing>, rounds: nat, r: nat, a: nat)
    requires r < rounds && rounds % 2 == 1 && IsRound(row, rounds, r) && a <= rounds
    ensures CountIf(row, Plays(a)) == 1
  {
    var i := Position(rounds, r, a);
    var m := if i < |row| then i else rounds - i;
    forall k | 0 <= k < |row|
      ensures Plays(a)(row[k]) <==> k == m
    {
      PositionIsInverse(rounds, r, a, k);
      PositionIsInverse(rounds, r, a, rounds - k);
    }
    CountOne(row, Plays(a), m);
  }

  // ----- Creating the matches -----

  /** The pairings without the non-existent opponent of an odd number of teams. */
  function Real(row: seq<Pairing>, n: nat): (r: seq<Pairing>)
    ensures forall p :: p in r <==> p in row && p.0 < n && p.1 < n
  {
    if row == [] then []
    else
      var k := |row| - 1;
      var rest := Real(row[..k], n);
      assert row == row[..k] + [row[k]];
      if row[k].0 < n && row[k].1 < n then rest + [row[k]] else rest
  }

  function Body(p: Pairing, roundId: RoundId, inputs: seq<InputId>, t: Tournament): MatchBody
    requires p.0 < |inputs| && p.1 < |inputs|
  {
    MatchBody(roundId, Some(inputs[p.0]), Some(inputs[p.1]), None, None, t.duration, t.margin)
  }

  /** The bodies of the real pairings of one round. */
  ghost predicate BodiesOf(
      bodies: seq<MatchBody>, ps: seq<Pairing>, roundId: RoundId, inputs: seq<InputId>, t: Tournament)
  {
    && |bodies| == |ps|
    && forall k :: 0 <= k < |ps| ==>
         ps[k].0 < |inputs| && ps[k].1 < |inputs| && bodies[k] == Body(ps[k], roundId, inputs, t)
  }

  function Faces(x: InputId, y: InputId): MatchBody -> bool {
    (b: MatchBody) => (b.input1 == Some(x) && b.input2 == Some(y)) || (b.input1 == Some(y) && b.input2 == Some(x))
  }

  function Involves(x: InputId): MatchBody -> bool {
    (b: MatchBody) => b.input1 == Some(x) || b.input2 == Some(x)
  }

  ghost predicate Distinct(inputs: seq<InputId>) {
    forall i, j :: 0 <= i < j < |inputs| ==> inputs[i] != inputs[j]
  }

  lemma {:induction false} CountAppend<T>(a: seq<T>, x: T, p: T -> bool)
    ensures CountIf(a + [x], p) == CountIf(a, p) + if p(x) then 1 else 0
  {
    if a == [] {
      assert [x][1..] == [];
    } else {
      assert (a + [x])[1..] == a[1..] + [x];
      CountAppend(a[1..], x, p);
    }
  }

  lemma {:induction false} CountReal(row: seq<Pairing>, n: nat, p: Pairing -> bool)
    requires forall k :: 0 <= k < |row| && p(row[k]) ==> row[k].0 < n && row[k].1 < n
    ensures CountIf(Real(row, n), p) == CountIf(row, p)
  {
    if row != [] {
      var k := |row| - 1;
      assert row == row[..k] + [row[k]];
      CountReal(row[..k], n, p);
      CountAppend(row[..k], row[k], p);
      CountAppend(Real(row[..k], n), row[k], p);
    }
  }

  /** Dropping the pairings with `d` drops the matches of `a` against `d`. */
  lemma {:induction false} CountRealWithout(row: seq<Pairing>, d: nat, a: nat)
    requires forall k :: 0 <= k < |row| ==> row[k].0 <= d && row[k].1 <= d && row[k].0 != row[k].1
    requires a < d
    ensures CountIf(Real(row, d), Plays(a)) + CountIf(row, Meets(a, d)) == CountIf(row, Plays(a))
    ensures |Real(row, d)| + CountIf(row, Plays(d)) == |row|
  {
    if row != [] {
      var k := |row| - 1;
      assert row == row[..k] + [row[k]];
      CountRealWithout(row[..k], d, a);
      CountAppend(row[..k], row[k], Plays(a));
      CountAppend(row[..k], row[k], Plays(d));
      CountAppend(row[..k], row[k], Meets(a, d));
      CountAppend(Real(row[..k], d), row[k], Plays(a));
    }
  }

  lemma {:induction false} CountBodies(
      bodies: seq<MatchBody>, ps: seq<Pairing>, roundId: RoundId, inputs: seq<InputId>, t: Tournament,
      q: MatchBody -> bool, p: Pairing -> bool)
    requires BodiesOf(bodies, ps, roundId, inputs, t)
    requires forall k :: 0 <= k < |ps| ==> q(bodies[k]) == p(ps[k])
    ensures CountIf(bodies, q) == CountIf(ps, p)
  {
    if ps != [] {
      CountBodies(bodies[1..], ps[1..], roundId, inputs, t, q, p);
    }
  }

  lemma {:induction false} CountInputs(
      bodies: seq<MatchBody>, ps: seq<Pairing>, roundId: RoundId, inputs: seq<InputId>, t: Tournament, i: nat, j: nat)
    requires BodiesOf(bodies, ps, roundId, inputs, t) && Distinct(inputs)
    requires i < |inputs| && j < |inputs|
    ensures CountIf(bodies, Faces(inputs[i], inputs[j])) == CountIf(ps, Meets(i, j))
    ensures CountIf(bodies, Involves(inputs[i])) == CountIf(ps, Plays(i))
  {
    CountBodies(bodies, ps, roundId, inputs, t, Faces(inputs[i], inputs[j]), Meets(i, j));
    CountBodies(bodies, ps, roundId, inputs, t, Involves(inputs[i]), Plays(i));
  }

  function TotalSize<T>(rows: seq<seq<T>>): nat {
    if rows == [] then 0 else |rows[0]| + TotalSize(rows[1..])
  }

  /** The real pairings of a schedule have become the matches of the rounds. */
  ghost predicate IsBuilt(
      created: seq<seq<MatchBody>>, matches: seq<seq<Pairing>>, roundIds: seq<RoundId>,
      inputs: seq<InputId>, t: Tournament)
  {
    && |created| == |matches| == |roundIds|
    && forall r :: 0 <= r < |created| ==>
         BodiesOf(created[r], Real(matches[r], |inputs|), roundIds[r], inputs, t)
  }

  /** The input at position `m` of the circle is home, against the one opposite. */
  ghost predicate SidesAt(b: MatchBody, inputs: seq<InputId>, rounds: nat, r: nat, m: nat)
    requires r <= rounds && m <= rounds
  {
    && At(rounds, r, m) < |inputs| && At(rounds, r, rounds - m) < |inputs|
    && b.input1 == Some(inputs[At(rounds, r, m)]) && b.input2 == Some(inputs[At(rounds, r, rounds - m)])
  }

  ghost predicate IsHomeSide(b: MatchBody, inputs: seq<InputId>, rounds: nat, r: nat)
    requires r <= rounds
  {
    exists m: nat :: m < (rounds + 1) / 2 && SidesAt(b, inputs, rounds, r, m)
  }

  /** Who is home in a match that was created. */
  lemma {:induction false} BuiltSides(
      created: seq<seq<MatchBody>>, matches: seq<seq<Pairing>>, roundIds: seq<RoundId>,
      inputs: seq<InputId>, t: Tournament, r: nat, k: nat)
    requires IsBuilt(created, matches, roundIds, inputs, t) && IsSchedule(matches, NumberOfRounds(|inputs|))
    requires r < |created| && k < |created[r]|
    ensures IsHomeSide(created[r][k], inputs, NumberOfRounds(|inputs|), r)
  {
    var rounds, row := NumberOfRounds(|inputs|), Real(matches[r], |inputs|);
    assert row[k] in row;
    var m :| 0 <= m < |matches[r]| && matches[r][m] == row[k];
    assert IsRound(matches[r], rounds, r);
    assert SidesAt(created[r][k], inputs, rounds, r, m);
  }

  lemma {:induction false} BuiltRound(
      created: seq<seq<MatchBody>>, matches: seq<seq<Pairing>>, roundIds: seq<RoundId>,
      inputs: seq<InputId>, t: Tournament, r: nat, i: nat)
    requires IsBuilt(created, matches, roundIds, inputs, t) && IsSchedule(matches, NumberOfRounds(|inputs|))
    requires Distinct(inputs) && |inputs| >= 1 && r < |created| && i < |inputs|
    ensures CountIf(created[r], Involves(inputs[i]))
         == if |inputs| % 2 == 1 && r == MeetingRound(|inputs|, i, |inputs|) then 0 else 1
    ensures |created[r]| == |inputs| / 2
  {
    var n, row := |inputs|, matches[r];
    var rounds := NumberOfRounds(n);
    assert IsRound(row, rounds, r);
    EveryonePlaysOnce(row, rounds, r, i);
    CountInputs(created[r], Real(row, n), roundIds[r], inputs, t, i, i);
    if n % 2 == 1 {
      EveryonePlaysOnce(row, rounds, r, n);
      RoundInRange(row, rounds, r);
      CountRealWithout(row, n, i);
      CountInRound(row, rounds, r, i, n);
    } else {
      RoundInRange(row, rounds, r);
      RealIsAll(row, n);
    }
  }

  lemma {:induction false} RealIsAll(row: seq<Pairing>, n: nat)
    requires forall k :: 0 <= k < |row| ==> row[k].0 < n && row[k].1 < n
    ensures Real(row, n) == row
  {
    if row != [] {
      RealIsAll(row[..|row| - 1], n);
    }
  }

  lemma {:induction false} RoundInRange(row: seq<Pairing>, rounds: nat, r: nat)
    requires r < rounds && rounds % 2 == 1 && IsRound(row, rounds, r)
    ensures forall k :: 0 <= k < |row| ==> row[k].0 <= rounds && row[k].1 <= rounds && row[k].0 != row[k].1
  {
    forall k | 0 <= k < |row|
      ensures row[k].0 <= rounds && row[k].1 <= rounds && row[k].0 != row[k].1
    {
      var a := At(rounds, r, k);
      assert row[k] == (a, At(rounds, r, rounds - k));
      PositionIsInverse(rounds, r, a, k);
      PositionIsInverse(rounds, r, a, rounds - k);
    }
  }

  /** In how many rounds `x` has no match. */
  function SitOuts(created: seq<seq<MatchBody>>, x: InputId): nat {
    if created == [] then 0
    else (if CountIf(created[0], Involves(x)) == 0 then 1 else 0) + SitOuts(created[1..], x)
  }

  lemma {:induction false} SitOutsNone(created: seq<seq<MatchBody>>, x: InputId)
    requires forall r :: 0 <= r < |created| ==> CountIf(created[r], Involves(x)) == 1
    ensures SitOuts(created, x) == 0
  {
    if created != [] { SitOutsNone(created[1..], x); }
  }

  lemma {:induction false} SitOutsOne(created: seq<seq<MatchBody>>, x: InputId, i: nat)
    requires i < |created| && CountIf(created[i], Involves(x)) == 0
    requires forall r :: 0 <= r < |created| && r != i ==> CountIf(created[r], Involves(x)) == 1
    ensures SitOuts(created, x) == 1
  {
    if i == 0 {
      SitOutsNone(created[1..], x);
    } else {
      SitOutsOne(created[1..], x, i - 1);
    }
  }

  lemma {:induction false} SizeOfRows<T>(rows: seq<seq<T>>, k: nat)
    requires forall r :: 0 <= r < |rows| ==> |rows[r]| == k
    ensures TotalSize(rows) == |rows| * k
  {
    if rows != [] {
      SizeOfRows(rows[1..], k);
      assert |rows| * k == k + |rows[1..]| * k;
    }
  }

  lemma {:induction false} CountAllBuilt(
      created: seq<seq<MatchBody>>, matches: seq<seq<Pairing>>, roundIds: seq<RoundId>,
      inputs: seq<InputId>, t: Tournament, i: nat, j: nat)
    requires IsBuilt(created, matches, roundIds, inputs, t) && Distinct(inputs)
    requires i < |inputs| && j < |inputs|
    ensures CountAll(created, Faces(inputs[i], inputs[j])) == CountAll(matches, Meets(i, j))
  {
    if created != [] {
      CountInputs(created[0], Real(matches[0], |inputs|), roundIds[0], inputs, t, i, j);
      CountReal(matches[0], |inputs|, Meets(i, j));
      CountAllBuilt(created[1..], matches[1..], roundIds[1..], inputs, t, i, j);
    }
  }

  /** What a round robin promises: any two inputs meet exactly once, everyone plays at most once in
      a round, and misses a round exactly once if the number of inputs is odd. */
  ghost predicate IsRoundRobin(created: seq<seq<MatchBody>>, inputs: seq<InputId>) {
    && (forall i, j :: 0 <= i < j < |inputs| ==> CountAll(created, Faces(inputs[i], inputs[j])) == 1)
    && (forall r, i :: 0 <= r < |created| && 0 <= i < |inputs| ==> CountIf(created[r], Involves(inputs[i])) <= 1)
    && (forall i :: 0 <= i < |inputs| ==> SitOuts(created, inputs[i]) == |inputs| % 2)
    && 2 * TotalSize(created) == |inputs| * (|inputs| - 1)
  }

  lemma {:induction false} BuiltSize(n: nat, rounds: nat)
    requires n >= 1 && rounds == NumberOfRounds(n)
    ensures 2 * (rounds * (n / 2)) == n * (n - 1)
  {
    if n % 2 == 1 {
      assert 2 * (n / 2) == n - 1;
      assert 2 * (rounds * (n / 2)) == rounds * (2 * (n / 2));
    } else {
      assert 2 * (n / 2) == n;
      assert 2 * (rounds * (n / 2)) == rounds * (2 * (n / 2));
    }
  }

  lemma {:induction false} BuiltSitOuts(
      created: seq<seq<MatchBody>>, matches: seq<seq<Pairing>>, roundIds: seq<RoundId>,
      inputs: seq<InputId>, t: Tournament, i: nat)
    requires IsBuilt(created, matches, roundIds, inputs, t) && IsSchedule(matches, NumberOfRounds(|inputs|))
    requires Distinct(inputs) && i < |inputs|
    ensures SitOuts(created, inputs[i]) == |inputs| % 2
  {
    var n := |inputs|;
    forall r | 0 <= r < |created|
      ensures CountIf(created[r], Involves(inputs[i]))
           == if n % 2 == 1 && r == MeetingRound(n, i, n) then 0 else 1
    {
      BuiltRound(created, matches, roundIds, inputs, t, r, i);
    }
    if n % 2 == 1 {
      OppositeIff(n, 0, i, n);
      SitOutsOne(created, inputs[i], MeetingRound(n, i, n));
    } else {
      SitOutsNone(created, inputs[i]);
    }
  }

  lemma {:induction false} BuiltRounds(
      created: seq<seq<MatchBody>>, matches: seq<seq<Pairing>>, roundIds: seq<RoundId>,
      inputs: seq<InputId>, t: Tournament)
    requires IsBuilt(created, matches, roundIds, inputs, t) && IsSchedule(matches, NumberOfRounds(|inputs|))
    requires Distinct(inputs) && |inputs| >= 1
    ensures forall r, i :: 0 <= r < |created| && 0 <= i < |inputs| ==>
              CountIf(created[r], Involves(inputs[i])) <= 1
    ensures 2 * TotalSize(created) == |inputs| * (|inputs| - 1)
  {
    forall r, i | 0 <= r < |created| && 0 <= i < |inputs|
      ensures CountIf(created[r], Involves(inputs[i])) <= 1
    {
      BuiltRound(created, matches, roundIds, inputs, t, r, i);
    }
    forall r | 0 <= r < |created|
      ensures |created[r]| == |inputs| / 2
    {
      BuiltRound(created, matches, roundIds, inputs, t, r, 0);
    }
    SizeOfRows(created, |inputs| / 2);
    BuiltSize(|inputs|, |created|);
  }

  lemma {:induction false} BuiltIsRoundRobin(
      created: seq<seq<MatchBody>>, matches: seq<seq<Pairing>>, roundIds: seq<RoundId>,
      inputs: seq<InputId>, t: Tournament)
    requires IsBuilt(created, matches, roundIds, inputs, t) && IsSchedule(matches, NumberOfRounds(|inputs|))
    requires Distinct(inputs)
    ensures IsRoundRobin(created, inputs)
  {
    var n := |inputs|;
    forall i, j | 0 <= i < j < n
      ensures CountAll(created, Faces(inputs[i], inputs[j])) == 1
    {
      CountAllBuilt(created, matches, roundIds, inputs, t, i, j);
      EveryPairMeetsOnce(matches, NumberOfRounds(n), i, j);
    }
    forall i | 0 <= i < n
      ensures SitOuts(created, inputs[i]) == n % 2
    {
      BuiltSitOuts(created, matches, roundIds, inputs, t, i);
    }
    if n > 0 { BuiltRounds(created, matches, roundIds, inputs, t); }
  }

  /** Creates the matches of a round robin, round by round. */
  method BuildRoundRobin(roundIds: seq<RoundId>, inputs: seq<InputId>, t: Tournament)
      returns (created: seq<seq<MatchBody>>)
    requires Distinct(inputs) && |roundIds| == NumberOfRounds(|inputs|)
    ensures |created| == |roundIds| && IsRoundRobin(created, inputs)
    ensures forall r, k :: 0 <= r < |created| && 0 <= k < |created[r]| ==>
              IsHomeSide(created[r][k], inputs, NumberOfRounds(|inputs|), r)
    ensures forall r, b :: 0 <= r < |created| && b in created[r] ==>
              && b.roundId == roundIds[r] && b.source1 == None && b.source2 == None
              && b.duration == t.duration && b.margin == t.margin
  {
    var teamCount := |inputs|;
    var matches := GetRoundRobinCombinations(teamCount);
    created := [];
    for i := 0 to |roundIds|
      invariant |created| == i
      invariant forall r :: 0 <= r < i ==> BodiesOf(created[r], Real(matches[r], teamCount), roundIds[r], inputs, t)
    {
      var bodies := [];
      for k := 0 to |matches[i]|
        invariant BodiesOf(bodies, Real(matches[i][..k], teamCount), roundIds[i], inputs, t)
      {
        var p := matches[i][k];
        assert matches[i][..k + 1][..k] == matches[i][..k];
        if p.0 < teamCount && p.1 < teamCount {
          var input1, input2 := inputs[p.0], inputs[p.1];
          bodies := bodies
            + [MatchBody(roundIds[i], Some(input1), Some(input2), None, None, t.duration, t.margin)];
        }
      }
      assert matches[i][..|matches[i]|] == matches[i];
      created := created + [bodies];
    }
    BuiltIsRoundRobin(created, matches, roundIds, inputs, t);
    forall r, k | 0 <= r < |created| && 0 <= k < |created[r]|
      ensures IsHomeSide(created[r][k], inputs, NumberOfRounds(|inputs|), r)
    {
      BuiltSides(created, matches, roundIds, inputs, t, r, k);
    }
  }
}
