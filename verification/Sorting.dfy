/** Stable sorting by a strict order, as the standard library of the services provides it, and
    what makes the result independent of the order of the input. */
module Sorting {

  /** A strict weak order: what a sort key induces. */
  ghost predicate StrictWeak<T(!new)>(before: (T, T) -> bool) {
    && (forall x, y :: before(x, y) ==> !before(y, x))
    && (forall x, y, z :: !before(x, y) && !before(y, z) ==> !before(x, z))
  }

  /** No element has to move in front of an earlier one. */
  ghost predicate Sorted<T>(before: (T, T) -> bool, s: seq<T>) {
    forall i, j :: 0 <= i < j < |s| ==> !before(s[j], s[i])
  }

  /** Every element is strictly before every later one. */
  ghost predicate StrictlySorted<T>(before: (T, T) -> bool, s: seq<T>) {
    forall i, j :: 0 <= i < j < |s| ==> before(s[i], s[j])
  }

  ghost predicate NoDuplicates<T>(s: seq<T>) {
    forall i, j :: 0 <= i < j < |s| ==> s[i] != s[j]
  }

  function Insert<T>(before: (T, T) -> bool, x: T, s: seq<T>): (r: seq<T>)
    ensures multiset(r) == multiset{x} + multiset(s)
    ensures |r| == |s| + 1
  {
    if s == [] then [x]
    else if before(s[0], x) then
      assert s == [s[0]] + s[1..];
      [s[0]] + Insert(before, x, s[1..])
    else
      [x] + s
  }

  /** Elements that are level keep the order they came in. */
  function Sort<T>(before: (T, T) -> bool, s: seq<T>): (r: seq<T>)
    ensures multiset(r) == multiset(s)
    ensures |r| == |s|
  {
    if s == [] then []
    else
      assert s == [s[0]] + s[1..];
      Insert(before, s[0], Sort(before, s[1..]))
  }

  lemma {:induction false} SortFirst<T>(before: (T, T) -> bool, s: seq<T>)
    requires s != []
    ensures Sort(before, s) == Insert(before, s[0], Sort(before, s[1..]))
  {
  }

  lemma {:induction false} MemberOfPermutation<T>(s: seq<T>, t: seq<T>, x: T)
    requires multiset(s) == multiset(t)
    ensures x in s <==> x in t
  {
    assert x in s <==> x in multiset(s);
    assert x in t <==> x in multiset(t);
  }

  lemma {:induction false} InsertKeepsSorted<T(!new)>(before: (T, T) -> bool, x: T, s: seq<T>)
    requires StrictWeak(before) && Sorted(before, s)
    ensures Sorted(before, Insert(before, x, s))
  {
    if s != [] {
      var r := Insert(before, x, s);
      if before(s[0], x) {
        InsertKeepsSorted(before, x, s[1..]);
        var t := Insert(before, x, s[1..]);
        forall j | 0 < j < |r|
          ensures !before(r[j], r[0])
        {
          assert r[j] == t[j - 1];
          assert r[j] in multiset(t);
          if r[j] != x { assert r[j] in s[1..]; }
        }
      } else {
        forall j | 0 < j < |r|
          ensures !before(r[j], r[0])
        {
          assert r[j] == s[j - 1];
          assert !before(s[j - 1], s[0]);
        }
      }
    }
  }

  lemma {:induction false} SortSorts<T(!new)>(before: (T, T) -> bool, s: seq<T>)
    requires StrictWeak(before)
    ensures Sorted(before, Sort(before, s))
  {
    if s != [] {
      SortSorts(before, s[1..]);
      InsertKeepsSorted(before, s[0], Sort(before, s[1..]));
    }
  }

  lemma {:induction false} SameHead<T>(before: (T, T) -> bool, s: seq<T>, t: seq<T>)
    requires StrictlySorted(before, s) && Sorted(before, t)
    requires multiset(s) == multiset(t) && s != [] && t != []
    ensures s[0] == t[0]
  {
    MemberOfPermutation(s, t, s[0]);
    MemberOfPermutation(s, t, t[0]);
    var i :| 0 <= i < |s| && s[i] == t[0];
    var j :| 0 <= j < |t| && t[j] == s[0];
  }

  /** A strictly sorted sequence is the only sorted arrangement of its elements. */
  lemma {:induction false} SortedIsUnique<T>(before: (T, T) -> bool, s: seq<T>, t: seq<T>)
    requires StrictlySorted(before, s) && Sorted(before, t)
    requires multiset(s) == multiset(t)
    ensures s == t
  {
    assert |s| == |multiset(s)| == |multiset(t)| == |t|;
    if s != [] {
      SameHead(before, s, t);
      assert s == [s[0]] + s[1..] && t == [t[0]] + t[1..];
      assert multiset(s[1..]) == multiset(s) - multiset{s[0]};
      assert multiset(t[1..]) == multiset(t) - multiset{t[0]};
      SortedIsUnique(before, s[1..], t[1..]);
    }
  }

  /** Sorting undoes any reordering of a strictly sorted sequence. */
  lemma {:induction false} SortRestores<T(!new)>(before: (T, T) -> bool, s: seq<T>, shuffled: seq<T>)
    requires StrictWeak(before) && StrictlySorted(before, s)
    requires multiset(s) == multiset(shuffled)
    ensures Sort(before, shuffled) == s
  {
    SortSorts(before, shuffled);
    SortedIsUnique(before, s, Sort(before, shuffled));
  }

  /** Any two distinct elements are ordered one way or the other. */
  ghost predicate Separates<T>(before: (T, T) -> bool, s: seq<T>) {
    forall i, j :: 0 <= i < j < |s| ==> before(s[i], s[j]) || before(s[j], s[i])
  }

  lemma {:induction false} InsertSeparated<T>(before: (T, T) -> bool, x: T, s: seq<T>)
    requires forall i :: 0 <= i < |s| ==> before(x, s[i]) || before(s[i], x)
    requires Separates(before, s)
    ensures Separates(before, Insert(before, x, s))
  {
    if s != [] && before(s[0], x) {
      InsertSeparated(before, x, s[1..]);
      var r, t := Insert(before, x, s), Insert(before, x, s[1..]);
      forall j | 0 < j < |r|
        ensures before(r[0], r[j]) || before(r[j], r[0])
      {
        assert r[j] == t[j - 1] && r[j] in multiset(t);
        if r[j] != x { assert r[j] in s[1..]; }
      }
    }
  }

  /** When the key tells all elements apart, the result is strictly sorted. */
  lemma {:induction false} SortSeparated<T(!new)>(before: (T, T) -> bool, s: seq<T>)
    requires StrictWeak(before) && Separates(before, s)
    ensures StrictlySorted(before, Sort(before, s))
  {
    SeparatedAfterSort(before, s);
    SortSorts(before, s);
  }

  lemma {:induction false} SeparatedAfterSort<T>(before: (T, T) -> bool, s: seq<T>)
    requires Separates(before, s)
    ensures Separates(before, Sort(before, s))
  {
    if s != [] {
      SeparatedAfterSort(before, s[1..]);
      var t := Sort(before, s[1..]);
      forall i | 0 <= i < |t|
        ensures before(s[0], t[i]) || before(t[i], s[0])
      {
        assert t[i] in multiset(t);
        assert t[i] in s[1..];
      }
      InsertSeparated(before, s[0], t);
    }
  }

  /** Sorting by a key that tells all elements apart gives the same list for every order of
      the input. */
  lemma {:induction false} SortIgnoresOrder<T(!new)>(before: (T, T) -> bool, s: seq<T>, shuffled: seq<T>)
    requires StrictWeak(before) && Separates(before, s)
    requires multiset(s) == multiset(shuffled)
    ensures Sort(before, shuffled) == Sort(before, s)
  {
    SortSeparated(before, s);
    SortRestores(before, Sort(before, s), shuffled);
  }

  lemma {:induction false} AtMostOnce<T>(s: seq<T>, x: T)
    requires NoDuplicates(s)
    ensures multiset(s)[x] <= 1
  {
    if s != [] {
      assert s == [s[0]] + s[1..];
      AtMostOnce(s[1..], x);
      assert s[0] !in s[1..];
    }
  }

  lemma {:induction false} NoDuplicatesPermuted<T>(s: seq<T>, u: seq<T>)
    requires NoDuplicates(s) && multiset(s) == multiset(u)
    ensures NoDuplicates(u)
  {
    forall i, j | 0 <= i < j < |u|
      ensures u[i] != u[j]
    {
      AtMostOnce(s, u[i]);
      assert u == u[..j] + u[j..];
      assert u[i] in u[..j];
      assert multiset(u)[u[i]] == multiset(u[..j])[u[i]] + multiset(u[j..])[u[i]];
      assert u[j] in u[j..];
    }
  }

  lemma {:induction false} SameMembers<T(!new)>(s: seq<T>, u: seq<T>)
    requires NoDuplicates(s) && NoDuplicates(u)
    requires forall x :: x in s <==> x in u
    ensures multiset(s) == multiset(u)
  {
    forall x
      ensures multiset(s)[x] == multiset(u)[x]
    {
      AtMostOnce(s, x);
      AtMostOnce(u, x);
      assert x in multiset(s) <==> x in s;
      assert x in multiset(u) <==> x in u;
    }
  }
}
