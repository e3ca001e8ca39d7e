/** Sorting and order statistics, for round jumps and for the median block time. */
module Sorting {

  ghost predicate Ascending(s: seq<int>) {
    forall i, j :: 0 <= i < j < |s| ==> s[i] <= s[j]
  }

  /** How many elements are at most `x`. */
  ghost function CountAtMost(s: seq<int>, x: int): nat {
    if s == [] then 0 else CountAtMost(s[..|s| - 1], x) + if s[|s| - 1] <= x then 1 else 0
  }

  lemma {:induction false} CountConcat(a: seq<int>, b: seq<int>, x: int)
    ensures CountAtMost(a + b, x) == CountAtMost(a, x) + CountAtMost(b, x)
    decreases |b|
  {
    if b == [] {
      assert a + b == a;
    } else {
      assert (a + b)[..|a + b| - 1] == a + b[..|b| - 1];
      CountConcat(a, b[..|b| - 1], x);
    }
  }

  lemma {:induction false} CountOfPermutation(a: seq<int>, b: seq<int>, x: int)
    requires multiset(a) == multiset(b)
    ensures CountAtMost(a, x) == CountAtMost(b, x)
    decreases |b|
  {
    if b == [] {
      assert a == [];
    } else {
      var y := b[|b| - 1];
      assert b == b[..|b| - 1] + [y];
      assert y in multiset(a);
      var i :| 0 <= i < |a| && a[i] == y;
      var rest := a[..i] + a[i + 1..];
      assert a == a[..i] + ([y] + a[i + 1..]);
      assert multiset(rest) == multiset(a) - multiset{y};
      assert multiset(b[..|b| - 1]) == multiset(b) - multiset{y};
      CountOfPermutation(rest, b[..|b| - 1], x);
      CountConcat(a[..i], [y] + a[i + 1..], x);
      CountConcat([y], a[i + 1..], x);
      CountConcat(a[..i], a[i + 1..], x);
      assert CountAtMost([y], x) == if y <= x then 1 else 0;
    }
  }

  /**
   In an ascending sequence, `i + 1` elements or more are at most the one at `i`, and no more than `i` are smaller.
   */
  lemma {:induction false} CountWhenAscending(s: seq<int>, i: nat, x: int)
    requires Ascending(s) && i < |s|
    ensures x >= s[i] ==> CountAtMost(s, x) >= i + 1
    ensures x < s[i] ==> CountAtMost(s, x) <= i
    decreases |s|
  {
    var init := s[..|s| - 1];
    if i < |init| {
      CountWhenAscending(init, i, x);
      assert init[i] == s[i];
    } else {
      CountAllOrLess(init, x);
    }
  }

  lemma {:induction false} CountAllOrLess(s: seq<int>, x: int)
    ensures CountAtMost(s, x) <= |s|
    ensures (forall i :: 0 <= i < |s| ==> s[i] <= x) ==> CountAtMost(s, x) == |s|
    decreases |s|
  {
    if s != [] {
      CountAllOrLess(s[..|s| - 1], x);
    }
  }

  ghost predicate AscendingBy<T>(s: seq<T>, key: T -> int) {
    forall i, j :: 0 <= i < j < |s| ==> key(s[i]) <= key(s[j])
  }

  method InsertBy<T>(s: seq<T>, x: T, key: T -> int) returns (t: seq<T>)
    requires AscendingBy(s, key)
    ensures AscendingBy(t, key) && multiset(t) == multiset(s) + multiset{x}
  {
    var i := 0;
    while i < |s| && key(s[i]) <= key(x)
      invariant 0 <= i <= |s|
      invariant forall j :: 0 <= j < i ==> key(s[j]) <= key(x)
    {
      i := i + 1;
    }
    t := s[..i] + [x] + s[i..];
    assert s == s[..i] + s[i..];
  }

  method SortBy<T>(s: seq<T>, key: T -> int) returns (t: seq<T>)
    ensures AscendingBy(t, key) && multiset(t) == multiset(s)
  {
    t := [];
    var i := 0;
    while i < |s|
      invariant 0 <= i <= |s|
      invariant AscendingBy(t, key) && multiset(t) == multiset(s[..i])
    {
      t := InsertBy(t, s[i], key);
      assert s[..i + 1] == s[..i] + [s[i]];
      i := i + 1;
    }
    assert s[..i] == s;
  }

  method Sort(s: seq<int>) returns (t: seq<int>)
    ensures Ascending(t) && multiset(t) == multiset(s)
  {
    t := SortBy(s, x => x);
  }
}
