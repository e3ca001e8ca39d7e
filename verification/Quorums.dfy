/** Quorum sizes (`byzantine_quorum`) and how two quorums overlap. */
module Quorums {

  function ByzantineQuorum(n: nat): nat { n * 2 / 3 + 1 }

  /** The largest number of Byzantine validators tolerated among `n`. */
  function MaxFaulty(n: nat): nat
    requires n > 0
  {
    (n + 2) / 3 - 1
  }

  /** The validator ids `0 .. n - 1`. */
  function Ids(n: nat): (ids: set<nat>)
    ensures |ids| == n
    ensures forall i: nat :: i in ids <==> i < n
  {
    if n == 0 then {} else Ids(n - 1) + {n - 1}
  }

  lemma SubsetCardinality<T>(a: set<T>, b: set<T>)
    requires a <= b
    ensures |a| <= |b|
  {
    assert b == a + (b - a);
  }

  /** The tolerated number is the one `3 * f < n` allows, and no more. */
  lemma MaxFaultyIsTight(n: nat)
    requires n > 0
    ensures 3 * MaxFaulty(n) < n <= 3 * (MaxFaulty(n) + 1)
  {
  }

  /** Two vote sets that together outnumber the validators and the faulty ones share an honest voter. */
  lemma SharedHonest(n: nat, faulty: set<nat>, a: set<nat>, b: set<nat>) returns (v: nat)
    requires a <= Ids(n) && b <= Ids(n)
    requires |a| + |b| > n + |faulty|
    ensures v in a && v in b && v !in faulty
  {
    SubsetCardinality(a + b, Ids(n));
    assert |a + b| + |a * b| == |a| + |b|;
    if a * b <= faulty {
      SubsetCardinality(a * b, faulty);
      assert false;
    }
    v :| v in a * b && v !in faulty;
  }

  /** Two quorums share an honest validator when fewer than a third are Byzantine. */
  lemma QuorumsShareHonest(n: nat, faulty: set<nat>, a: set<nat>, b: set<nat>) returns (v: nat)
    requires 3 * |faulty| < n
    requires a <= Ids(n) && b <= Ids(n)
    requires |a| >= ByzantineQuorum(n) && |b| >= ByzantineQuorum(n)
    ensures v in a && v in b && v !in faulty
  {
    v := SharedHonest(n, faulty, a, b);
  }

  /** A quorum is the least number above two thirds, and all validators but the tolerated number of Byzantine ones. */
  lemma QuorumIsTight(n: nat)
    requires n > 0
    ensures 3 * (ByzantineQuorum(n) - 1) <= 2 * n < 3 * ByzantineQuorum(n)
    ensures ByzantineQuorum(n) == n - MaxFaulty(n)
  {
  }

  /** The validators that are not Byzantine are a quorum exactly if no more than the tolerated number are. */
  lemma HonestAreQuorum(n: nat, faulty: set<nat>)
    requires n > 0 && faulty <= Ids(n)
    ensures |Ids(n) - faulty| >= ByzantineQuorum(n) <==> |faulty| <= MaxFaulty(n)
    ensures |faulty| <= MaxFaulty(n) <==> 3 * |faulty| < n
  {
    QuorumIsTight(n);
    assert Ids(n) == (Ids(n) - faulty) + faulty;
  }
}
