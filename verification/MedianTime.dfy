/** The time of a block: the median of the times in its precommits. */
module MedianTime {
  import opened Messages
  import opened Quorums
  import opened Sorting
  import opened BlockProofs

  const UNIX_EPOCH := 0

  function Times(precommits: seq<SignedPrecommit>): seq<int> {
    seq(|precommits|, i requires 0 <= i < |precommits| => precommits[i].payload.time)
  }

  /** No more than half of the times are earlier than `t`, and more than half are not later. */
  ghost predicate IsMedian(times: seq<int>, t: int) {
    CountAtMost(times, t - 1) <= |times| / 2 < CountAtMost(times, t)
  }

  method MedianPrecommitsTime(precommits: seq<SignedPrecommit>) returns (t: int)
    ensures if precommits == [] then t == UNIX_EPOCH else IsMedian(Times(precommits), t)
  {
    if precommits == [] {
      return UNIX_EPOCH;
    }
    var times := Times(precommits);
    var sorted := Sort(times);
    assert |sorted| == |times| by {
      assert |multiset(sorted)| == |multiset(times)|;
    }
    var mid := |sorted| / 2;
    t := sorted[mid];
    CountWhenAscending(sorted, mid, t);
    CountWhenAscending(sorted, mid, t - 1);
    CountOfPermutation(times, sorted, t);
    CountOfPermutation(times, sorted, t - 1);
  }

  /** The median of an ascending list is its element at half the length: of two middle ones the later. */
  lemma MedianOfAscending(times: seq<int>, t: int)
    requires Ascending(times) && times != []
    ensures IsMedian(times, t) <==> t == times[|times| / 2]
  {
    var m := times[|times| / 2];
    CountWhenAscending(times, |times| / 2, m);
    CountWhenAscending(times, |times| / 2, m - 1);
    if IsMedian(times, t) {
      MedianIsUnique(times, t, m);
    }
  }

  lemma {:induction false} MedianIsUnique(times: seq<int>, t: int, t': int)
    requires IsMedian(times, t) && IsMedian(times, t')
    ensures t == t'
  {
    if t < t' {
      CountGrows(times, t, t' - 1);
    } else if t' < t {
      CountGrows(times, t', t - 1);
    }
  }

  lemma {:induction false} CountGrows(s: seq<int>, x: int, y: int)
    requires x <= y
    ensures CountAtMost(s, x) <= CountAtMost(s, y)
    decreases |s|
  {
    if s != [] {
      CountGrows(s[..|s| - 1], x, y);
    }
  }

  // ---- Between honest times

  ghost predicate Distinct(precommits: seq<SignedPrecommit>) {
    forall i, j :: 0 <= i < j < |precommits| ==> precommits[i].payload.validator != precommits[j].payload.validator
  }

  ghost function Signers(precommits: seq<SignedPrecommit>): set<nat> {
    set i | 0 <= i < |precommits| :: precommits[i].payload.validator
  }

  ghost function NotLater(precommits: seq<SignedPrecommit>, t: int): set<nat> {
    set i | 0 <= i < |precommits| && precommits[i].payload.time <= t :: precommits[i].payload.validator
  }

  lemma {:induction false} CountIsSigners(precommits: seq<SignedPrecommit>, t: int)
    requires Distinct(precommits)
    ensures CountAtMost(Times(precommits), t) == |NotLater(precommits, t)| && |precommits| == |Signers(precommits)|
    decreases |precommits|
  {
    hide Signers, NotLater, Distinct;
    if precommits == [] {
      NoSigners(t);
    } else {
      var last, init := precommits[|precommits| - 1], precommits[..|precommits| - 1];
      assert init + [last] == precommits;
      OneMoreSigner(init, last, t);
      CountIsSigners(init, t);
      assert Times(precommits)[..|init|] == Times(init);
    }
  }

  lemma NoSigners(t: int)
    ensures Signers([]) == {} && NotLater([], t) == {}
  {
  }

  lemma OneMoreSigner(init: seq<SignedPrecommit>, last: SignedPrecommit, t: int)
    requires Distinct(init + [last])
    ensures Distinct(init) && last.payload.validator !in Signers(init)
    ensures Signers(init + [last]) == Signers(init) + {last.payload.validator}
    ensures NotLater(init + [last], t) ==
      NotLater(init, t) + if last.payload.time <= t then {last.payload.validator} else {}
    ensures NotLater(init, t) <= Signers(init)
  {
    var all := init + [last];
    assert forall i :: 0 <= i < |init| ==> all[i] == init[i];
    forall v | v in Signers(init) ensures v in Signers(all) {
      var i :| 0 <= i < |init| && init[i].payload.validator == v;
      assert all[i] == init[i];
    }
    forall v | v in NotLater(init, t) ensures v in NotLater(all, t) {
      var i :| 0 <= i < |init| && init[i].payload.time <= t && init[i].payload.validator == v;
      assert all[i] == init[i];
    }
    assert all[|init|] == last;
  }

  lemma HonestAmong(signers: set<nat>, faulty: set<nat>) returns (v: nat)
    requires |signers| > |faulty|
    ensures v in signers && v !in faulty
  {
    if signers <= faulty {
      SubsetCardinality(signers, faulty);
      assert false;
    }
    v :| v in signers && v !in faulty;
  }

  /** The median of accepted precommits lies between the times of two honest validators. */
  lemma MedianBetweenHonest(
    n: nat, faulty: set<nat>, precommits: seq<SignedPrecommit>, epoch: nat, block: Block, t: int)
    returns (early: SignedPrecommit, late: SignedPrecommit)
    requires ValidPrecommits(n, precommits, epoch, block) && 3 * |faulty| < n
    requires IsMedian(Times(precommits), t)
    ensures early in precommits && early.author !in faulty && early.payload.time <= t
    ensures late in precommits && late.author !in faulty && t <= late.payload.time
  {
    CountIsSigners(precommits, t);
    CountIsSigners(precommits, t - 1);
    var v := HonestAmong(NotLater(precommits, t), faulty);
    var i :| 0 <= i < |precommits| && precommits[i].payload.time <= t && precommits[i].payload.validator == v;
    early := precommits[i];
    var notEarlier := Signers(precommits) - NotLater(precommits, t - 1);
    assert Signers(precommits) == NotLater(precommits, t - 1) + notEarlier;
    assert |notEarlier| >= |precommits| - |precommits| / 2;
    var u := HonestAmong(notEarlier, faulty);
    var j :| 0 <= j < |precommits| && precommits[j].payload.validator == u;
    late := precommits[j];
  }
}
