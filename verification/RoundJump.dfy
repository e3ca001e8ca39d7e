/** Jumping to a round that a non-Byzantine validator has reached. */
module RoundJump {
  import opened Quorums
  import opened Sorting

  /** The validators known to be in round `r` or later. */
  ghost function Reached(rounds: map<nat, nat>, r: int): set<nat> {
    set v | v in rounds && rounds[v] >= r
  }

  /** A validator has reached the round in which it is, and no later one. */
  lemma ReachedExactly(rounds: map<nat, nat>, v: nat, r: int)
    requires v in rounds
    ensures v in Reached(rounds, r) <==> r <= rounds[v]
    ensures v in Reached(rounds, rounds[v]) && v !in Reached(rounds, rounds[v] + 1)
  {
  }

  /** The keys are the known rounds, negated: sorting them ascendingly sorts the rounds descendingly. */
  ghost predicate Represents(keys: seq<int>, rounds: map<nat, nat>) {
    && |keys| == |rounds|
    && (forall k :: k in keys ==> k <= 0)
    && (forall r: int :: CountAtMost(keys, -r) == |Reached(rounds, r)|)
  }

  lemma RepresentsOneMore(keys: seq<int>, rounds: map<nat, nat>, v: nat, r: nat)
    requires Represents(keys, rounds) && v !in rounds
    ensures Represents(keys + [0 - r], rounds[v := r])
  {
    hide Reached;
    var keys', rounds' := keys + [0 - r], rounds[v := r];
    forall q: int ensures CountAtMost(keys', -q) == |Reached(rounds', q)| {
      assert keys'[..|keys|] == keys;
      ReachedOneMore(rounds, v, r, q);
    }
  }

  lemma ReachedOneMore(rounds: map<nat, nat>, v: nat, r: nat, q: int)
    requires v !in rounds
    ensures |Reached(rounds[v := r], q)| == |Reached(rounds, q)| + if r >= q then 1 else 0
  {
    assert Reached(rounds[v := r], q) == Reached(rounds, q) + if r >= q then {v} else {};
  }

  method ReversedRounds(rounds: map<nat, nat>) returns (keys: seq<int>)
    ensures Represents(keys, rounds)
  {
    hide Represents;
    keys := [];
    var rest := rounds.Keys;
    ghost var done: map<nat, nat> := map[];
    NothingRepresented();
    while rest != {}
      invariant rest <= rounds.Keys && done.Keys == rounds.Keys - rest
      invariant forall v :: v in done ==> done[v] == rounds[v]
      invariant Represents(keys, done)
      decreases rest
    {
      var v :| v in rest;
      var r: int := rounds[v];
      RepresentsOneMore(keys, done, v, r);
      keys := keys + [-r];
      done := done[v := r];
      rest := rest - {v};
    }
    assert done == rounds;
  }

  lemma NothingRepresented()
    ensures Represents([], map[])
  {
    forall r: int ensures |Reached(map[], r)| == 0 {
      assert Reached(map[], r) == {};
    }
  }

  /**
   The highest round that more than `f` validators have reached: so many are there, and for no later round are there so
   many.
   */
  method HighestReached(rounds: map<nat, nat>, f: nat) returns (r: nat)
    requires f < |rounds|
    ensures |Reached(rounds, r)| > f
    ensures forall q :: q > r ==> |Reached(rounds, q)| <= f
  {
    var keys := ReversedRounds(rounds);
    var sorted := Sort(keys);
    assert |sorted| == |keys| by {
      assert |multiset(sorted)| == |multiset(keys)|;
    }
    assert sorted[f] in multiset(sorted) && sorted[f] in keys;
    r := -sorted[f];
    assert |Reached(rounds, r)| > f by {
      CountWhenAscending(sorted, f, sorted[f]);
      CountOfPermutation(keys, sorted, sorted[f]);
      assert CountAtMost(keys, sorted[f]) == |Reached(rounds, r)|;
    }
    forall q: int | q > r ensures |Reached(rounds, q)| <= f {
      CountWhenAscending(sorted, f, -q);
      CountOfPermutation(keys, sorted, -q);
      assert CountAtMost(keys, -q) == |Reached(rounds, q)|;
    }
  }

  /** Among more validators than can be faulty, one is honest. */
  lemma SomeHonestReached(n: nat, faulty: set<nat>, rounds: map<nat, nat>, r: nat) returns (v: nat)
    requires n > 0 && 3 * |faulty| < n
    requires |Reached(rounds, r)| > MaxFaulty(n)
    ensures v in rounds && rounds[v] >= r && v !in faulty
  {
    if Reached(rounds, r) <= faulty {
      SubsetCardinality(Reached(rounds, r), faulty);
      assert false;
    }
    v :| v in Reached(rounds, r) && v !in faulty;
  }
}
