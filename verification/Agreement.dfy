/**
 Safety of the protocol as a property of the wire alone: what honest validators may have written,
 and why then no two blocks of an epoch both gather +2/3 precommits.
 */
module Agreement {
  import opened Messages
  import opened Options
  import opened Quorums
  import opened Protocol

  /**
   A node may be in epoch `e` with last block `tip`: either this is the first epoch, or a block of the
   preceding epoch has +2/3 precommits and leaves `tip` as the last block.
   */
  ghost predicate EpochEvidence(n: nat, w: Wire, e: nat, tip: Block) {
    || (e == 1 && tip == Genesis)
    || exists b, r :: Opens(n, w, e, tip, b, r)
  }

  /** Committing `b` on the precommits of round `r` opens epoch `e`. */
  ghost predicate Opens(n: nat, w: Wire, e: nat, tip: Block, b: Block, r: nat) {
    e > 1 && b.Block? && b.epoch == Some(e - 1) && PrecommitQuorum(n, w, e - 1, r, b) && TipAfter(b) == tip
  }

  /** No two different prevotes, and no two different precommits, for one round. */
  ghost predicate NoEquivocation(i: nat, w: Wire) {
    && (forall e, m, m' ::
          m in w && m' in w && IsPrevote(m, i, e) && IsPrevote(m', i, e) && m.prevote.round == m'.prevote.round
          ==> m == m')
    && (forall e, m, m' ::
          m in w && m' in w && IsPrecommit(m, i, e) && IsPrecommit(m', i, e) && m.precommit.round == m'.precommit.round
          ==> m == m')
  }

  /**
   Every precommit is for a propose of its epoch with +2/3 prevotes and without transactions of an earlier block, and
   names that propose's block.
   */
  ghost predicate PrecommitsBacked(n: nat, i: nat, w: Wire) {
    forall e, m :: m in w && IsPrecommit(m, i, e) ==>
      && PrevoteQuorum(n, w, e, m.precommit.round, m.precommit.propose)
      && m.precommit.propose.epoch == e
      && m.precommit.block == BlockOf(m.precommit.propose)
      && EpochEvidence(n, w, e, m.precommit.propose.prev)
      && Fresh(m.precommit.propose.prev, m.precommit.propose.txs)
  }

  /** +2/3 prevotes for `p` in some round of `(r, r']`. */
  ghost predicate NewerQuorum(n: nat, w: Wire, e: nat, r: nat, r': nat, p: Propose) {
    exists q :: r < q <= r' && PrevoteQuorum(n, w, e, q, p)
  }

  /**
   Lock justification: a prevote for a round after a precommitted one is for the precommitted propose,
   or was sent when its own propose already had +2/3 prevotes in a round after the precommitted one.
   */
  ghost predicate LocksJustified(n: nat, i: nat, w: Wire) {
    forall e, m, k :: m in w && 0 <= k < |w| && IsPrecommit(m, i, e) && IsPrevote(w[k], i, e)
      && w[k].prevote.round > m.precommit.round && w[k].prevote.propose != m.precommit.propose
      ==> NewerQuorum(n, w[..k], e, m.precommit.round, w[k].prevote.round, w[k].prevote.propose)
  }

  /** What an honest validator `i` has written. */
  ghost predicate HonestRecord(n: nat, i: nat, w: Wire) {
    NoEquivocation(i, w) && PrecommitsBacked(n, i, w) && LocksJustified(n, i, w)
  }

  ghost predicate AllHonestRecords(n: nat, faulty: set<nat>, w: Wire) {
    && 3 * |faulty| < n
    && forall i: nat :: i < n && i !in faulty ==> HonestRecord(n, i, w)
  }

  /** In one round only one propose can gather +2/3 prevotes. */
  lemma OneProposePerRound(n: nat, faulty: set<nat>, w: Wire, e: nat, r: nat, p: Propose, p': Propose)
    requires AllHonestRecords(n, faulty, w)
    requires PrevoteQuorum(n, w, e, r, p) && PrevoteQuorum(n, w, e, r, p')
    ensures p == p'
  {
    var v := QuorumsShareHonest(n, faulty, Prevoters(n, w, e, r, p), Prevoters(n, w, e, r, p'));
    assert HonestRecord(n, v, w);
  }

  /** A quorum holds an honest precommit for the block. */
  lemma HonestPrecommit(n: nat, faulty: set<nat>, w: Wire, e: nat, r: nat, b: Block) returns (m: Message)
    requires AllHonestRecords(n, faulty, w)
    requires PrecommitQuorum(n, w, e, r, b)
    ensures m in w && m.PrecommitMsg? && m.precommit.epoch == e && m.precommit.round == r && m.precommit.block == b
    ensures m.precommit.validator < n && m.precommit.validator !in faulty
    ensures PrevoteQuorum(n, w, e, r, m.precommit.propose) && b == BlockOf(m.precommit.propose)
    ensures m.precommit.propose.epoch == e && EpochEvidence(n, w, e, m.precommit.propose.prev)
    ensures b.Block? && Fresh(b.prev, b.txs)
  {
    var q := Precommitters(n, w, e, r, b);
    var v := QuorumsShareHonest(n, faulty, q, q);
    assert HonestRecord(n, v, w);
    m :| m in w && IsPrecommit(m, v, e) && m.precommit.round == r && m.precommit.block == b;
  }

  /** All honest precommits for a block of one round name the same propose. */
  lemma SamePropose(n: nat, faulty: set<nat>, w: Wire, e: nat, r: nat, p: Propose, m: Message)
    requires AllHonestRecords(n, faulty, w)
    requires PrevoteQuorum(n, w, e, r, p)
    requires m in w && m.PrecommitMsg? && m.precommit.epoch == e && m.precommit.round == r
    requires m.precommit.validator < n && m.precommit.validator !in faulty
    ensures m.precommit.propose == p
  {
    var v := m.precommit.validator;
    assert HonestRecord(n, v, w) && IsPrecommit(m, v, e);
    OneProposePerRound(n, faulty, w, e, r, p, m.precommit.propose);
  }

  /**
   Once a block has +2/3 precommits for propose `p` in round `r`, no other propose gathers +2/3 prevotes
   in a later round. By induction on the wire: the first other prevote of an honest precommitter would
   need such a quorum before it.
   */
  lemma {:induction false} NoRivalQuorum(
    n: nat, faulty: set<nat>, w: Wire, e: nat, r: nat, b: Block, p: Propose, k: nat, q: nat, p': Propose)
    requires AllHonestRecords(n, faulty, w)
    requires PrecommitQuorum(n, w, e, r, b) && PrevoteQuorum(n, w, e, r, p)
    requires k <= |w| && r < q && p' != p
    ensures !PrevoteQuorum(n, w[..k], e, q, p')
    decreases k
  {
    if PrevoteQuorum(n, w[..k], e, q, p') {
      var v := QuorumsShareHonest(n, faulty, Precommitters(n, w, e, r, b), Prevoters(n, w[..k], e, q, p'));
      assert HonestRecord(n, v, w);
      var m :| m in w && IsPrecommit(m, v, e) && m.precommit.round == r && m.precommit.block == b;
      SamePropose(n, faulty, w, e, r, p, m);
      var m' :| m' in w[..k] && IsPrevote(m', v, e) && m'.prevote.round == q && m'.prevote.propose == p';
      var j :| 0 <= j < k && w[..k][j] == m';
      assert w[j] == m';
      assert NewerQuorum(n, w[..j], e, r, q, p');
      var q' :| r < q' <= q && PrevoteQuorum(n, w[..j], e, q', p');
      NoRivalQuorum(n, faulty, w, e, r, b, p, j, q', p');
    }
  }

  /** Agreement: no two different blocks of one epoch both have +2/3 precommits, in whatever rounds. */
  lemma Agreement(n: nat, faulty: set<nat>, w: Wire, e: nat, r1: nat, b1: Block, r2: nat, b2: Block)
    requires AllHonestRecords(n, faulty, w)
    requires PrecommitQuorum(n, w, e, r1, b1) && PrecommitQuorum(n, w, e, r2, b2)
    ensures b1 == b2
  {
    var m1 := HonestPrecommit(n, faulty, w, e, r1, b1);
    var m2 := HonestPrecommit(n, faulty, w, e, r2, b2);
    var p1, p2 := m1.precommit.propose, m2.precommit.propose;
    assert w[..|w|] == w;
    if p1 != p2 {
      if r1 == r2 {
        OneProposePerRound(n, faulty, w, e, r1, p1, p2);
      } else if r1 < r2 {
        NoRivalQuorum(n, faulty, w, e, r1, b1, p1, |w|, r2, p2);
      } else {
        NoRivalQuorum(n, faulty, w, e, r2, b2, p2, |w|, r1, p1);
      }
    }
  }

  /** The last block never forks: that of a later epoch descends from that of an earlier one. */
  lemma {:induction false} TipsDescend(
    n: nat, faulty: set<nat>, w: Wire, e1: nat, tip1: Block, e2: nat, tip2: Block)
    requires AllHonestRecords(n, faulty, w)
    requires EpochEvidence(n, w, e1, tip1) && EpochEvidence(n, w, e2, tip2)
    requires e1 <= e2
    ensures Path(tip1) <= Path(tip2)
    ensures e1 == e2 ==> tip1 == tip2
    decreases e2
  {
    if e2 > 1 {
      var b2, r2 :| Opens(n, w, e2, tip2, b2, r2);
      if e1 == e2 {
        var b1, r1 :| Opens(n, w, e1, tip1, b1, r1);
        Agreement(n, faulty, w, e1 - 1, r1, b1, r2, b2);
      } else {
        var m := HonestPrecommit(n, faulty, w, e2 - 1, r2, b2);
        TipsDescend(n, faulty, w, e1, tip1, e2 - 1, m.precommit.propose.prev);
        assert Path(b2) == Path(b2.prev) + [b2];
      }
    }
  }
}
