/** What the safety theorems say of a node: of its chain, of the blocks it receives and of the rounds it jumps to. */
module NodeSafety {
  import opened Messages
  import opened Quorums
  import opened Protocol
  import opened Network
  import opened Safety
  import opened RoundJump
  import opened VoteCounting
  import opened NodeState
  import A = Agreement

  /** The node is the validator or auditor `k` of a network. */
  ghost predicate TakesPart(c: Config, s: State, net: Net, k: nat) {
    c.n == net.n && k in net.nodes && net.nodes[k] == s.View(c) && net.wire == s.wire
  }

  /**
   Whatever a handler call does to a node, its chain stays consistent with the chain of every honest node at every time
   of the run.
   */
  lemma HandlersKeepChainsConsistent(c: Config, s: State, s': State, run: seq<Net>, k: nat, t: nat, j: nat)
    requires Run(run) && TakesPart(c, s, run[|run| - 1], k) && Gets(c, s, s')
    requires t < |run| && j in run[t].nodes
    ensures s'.chain <= run[t].nodes[j].chain || run[t].nodes[j].chain <= s'.chain
    ensures s.chain <= s'.chain
  {
    hide Run, Performs;
    var acts :| Performs(c.n, s.View(c), s.wire, acts, s'.View(c), s'.wire);
    var run' := HandlerIsRun(run, k, acts, s'.View(c), s'.wire);
    ChainConsistency(run', t, j, |run'| - 1, k);
    RunAdvances(run', |run| - 1, |run'| - 1, k);
  }

  /**
   In a run no block to be committed belongs to an earlier epoch, and every accepted block executes to itself: the
   assertion on a received block holds. That on a precommit may fail, see `Findings.BlockHashAssertion`.
   */
  lemma AcceptedBlocksExecute(c: Config, s: State, run: seq<Net>, t: nat, k: nat)
    requires Run(run) && t < |run| && TakesPart(c, s, run[t], k)
    ensures !BackInTime(c, s)
    ensures |s.chain| > 0 && forall b, txs :: BlockAccepted(c.n, s.epoch, s.chain, b, txs, s.wire) ==>
      b == CreateBlock(Last(s.chain), b.proposer.value, b.epoch.value, b.txs, b.skip)
  {
    var net := run[t];
    RunKeepsNetInv(run, t);
    NetInvGivesRecords(net);
    assert LocalInv(net.n, net.nodes[k], net.wire);
    forall b, r | MayCommit(c.n, s.View(c), s.wire, b, r) ensures b.epoch.value >= s.epoch {
      CommitRaisesEpoch(net.n, net.faulty, net.nodes[k], net.wire, b, r);
    }
    forall b, txs | BlockAccepted(c.n, s.epoch, s.chain, b, txs, s.wire)
      ensures b == CreateBlock(Last(s.chain), b.proposer.value, b.epoch.value, b.txs, b.skip)
    {
      var r :| PrecommitQuorum(c.n, s.wire, b.epoch.value, r, b);
      var m := A.HonestPrecommit(net.n, net.faulty, net.wire, b.epoch.value, r, b);
    }
  }

  /** In a run an accepted block has no committed transaction, so that the panic on one does not happen. */
  lemma AcceptedBlocksAreFresh(c: Config, s: State, run: seq<Net>, t: nat, k: nat, b: Block, txs: seq<Tx>)
    requires Run(run) && t < |run| && TakesPart(c, s, run[t], k) && Ok(c, s)
    requires BlockAccepted(c.n, s.epoch, s.chain, b, txs, s.wire)
    ensures forall x :: x in txs ==> x !in s.committed && !RefusedTx(s, x)
  {
    var net := run[t];
    RunKeepsNetInv(run, t);
    NetInvGivesRecords(net);
    var r :| PrecommitQuorum(c.n, s.wire, b.epoch.value, r, b);
    var m := A.HonestPrecommit(net.n, net.faulty, net.wire, b.epoch.value, r, b);
    ChainIsPath(s.chain);
  }

  /** A precommit that names a propose of another block is not from an honest validator. */
  lemma WrongBlockIsFaulty(c: Config, s: State, run: seq<Net>, t: nat, k: nat, m: Message)
    requires Run(run) && t < |run| && TakesPart(c, s, run[t], k)
    requires m in s.wire && m.PrecommitMsg? && m.precommit.block != BlockOf(m.precommit.propose)
    ensures !HonestValidator(run[t], m.Validator())
  {
    var net := run[t];
    RunKeepsNetInv(run, t);
    NetInvGivesRecords(net);
    assert IsPrecommit(m, m.Validator(), m.Epoch());
  }

  /** A round that more than `MaxFaulty` validators announced has been announced by an honest one. */
  lemma JumpFollowsHonest(c: Config, s: State, faulty: set<nat>, r: nat) returns (m: Message)
    requires Ok(c, s) && 3 * |faulty| < c.n
    requires r > 0 && |Reached(s.rounds, r)| > MaxFaulty(c.n)
    ensures m in s.wire && m.Validator() < c.n && m.Validator() !in faulty
    ensures m.Round() >= r && s.epoch <= m.Epoch() <= s.epoch + 1
  {
    var v := SomeHonestReached(c.n, faulty, s.rounds, r);
    assert Announced(s.epoch, v, s.rounds[v], s.wire);
    m :| m in s.wire && m.Validator() == v && m.Round() == s.rounds[v] && s.epoch <= m.Epoch() <= s.epoch + 1;
  }

  // ---- Why a node panics

  /** The transaction passed the check on some block of the chain, but fails on the last one. */
  ghost predicate CheckChanged(c: Config, s: State, t: Tx) {
    |s.chain| > 0 && Passed(c.check, s.chain, t) && !c.check(Last(s.chain), t)
  }

  lemma HonestPrevoter(run: seq<Net>, t: nat, e: nat, r: nat, p: Propose) returns (v: nat)
    requires Run(run) && t < |run| && PrevoteQuorum(run[t].n, run[t].wire, e, r, p)
    ensures HonestValidator(run[t], v) && PrevoteOnWire(run[t].wire, v, e, r, p)
  {
    var net := run[t];
    RunKeepsNetInv(run, t);
    var voters := Prevoters(net.n, net.wire, e, r, p);
    if voters <= net.faulty {
      SubsetCardinality(voters, net.faulty);
      assert false;
    }
    v :| v in voters && v !in net.faulty;
  }

  /** In a run, the transactions of a propose with +2/3 prevotes have passed the check on a block below it. */
  lemma PrevotedTxsPassed(run: seq<Net>, t: nat, e: nat, r: nat, p: Propose, x: Tx)
    requires Run(run) && t < |run| && PrevoteQuorum(run[t].n, run[t].wire, e, r, p) && x in p.txs
    ensures Passed(run[t].check, Path(p.prev), x)
  {
    var v := HonestPrevoter(run, t, e, r, p);
    RunKeepsNetInv(run, t);
    assert LocalInv(run[t].n, run[t].nodes[v], run[t].wire);
    var m :| m in run[t].wire && IsPrevote(m, v, e) && m.prevote.round == r && m.prevote.propose == p;
  }

  /** An invalid transaction in a propose of the node with +2/3 prevotes: the check has changed its mind. */
  lemma InvalidTxChanged(c: Config, s: State, run: seq<Net>, t: nat, k: nat, r: nat, p: Propose, x: Tx)
    requires Run(run) && t < |run| && TakesPart(c, s, run[t], k) && Ok(c, s)
    requires PrevoteQuorum(c.n, s.wire, p.epoch, r, p) && p.prev == Last(s.chain) && x in p.txs && x in s.invalid
    ensures CheckChanged(c, s, x)
  {
    PrevotedTxsPassed(run, t, p.epoch, r, p, x);
    RunKeepsNetInv(run, t);
    ChainIsPath(s.chain);
  }

  /** A complete propose that the node holds invalid has an invalid transaction. */
  lemma InvalidHasTx(c: Config, s: State, p: Propose) returns (x: Tx)
    requires Ok(c, s) && p in s.proposes && !s.proposes[p].valid
    ensures x in p.txs && x in s.invalid && p.prev == Last(s.chain) && p.epoch == s.epoch
  {
    assert Tracked(p, s.proposes[p], s.Known(), s.invalid);
    x :| x in p.txs && x in s.invalid;
  }

  lemma InvalidPrevotedChanged(c: Config, s: State, run: seq<Net>, t: nat, k: nat) returns (x: Tx)
    requires Run(run) && t < |run| && TakesPart(c, s, run[t], k) && Ok(c, s) && InvalidPrevoted(c.n, s)
    ensures CheckChanged(c, s, x)
  {
    hide Run, CheckChanged;
    var key :| Majority(c.n, s.prevotes, key) && key.1 in s.proposes && !s.proposes[key.1].valid;
    x := InvalidHasTx(c, s, key.1);
    MajorityIsPrevoteQuorum(c, s, key.0, key.1);
    InvalidTxChanged(c, s, run, t, k, key.0, key.1, x);
  }

  /** A precommit that names a propose which the node cannot commit is Byzantine, or the check has changed its mind. */
  lemma WrongBlockCause(c: Config, s: State, run: seq<Net>, t: nat, k: nat, m: Message) returns (x: Tx)
    requires Run(run) && t < |run| && TakesPart(c, s, run[t], k) && Ok(c, s)
    requires m in s.wire && m.PrecommitMsg? && m.precommit.epoch == s.epoch && m.precommit.propose in s.proposes
    requires !s.proposes[m.precommit.propose].valid || BlockOf(m.precommit.propose) != m.precommit.block
    ensures HonestValidator(run[t], m.Validator()) ==> CheckChanged(c, s, x)
  {
    x := 0;
    if HonestValidator(run[t], m.Validator()) {
      var p := m.precommit.propose;
      HonestPrecommitBacked(run, t, m);
      x := InvalidHasTx(c, s, p);
      InvalidTxChanged(c, s, run, t, k, m.precommit.round, p, x);
    }
  }

  lemma HonestPrecommitBacked(run: seq<Net>, t: nat, m: Message)
    requires Run(run) && t < |run| && m in run[t].wire && m.PrecommitMsg? && HonestValidator(run[t], m.Validator())
    ensures PrevoteQuorum(run[t].n, run[t].wire, m.precommit.epoch, m.precommit.round, m.precommit.propose)
    ensures m.precommit.propose.epoch == m.precommit.epoch && m.precommit.block == BlockOf(m.precommit.propose)
  {
    RunKeepsNetInv(run, t);
    NetInvGivesRecords(run[t]);
    assert IsPrecommit(m, m.Validator(), m.precommit.epoch);
    assert A.HonestRecord(run[t].n, m.Validator(), run[t].wire);
  }

  /** An accepted block with an invalid transaction: the check has changed its mind. */
  lemma AcceptedInvalidChanged(c: Config, s: State, run: seq<Net>, t: nat, k: nat, b: Block, txs: seq<Tx>, x: Tx)
    requires Run(run) && t < |run| && TakesPart(c, s, run[t], k) && Ok(c, s)
    requires BlockAccepted(c.n, s.epoch, s.chain, b, txs, s.wire) && x in txs && x in s.invalid
    ensures CheckChanged(c, s, x)
  {
    var net := run[t];
    RunKeepsNetInv(run, t);
    NetInvGivesRecords(net);
    var r :| PrecommitQuorum(c.n, s.wire, b.epoch.value, r, b);
    var m := A.HonestPrecommit(net.n, net.faulty, net.wire, b.epoch.value, r, b);
    InvalidTxChanged(c, s, run, t, k, r, m.precommit.propose, x);
  }

  /** A Byzantine precommit of the epoch that names a propose which the node cannot commit for the block. */
  ghost predicate ByzantineName(c: Config, s: State, net: Net) {
    exists m :: m in s.wire && m.PrecommitMsg? && !HonestValidator(net, m.Validator()) && m.precommit.epoch == s.epoch
      && m.precommit.propose in s.proposes
      && (!s.proposes[m.precommit.propose].valid || BlockOf(m.precommit.propose) != m.precommit.block)
  }

  /**
   The causes of a panic in a run: a Byzantine precommit that names a wrong propose, a check that changed its mind about
   a transaction, or an invalid transaction while a block is incomplete.
   */
  lemma WhyStuck(c: Config, s: State, run: seq<Net>, t: nat, k: nat)
    requires Run(run) && t < |run| && TakesPart(c, s, run[t], k) && Ok(c, s) && Stuck(c, s)
    ensures
      || ByzantineName(c, s, run[t])
      || (exists x :: CheckChanged(c, s, x))
      || (s.incomplete.Some? && s.invalid != {})
  {
    hide Run, Ok, CheckChanged, BlockAccepted, TakesPart;
    if InvalidPrevoted(c.n, s) {
      var x := InvalidPrevotedChanged(c, s, run, t, k);
    } else if WrongBlock(c.n, s) {
      var r, p, b :| Majority(c.n, s.precommits, (r, b)) && Named(s.epoch, r, p, b, s.wire)
        && p in s.proposes && (!s.proposes[p].valid || BlockOf(p) != b);
      var m :| m in s.wire && PrecommitFor(m, s.epoch, r, b) && m.precommit.propose == p;
      var x := WrongBlockCause(c, s, run, t, k, m);
    } else {
      AcceptedBlocksExecute(c, s, run, t, k);
      if BadBlock(c, s) {
        var b, txs :| BlockAccepted(c.n, s.epoch, s.chain, b, txs, s.wire)
          && (|| (exists x :: x in txs && (RefusedTx(s, x) || (x in s.invalid && x !in s.Known())))
              || CreateBlock(Last(s.chain), b.proposer.value, b.epoch.value, b.txs, b.skip) != b);
        AcceptedBlocksAreFresh(c, s, run, t, k, b, txs);
        var x :| x in txs && (RefusedTx(s, x) || (x in s.invalid && x !in s.Known()));
        AcceptedInvalidChanged(c, s, run, t, k, b, txs, x);
      }
    }
  }

  /** If the check does not depend on the block, no propose with an invalid transaction gathers +2/3 prevotes. */
  lemma NoInvalidPrevoted(c: Config, s: State, run: seq<Net>, t: nat, k: nat)
    requires Run(run) && t < |run| && TakesPart(c, s, run[t], k) && Ok(c, s)
    requires forall b, b', x :: c.check(b, x) == c.check(b', x)
    ensures !InvalidPrevoted(c.n, s)
  {
    if InvalidPrevoted(c.n, s) {
      var x := InvalidPrevotedChanged(c, s, run, t, k);
    }
  }
}
