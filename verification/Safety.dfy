/** The safety theorems of consensus, over whole runs of the network. */
module Safety {
  import opened Messages
  import opened Quorums
  import opened Protocol
  import A = Agreement
  import opened Network

  ghost predicate HonestValidator(net: Net, i: nat) { i < net.n && i !in net.faulty }

  /** In no run do two different blocks of one epoch both gather +2/3 precommits. */
  lemma AgreementInEveryRun(run: seq<Net>, t: nat, e: nat, r1: nat, b1: Block, r2: nat, b2: Block)
    requires Run(run) && t < |run|
    requires PrecommitQuorum(run[t].n, run[t].wire, e, r1, b1)
    requires PrecommitQuorum(run[t].n, run[t].wire, e, r2, b2)
    ensures b1 == b2
  {
    RunKeepsNetInv(run, t);
    NetInvGivesRecords(run[t]);
    A.Agreement(run[t].n, run[t].faulty, run[t].wire, e, r1, b1, r2, b2);
  }

  /** At any time the chains of two honest nodes are prefixes of one another, and equal in equal epochs. */
  lemma ChainsAgree(run: seq<Net>, t: nat, j: nat, k: nat)
    requires Run(run) && t < |run|
    requires j in run[t].nodes && k in run[t].nodes
    requires run[t].nodes[j].epoch <= run[t].nodes[k].epoch
    ensures run[t].nodes[j].chain <= run[t].nodes[k].chain
    ensures run[t].nodes[j].epoch == run[t].nodes[k].epoch ==> run[t].nodes[j].chain == run[t].nodes[k].chain
  {
    RunKeepsNetInv(run, t);
    NetInvGivesRecords(run[t]);
    var a, b := run[t].nodes[j], run[t].nodes[k];
    A.TipsDescend(run[t].n, run[t].faulty, run[t].wire, a.epoch, Last(a.chain), b.epoch, Last(b.chain));
    ChainIsPath(a.chain);
    ChainIsPath(b.chain);
  }

  /** The node takes back no block, no epoch and, within an epoch, no round or lock. */
  ghost predicate Forward(l: Local, l': Local) {
    && l.chain <= l'.chain
    && l.epoch <= l'.epoch
    && (l.chain != l'.chain ==> l.epoch < l'.epoch)
    && (l.epoch == l'.epoch ==>
          && l.round <= l'.round
          && l.lockedRound <= l'.lockedRound
          && (l.lockedPropose == l'.lockedPropose || l.lockedRound < l'.lockedRound))
  }

  /** The same between two observations of the network. */
  ghost predicate Advances(net: Net, net': Net, k: nat)
    requires k in net.nodes
  {
    k in net'.nodes && net.wire <= net'.wire && Forward(net.nodes[k], net'.nodes[k])
  }

  lemma ActionAdvances(n: nat, faulty: set<nat>, l: Local, w: Wire, a: Action)
    requires A.AllHonestRecords(n, faulty, w) && LocalInv(n, l, w) && Enabled(n, l, w, a)
    ensures Forward(l, Apply(n, l, w, a))
  {
    hide LocalInv, A.AllHonestRecords, MayPrevote, MayPrecommit, PrevoteQuorum;
    if a.Commit? {
      CommitKeepsLocal(n, faulty, l, w, a.block, a.round);
    }
  }

  lemma StepAdvances(run: seq<Net>, t: nat, k: nat)
    requires Run(run) && t + 1 < |run| && k in run[t].nodes
    ensures Advances(run[t], run[t + 1], k)
  {
    hide LocalInv, A.AllHonestRecords, Enabled, Apply, Emit, WellFormed;
    var net, net' := run[t], run[t + 1];
    RunKeepsNetInv(run, t);
    NetInvGivesRecords(net);
    assert StepAt(run, t);
    if j, a :| HonestStep(net, net', j, a) {
      ActionAdvances(net.n, net.faulty, net.nodes[j], net.wire, a);
    }
  }

  /**
   Over any run a node's chain only grows, its epoch rises with every block, and within an epoch its round
   and its locked round never fall.
   */
  lemma {:induction false} RunAdvances(run: seq<Net>, s: nat, t: nat, k: nat)
    requires Run(run) && s <= t < |run| && k in run[s].nodes
    ensures Advances(run[s], run[t], k)
    decreases t - s
  {
    if s < t {
      RunAdvances(run, s, t - 1, k);
      StepAdvances(run, t - 1, k);
      AdvancesTwice(run[s], run[t - 1], run[t], k);
    }
  }

  lemma AdvancesTwice(a: Net, b: Net, c: Net, k: nat)
    requires k in a.nodes && Advances(a, b, k) && Advances(b, c, k)
    ensures Advances(a, c, k)
  {
  }

  /** The chains of two honest nodes never diverge, even when observed at different times of a run. */
  lemma ChainConsistency(run: seq<Net>, s: nat, j: nat, t: nat, k: nat)
    requires Run(run) && s <= t < |run|
    requires j in run[s].nodes && k in run[t].nodes
    ensures run[s].nodes[j].chain <= run[t].nodes[k].chain || run[t].nodes[k].chain <= run[s].nodes[j].chain
  {
    RunAdvances(run, s, t, j);
    var now := run[t].nodes;
    if now[j].epoch <= now[k].epoch {
      ChainsAgree(run, t, j, k);
    } else {
      ChainsAgree(run, t, k, j);
      PrefixesCompare(run[s].nodes[j].chain, now[k].chain, now[j].chain);
    }
  }

  lemma PrefixesCompare<T>(a: seq<T>, b: seq<T>, c: seq<T>)
    requires a <= c && b <= c
    ensures a <= b || b <= a
  {
  }

  /**
   No transaction is in two blocks: in every run the blocks of an honest node's chain have no transaction in common.
   */
  lemma NoTransactionTwice(run: seq<Net>, t: nat, k: nat, i: nat, j: nat)
    requires Run(run) && t < |run| && k in run[t].nodes && i < j < |run[t].nodes[k].chain|
    ensures TxsOf(run[t].nodes[k].chain[i]) !! TxsOf(run[t].nodes[k].chain[j])
  {
    RunKeepsNetInv(run, t);
    assert LocalInv(run[t].n, run[t].nodes[k], run[t].wire);
  }

  predicate Repeats(txs: seq<Tx>) { exists a, b :: 0 <= a < b < |txs| && txs[a] == txs[b] }

  ghost predicate TxAt(chain: seq<Block>, i: nat, a: nat, t: Tx) {
    i < |chain| && a < |TxList(chain[i])| && TxList(chain[i])[a] == t
  }

  /** No transaction is at two positions of the chain, in different blocks or in one. */
  ghost predicate CommittedOnce(chain: seq<Block>) {
    forall t, i: nat, a: nat, j: nat, b: nat :: TxAt(chain, i, a, t) && TxAt(chain, j, b, t) ==> i == j && a == b
  }

  lemma OnceUnlessRepeated(chain: seq<Block>)
    requires TxsOnce(chain)
    ensures CommittedOnce(chain) <==> forall b :: b in chain ==> !Repeats(TxList(b))
  {
    if forall b :: b in chain ==> !Repeats(TxList(b)) {
      forall t, i: nat, a: nat, j: nat, b: nat | TxAt(chain, i, a, t) && TxAt(chain, j, b, t) ensures i == j && a == b {
        assert t in TxsOf(chain[i]) && t in TxsOf(chain[j]);
        assert !Repeats(TxList(chain[i]));
      }
    } else if CommittedOnce(chain) {
      var i: nat :| i < |chain| && Repeats(TxList(chain[i]));
      var a, b :| 0 <= a < b < |TxList(chain[i])| && TxList(chain[i])[a] == TxList(chain[i])[b];
      assert TxAt(chain, i, a, TxList(chain[i])[a]) && TxAt(chain, i, b, TxList(chain[i])[a]);
      assert false;
    }
  }

  /** An honest precommit of the propose. */
  ghost predicate HonestlyPrecommitted(net: Net, p: Propose) {
    exists m :: m in net.wire && m.PrecommitMsg? && HonestValidator(net, m.Validator()) && m.precommit.propose == p
  }

  /** Every block after the genesis block is that of a propose which an honest validator precommitted. */
  lemma BlocksArePrecommitted(run: seq<Net>, t: nat, k: nat, i: nat) returns (p: Propose)
    requires Run(run) && t < |run| && k in run[t].nodes && 0 < i < |run[t].nodes[k].chain|
    ensures HonestlyPrecommitted(run[t], p) && run[t].nodes[k].chain[i] == BlockOf(p)
  {
    hide Run, A.AllHonestRecords, HonestStep, A.HonestRecord, OwnVotes, TxsOnce, A.EpochEvidence, Fresh, PrevoteQuorum;
    var net := run[t];
    RunKeepsNetInv(run, t);
    NetInvGivesRecords(net);
    var b := net.nodes[k].chain[i];
    assert LocalInv(net.n, net.nodes[k], net.wire);
    assert BlockBacked(net.n, net.wire, b);
    var r :| PrecommitQuorum(net.n, net.wire, b.epoch.value, r, b);
    var m := A.HonestPrecommit(net.n, net.faulty, net.wire, b.epoch.value, r, b);
    p := m.precommit.propose;
  }

  /** In a run of two validators or more, a propose with +2/3 prevotes is by the leader of its round. */
  lemma QuorumIsForLeader(run: seq<Net>, t: nat, e: nat, r: nat, p: Propose)
    requires Run(run) && t < |run| && run[t].n > 1 && PrevoteQuorum(run[t].n, run[t].wire, e, r, p)
    ensures p.epoch == e && p.validator == LeaderOf(run[t].n, e, p.round)
  {
    hide Run, HonestStep, LocalInv, LeaderOf;
    var net := run[t];
    RunKeepsNetInv(run, t);
    var voters := Prevoters(net.n, net.wire, e, r, p);
    var others := net.faulty + {p.validator};
    if voters <= others {
      SubsetCardinality(voters, others);
      assert false;
    }
    var v :| v in voters && v !in others;
    HonestVotesInTurn(net, v, e, r, p);
  }

  lemma HonestVotesInTurn(net: Net, v: nat, e: nat, r: nat, p: Propose)
    requires NetInv(net) && HonestValidator(net, v) && PrevoteOnWire(net.wire, v, e, r, p)
    ensures InTurn(net.n, e, v, p)
  {
    assert LocalInv(net.n, net.nodes[v], net.wire);
    var m :| m in net.wire && IsPrevote(m, v, e) && m.prevote.round == r && m.prevote.propose == p;
  }

  /** With two validators or more, every block of an honest node's chain was proposed by the leader of its round. */
  lemma BlocksAreByLeaders(run: seq<Net>, t: nat, k: nat, i: nat) returns (p: Propose)
    requires Run(run) && t < |run| && k in run[t].nodes && 0 < i < |run[t].nodes[k].chain| && run[t].n > 1
    ensures run[t].nodes[k].chain[i] == BlockOf(p) && p.validator == LeaderOf(run[t].n, p.epoch, p.round)
    ensures HonestlyPrecommitted(run[t], p)
  {
    hide Run, HonestStep, LeaderOf, PrevoteQuorum;
    p := BlocksArePrecommitted(run, t, k, i);
    var m :| m in run[t].wire && m.PrecommitMsg? && HonestValidator(run[t], m.Validator()) && m.precommit.propose == p;
    RunKeepsNetInv(run, t);
    NetInvGivesRecords(run[t]);
    assert A.HonestRecord(run[t].n, m.Validator(), run[t].wire);
    assert IsPrecommit(m, m.Validator(), m.precommit.epoch);
    QuorumIsForLeader(run, t, m.precommit.epoch, m.precommit.round, p);
  }

  /** If the validators that are not Byzantine all vote for something, it has a quorum. */
  lemma HonestVotesSuffice(net: Net, e: nat, r: nat, p: Propose, b: Block)
    requires WellFormed(net)
    ensures (forall i: nat :: HonestValidator(net, i) ==> PrevoteOnWire(net.wire, i, e, r, p)) ==>
      PrevoteQuorum(net.n, net.wire, e, r, p)
    ensures (forall i: nat :: HonestValidator(net, i) ==> PrecommitOnWire(net.wire, i, e, r, b)) ==>
      PrecommitQuorum(net.n, net.wire, e, r, b)
  {
    hide PrevoteOnWire, PrecommitOnWire, ByzantineQuorum, MaxFaulty;
    var faulty := net.faulty * Ids(net.n);
    var honest := Ids(net.n) - faulty;
    SubsetCardinality(faulty, net.faulty);
    HonestAreQuorum(net.n, faulty);
    if forall i: nat :: HonestValidator(net, i) ==> PrevoteOnWire(net.wire, i, e, r, p) {
      SubsetCardinality(honest, Prevoters(net.n, net.wire, e, r, p));
    }
    if forall i: nat :: HonestValidator(net, i) ==> PrecommitOnWire(net.wire, i, e, r, b) {
      SubsetCardinality(honest, Precommitters(net.n, net.wire, e, r, b));
    }
  }

  /**
   In every run, no transaction is committed twice to an honest node's chain if and only if no honest validator has
   precommitted, for a block of the chain, a propose that lists a transaction twice.
   */
  lemma CommittedOnceUnlessRepeated(run: seq<Net>, t: nat, k: nat)
    requires Run(run) && t < |run| && k in run[t].nodes
    ensures var chain := run[t].nodes[k].chain;
      && (CommittedOnce(chain) <==> forall b :: b in chain ==> !Repeats(TxList(b)))
      && (CommittedOnce(chain) <==>
            forall p :: HonestlyPrecommitted(run[t], p) && BlockOf(p) in chain ==> !Repeats(p.txs))
  {
    hide Run, HonestlyPrecommitted, Repeats, CommittedOnce;
    var chain := run[t].nodes[k].chain;
    RunKeepsNetInv(run, t);
    assert LocalInv(run[t].n, run[t].nodes[k], run[t].wire);
    OnceUnlessRepeated(chain);
    forall i | 0 < i < |chain| ensures exists p :: HonestlyPrecommitted(run[t], p) && BlockOf(p) == chain[i] {
      var p := BlocksArePrecommitted(run, t, k, i);
    }
    assert !Repeats(TxList(Genesis)) by { NoRepeatsInNothing(); }
  }

  lemma NoRepeatsInNothing()
    ensures !Repeats([])
  {
  }

  /** Every commit of a run, also of a skip, raises the node's epoch above the block's, for good. */
  lemma CommitsRaiseEpoch(run: seq<Net>, s: nat, u: nat, t: nat, k: nat, b: Block, r: nat)
    requires Run(run) && s <= u < t < |run| && k in run[s].nodes
    requires HonestStep(run[u], run[u + 1], k, Commit(b, r))
    ensures k in run[t].nodes && run[s].nodes[k].epoch <= b.epoch.value < run[t].nodes[k].epoch
  {
    RunAdvances(run, s, u, k);
    RunAdvances(run, u + 1, t, k);
    RunKeepsNetInv(run, u);
    NetInvGivesRecords(run[u]);
    CommitRaisesEpoch(run[u].n, run[u].faulty, run[u].nodes[k], run[u].wire, b, r);
  }

  /**
   No self-equivocation: an honest validator sends one prevote and one precommit per round, prevotes only
   for rounds it has reached, and precommits only rounds it has locked.
   */
  lemma HonestValidatorsDoNotEquivocate(run: seq<Net>, t: nat, i: nat, m: Message, m': Message)
    requires Run(run) && t < |run| && HonestValidator(run[t], i)
    requires m in run[t].wire && m.Validator() == i && !m.ProposeMsg?
    requires m' in run[t].wire && m'.Validator() == i && !m'.ProposeMsg?
    ensures m.PrevoteMsg? == m'.PrevoteMsg? && m.Epoch() == m'.Epoch() && m.Round() == m'.Round() ==> m == m'
    ensures i in run[t].nodes && m.Epoch() <= run[t].nodes[i].epoch
    ensures m.Epoch() == run[t].nodes[i].epoch ==> m.Round() <= run[t].nodes[i].round
    ensures m.Epoch() == run[t].nodes[i].epoch && m.PrecommitMsg? ==> m.Round() <= run[t].nodes[i].lockedRound
  {
    RunKeepsNetInv(run, t);
    assert LocalInv(run[t].n, run[t].nodes[i], run[t].wire);
    assert IsPrevote(m, i, m.Epoch()) || IsPrecommit(m, i, m.Epoch());
    assert IsPrevote(m', i, m'.Epoch()) || IsPrecommit(m', i, m'.Epoch());
  }

  /**
   Lock justification: if an honest validator precommits `p` in round `r`, each of its prevotes for a
   later round of the epoch, sent before or after, is for `p` or was sent when its propose already had
   +2/3 prevotes in a round after `r`.
   */
  lemma LockJustification(run: seq<Net>, t: nat, i: nat, e: nat, m: Message, k: nat)
    requires Run(run) && t < |run| && HonestValidator(run[t], i)
    requires m in run[t].wire && IsPrecommit(m, i, e)
    requires k < |run[t].wire| && IsPrevote(run[t].wire[k], i, e)
    requires run[t].wire[k].prevote.round > m.precommit.round
    ensures
      || run[t].wire[k].prevote.propose == m.precommit.propose
      || exists q ::
           m.precommit.round < q <= run[t].wire[k].prevote.round
           && PrevoteQuorum(run[t].n, run[t].wire[..k], e, q, run[t].wire[k].prevote.propose)
  {
    hide LocalInv, NetInv, Run, PrevoteQuorum, A.NoEquivocation, A.PrecommitsBacked;
    RunKeepsNetInv(run, t);
    NetInvGivesRecords(run[t]);
    assert A.HonestRecord(run[t].n, i, run[t].wire);
  }

  /**
   A handler call that performs protocol actions, as `NodeHandler` proves of its methods, is a run of the
   network in which only this node moves: all theorems here apply to what the handlers do.
   */
  lemma {:induction false} HandlerIsRun(run: seq<Net>, k: nat, acts: seq<Action>, l': Local, w': Wire)
    returns (run': seq<Net>)
    requires Run(run) && k in run[|run| - 1].nodes
    requires var net := run[|run| - 1]; Performs(net.n, net.nodes[k], net.wire, acts, l', w')
    ensures Run(run') && run <= run'
    ensures run'[|run'| - 1] == run[|run| - 1].(nodes := run[|run| - 1].nodes[k := l'], wire := w')
    decreases |acts|
  {
    var net := run[|run| - 1];
    if acts == [] {
      run' := run;
    } else {
      var l1 := Apply(net.n, net.nodes[k], net.wire, acts[0]);
      var net' := net.(nodes := net.nodes[k := l1], wire := Emit(net.n, net.nodes[k], net.wire, acts[0]));
      ExtendRun(run, net', k, acts[0]);
      run' := HandlerIsRun(run + [net'], k, acts[1..], l', w');
      assert net'.nodes[k := l'] == net.nodes[k := l'];
    }
  }

  lemma ExtendRun(run: seq<Net>, net: Net, k: nat, a: Action)
    requires Run(run) && HonestStep(run[|run| - 1], net, k, a)
    ensures Run(run + [net])
  {
    var longer := run + [net];
    forall t: nat | t + 1 < |longer| ensures StepAt(longer, t) {
      assert t + 1 < |run| ==> StepAt(run, t);
    }
  }
}
