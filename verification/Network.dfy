/**
 A network of honest nodes, which take the actions of `Protocol`, and Byzantine validators, which put
 any message under their own id on the wire. The invariants hold in every run, for any interleaving.
 */
module Network {
  import opened Messages
  import opened Options
  import opened Quorums
  import opened Protocol
  import opened Agreement

  /** A chain of ordinary blocks from the genesis block on; a block's height is its index. */
  ghost predicate IsChain(chain: seq<Block>) {
    && |chain| > 0
    && chain[0] == Genesis
    && (forall i :: 1 <= i < |chain| ==> chain[i].Block? && chain[i].prev == chain[i - 1])
    && (forall i :: 0 <= i < |chain| ==> Height(chain[i]) == i)
  }

  lemma {:induction false} ChainIsPath(chain: seq<Block>)
    requires IsChain(chain)
    ensures chain == Path(Last(chain))
    decreases |chain|
  {
    if |chain| > 1 {
      ChainIsPath(chain[..|chain| - 1]);
      assert chain == chain[..|chain| - 1] + [Last(chain)];
    }
  }

  /** What an honest validator has sent in its current epoch agrees with its round and lock. */
  ghost predicate OwnVotes(l: Local, i: nat, w: Wire) {
    && (forall m :: m in w && m.Validator() == i && !m.ProposeMsg? ==> m.Epoch() <= l.epoch)
    && (forall m :: m in w && IsPrevote(m, i, l.epoch) ==> m.prevote.round <= l.round)
    && (forall m :: m in w && IsPrecommit(m, i, l.epoch) ==>
          && 0 < m.precommit.round <= l.lockedRound
          && (m.precommit.round == l.lockedRound ==> Some(m.precommit.propose) == l.lockedPropose))
  }

  /** No transaction is in two blocks. */
  ghost predicate TxsOnce(chain: seq<Block>) {
    forall i, j :: 0 <= i < j < |chain| ==> TxsOf(chain[i]) !! TxsOf(chain[j])
  }

  lemma {:induction false} TxsInChain(chain: seq<Block>, i: nat)
    requires i < |chain|
    ensures TxsOf(chain[i]) <= ChainTxs(chain)
    decreases |chain|
  {
    if i < |chain| - 1 {
      TxsInChain(chain[..|chain| - 1], i);
    }
  }

  /** The transactions of a chain are those of its blocks. */
  lemma {:induction false} ChainTxsAre(chain: seq<Block>, t: Tx)
    ensures t in ChainTxs(chain) <==> exists b :: b in chain && t in TxList(b)
    decreases |chain|
  {
    if chain != [] {
      var init, last := chain[..|chain| - 1], chain[|chain| - 1];
      ChainTxsAre(init, t);
      assert chain == init + [last];
      assert t in TxsOf(last) <==> t in TxList(last);
    }
  }

  lemma FreshBlockOnce(chain: seq<Block>, b: Block)
    requires TxsOnce(chain) && b.Block? && forall t :: t in b.txs ==> t !in ChainTxs(chain)
    ensures TxsOnce(chain + [b])
  {
    forall i | 0 <= i < |chain| ensures TxsOf(chain[i]) !! TxsOf(b) {
      TxsInChain(chain, i);
    }
  }

  /** Every prevote is for a propose whose transactions passed the check on some block below it. */
  ghost predicate VotesChecked(check: Check, i: nat, w: Wire) {
    forall e, m, t :: m in w && IsPrevote(m, i, e) && t in m.prevote.propose.txs ==>
      Passed(check, Path(m.prevote.propose.prev), t)
  }

  /** Every prevote is for a propose of the validator itself or of the leader. */
  ghost predicate VotesInTurn(n: nat, i: nat, w: Wire) {
    forall e, m :: m in w && IsPrevote(m, i, e) ==> InTurn(n, e, i, m.prevote.propose)
  }

  /** Every block after the genesis block has +2/3 precommits. */
  ghost predicate ChainBacked(n: nat, w: Wire, chain: seq<Block>) {
    forall i :: 1 <= i < |chain| ==> BlockBacked(n, w, chain[i])
  }

  ghost predicate BlockBacked(n: nat, w: Wire, b: Block) {
    b.Block? && b.epoch.Some? && exists r :: PrecommitQuorum(n, w, b.epoch.value, r, b)
  }

  lemma BackedStays(n: nat, w: Wire, w': Wire, chain: seq<Block>)
    requires ChainBacked(n, w, chain) && w <= w'
    ensures ChainBacked(n, w', chain)
  {
    forall i | 1 <= i < |chain| ensures BlockBacked(n, w', chain[i]) {
      var b := chain[i];
      assert BlockBacked(n, w, b);
      var r :| PrecommitQuorum(n, w, b.epoch.value, r, b);
      QuorumsPersist(n, w, w', b.epoch.value, r);
    }
  }

  ghost predicate LocalInv(n: nat, l: Local, w: Wire) {
    && IsChain(l.chain)
    && TxsOnce(l.chain)
    && ChainBacked(n, w, l.chain)
    && EpochEvidence(n, w, l.epoch, Last(l.chain))
    && l.lockedRound <= l.round
    && (l.lockedRound > 0 ==>
          l.lockedPropose.Some? && PrevoteQuorum(n, w, l.epoch, l.lockedRound, l.lockedPropose.value))
    && (l.id.Some? ==>
          && OwnVotes(l, l.id.value, w)
          && HonestRecord(n, l.id.value, w)
          && VotesChecked(l.check, l.id.value, w)
          && VotesInTurn(n, l.id.value, w))
  }

  // ---- The wire only grows

  lemma QuorumsPersist(n: nat, w: Wire, w': Wire, e: nat, r: nat)
    requires w <= w'
    ensures forall p :: PrevoteQuorum(n, w, e, r, p) ==> PrevoteQuorum(n, w', e, r, p)
    ensures forall b :: PrecommitQuorum(n, w, e, r, b) ==> PrecommitQuorum(n, w', e, r, b)
  {
    forall p ensures PrevoteQuorum(n, w, e, r, p) ==> PrevoteQuorum(n, w', e, r, p) {
      SubsetCardinality(Prevoters(n, w, e, r, p), Prevoters(n, w', e, r, p));
    }
    forall b ensures PrecommitQuorum(n, w, e, r, b) ==> PrecommitQuorum(n, w', e, r, b) {
      SubsetCardinality(Precommitters(n, w, e, r, b), Precommitters(n, w', e, r, b));
    }
  }

  lemma EvidencePersists(n: nat, w: Wire, w': Wire, e: nat, tip: Block)
    requires w <= w' && EpochEvidence(n, w, e, tip)
    ensures EpochEvidence(n, w', e, tip)
  {
    if !(e == 1 && tip == Genesis) {
      var b, r :| Opens(n, w, e, tip, b, r);
      QuorumsPersist(n, w, w', e - 1, r);
      assert Opens(n, w', e, tip, b, r);
    }
  }

  /** A record stays honest when someone else writes. */
  lemma RecordPersists(n: nat, i: nat, w: Wire, m: Message)
    requires HonestRecord(n, i, w)
    requires m.ProposeMsg? || m.Validator() != i
    ensures HonestRecord(n, i, w + [m])
  {
    var w' := w + [m];
    BackedPersists(n, i, w, m);
    forall e, c, k |
      c in w' && 0 <= k < |w'| && IsPrecommit(c, i, e) && IsPrevote(w'[k], i, e)
      && w'[k].prevote.round > c.precommit.round && w'[k].prevote.propose != c.precommit.propose
      ensures NewerQuorum(n, w'[..k], e, c.precommit.round, w'[k].prevote.round, w'[k].prevote.propose)
    {
      assert c in w && w'[k] == w[k];
      assert w'[..k] == w[..k];
    }
  }

  lemma BackedPersists(n: nat, i: nat, w: Wire, m: Message)
    requires PrecommitsBacked(n, i, w)
    requires !m.PrecommitMsg? || m.Validator() != i
    ensures PrecommitsBacked(n, i, w + [m])
  {
    var w' := w + [m];
    forall e, c | c in w' && IsPrecommit(c, i, e)
      ensures PrevoteQuorum(n, w', e, c.precommit.round, c.precommit.propose)
      ensures EpochEvidence(n, w', e, c.precommit.propose.prev)
    {
      assert c in w;
      QuorumsPersist(n, w, w', e, c.precommit.round);
      EvidencePersists(n, w, w', e, c.precommit.propose.prev);
    }
  }

  /** A node's invariant is not disturbed by what others write. */
  lemma OthersKeepLocal(n: nat, l: Local, w: Wire, m: Message)
    requires LocalInv(n, l, w)
    requires l.id == Some(m.Validator()) ==> m.ProposeMsg?
    ensures LocalInv(n, l, w + [m])
  {
    hide ChainBacked, HonestRecord, PrevoteQuorum, EpochEvidence, TxsOnce, Passed, InTurn;
    BackedStays(n, w, w + [m], l.chain);
    QuorumsPersist(n, w, w + [m], l.epoch, l.lockedRound);
    EvidencePersists(n, w, w + [m], l.epoch, Last(l.chain));
    if l.id.Some? {
      RecordPersists(n, l.id.value, w, m);
    }
  }

  // ---- What each action keeps

  lemma PrevoteIsChecked(check: Check, i: nat, w: Wire, m: Message)
    requires VotesChecked(check, i, w) && m.PrevoteMsg?
    requires forall t :: t in m.prevote.propose.txs ==> Passed(check, Path(m.prevote.propose.prev), t)
    ensures VotesChecked(check, i, w + [m])
  {
  }

  lemma PrevoteIsInTurn(n: nat, i: nat, w: Wire, m: Message)
    requires VotesInTurn(n, i, w) && m.PrevoteMsg? && InTurn(n, m.Epoch(), i, m.prevote.propose)
    ensures VotesInTurn(n, i, w + [m])
  {
  }

  lemma PrevoteKeepsLocal(n: nat, l: Local, w: Wire, r: nat, p: Propose)
    requires LocalInv(n, l, w) && MayPrevote(n, l, w, r, p)
    ensures LocalInv(n, l, w + [PrevoteMsg(Prevote(l.id.value, l.epoch, r, p, l.lockedRound))])
  {
    hide PrevoteQuorum, EpochEvidence, PrecommitsBacked, ChainBacked, VotesChecked, VotesInTurn, InTurn;
    ChainIsPath(l.chain);
    var m := PrevoteMsg(Prevote(l.id.value, l.epoch, r, p, l.lockedRound));
    var i, w' := l.id.value, w + [m];
    BackedStays(n, w, w', l.chain);
    PrevoteIsChecked(l.check, i, w, m);
    PrevoteIsInTurn(n, i, w, m);
    QuorumsPersist(n, w, w', l.epoch, l.lockedRound);
    EvidencePersists(n, w, w', l.epoch, Last(l.chain));
    BackedPersists(n, i, w, m);
    forall e, c, k |
      c in w' && 0 <= k < |w'| && IsPrecommit(c, i, e) && IsPrevote(w'[k], i, e)
      && w'[k].prevote.round > c.precommit.round && w'[k].prevote.propose != c.precommit.propose
      ensures NewerQuorum(n, w'[..k], e, c.precommit.round, w'[k].prevote.round, w'[k].prevote.propose)
    {
      assert c in w;
      if k < |w| {
        assert w'[..k] == w[..k];
      } else {
        assert w'[..k] == w;
        if l.lockedPropose == Some(p) {
          assert PrevoteQuorum(n, w, e, l.lockedRound, p);
        } else {
          assert PrevoteQuorum(n, w, e, r, p);
        }
      }
    }
  }

  lemma PrecommitStaysBacked(n: nat, l: Local, w: Wire, w': Wire, t: int)
    requires LocalInv(n, l, w) && MayPrecommit(l, w)
    requires w' == Emit(n, l, w, SendPrecommit(t))
    ensures PrecommitsBacked(n, l.id.value, w')
  {
    forall e, c | c in w' && IsPrecommit(c, l.id.value, e)
      ensures PrevoteQuorum(n, w', e, c.precommit.round, c.precommit.propose)
      ensures c.precommit.propose.epoch == e && c.precommit.block == BlockOf(c.precommit.propose)
      ensures EpochEvidence(n, w', e, c.precommit.propose.prev)
      ensures Fresh(c.precommit.propose.prev, c.precommit.propose.txs)
    {
      ChainIsPath(l.chain);
      assert c in w || c == w'[|w|];
      QuorumsPersist(n, w, w', e, c.precommit.round);
      EvidencePersists(n, w, w', e, c.precommit.propose.prev);
    }
  }

  lemma PrecommitStaysJustified(n: nat, l: Local, w: Wire, w': Wire, t: int)
    requires LocalInv(n, l, w) && MayPrecommit(l, w)
    requires w' == Emit(n, l, w, SendPrecommit(t))
    ensures LocksJustified(n, l.id.value, w')
  {
    var i := l.id.value;
    forall e, c, k |
      c in w' && 0 <= k < |w'| && IsPrecommit(c, i, e) && IsPrevote(w'[k], i, e)
      && w'[k].prevote.round > c.precommit.round && w'[k].prevote.propose != c.precommit.propose
      ensures NewerQuorum(n, w'[..k], e, c.precommit.round, w'[k].prevote.round, w'[k].prevote.propose)
    {
      assert k < |w| && w'[k] == w[k] && w[k] in w;
      assert c in w;
      assert w'[..k] == w[..k];
    }
  }

  lemma PrecommitKeepsLocal(n: nat, l: Local, w: Wire, t: int)
    requires LocalInv(n, l, w) && MayPrecommit(l, w)
    ensures LocalInv(n, l, Emit(n, l, w, SendPrecommit(t)))
  {
    var w' := Emit(n, l, w, SendPrecommit(t));
    hide ChainBacked;
    BackedStays(n, w, w', l.chain);
    QuorumsPersist(n, w, w', l.epoch, l.lockedRound);
    EvidencePersists(n, w, w', l.epoch, Last(l.chain));
    PrecommitStaysBacked(n, l, w, w', t);
    PrecommitStaysJustified(n, l, w, w', t);
    assert forall c :: c in w' ==> c in w || c == w'[|w|];
  }

  /**
   A commit always raises the epoch. For a `BlockResponse` with an ordinary block the code does not
   compare epochs; that an old block is refused follows from agreement on the chain.
   */
  lemma CommitRaisesEpoch(n: nat, faulty: set<nat>, l: Local, w: Wire, b: Block, r: nat)
    requires AllHonestRecords(n, faulty, w)
    requires LocalInv(n, l, w) && MayCommit(n, l, w, b, r)
    ensures b.epoch.value >= l.epoch
  {
    var e := b.epoch.value;
    if e < l.epoch {
      var m := HonestPrecommit(n, faulty, w, e, r, b);
      assert e > 0;
      assert Opens(n, w, e + 1, TipAfter(b), b, r);
      TipsDescend(n, faulty, w, e + 1, TipAfter(b), l.epoch, Last(l.chain));
      ChainIsPath(l.chain);
      PathLength(b);
    }
  }

  lemma {:induction false} PathLength(b: Block)
    requires b.Block?
    ensures |Path(b)| == |Path(b.prev)| + 1
  {
  }

  lemma ChainGrows(chain: seq<Block>, b: Block)
    requires IsChain(chain)
    requires b.Block? && b.prev == Last(chain) && b.height == Height(b.prev) + 1
    ensures IsChain(chain + [b])
  {
  }

  lemma CommitKeepsLocal(n: nat, faulty: set<nat>, l: Local, w: Wire, b: Block, r: nat)
    requires AllHonestRecords(n, faulty, w)
    requires LocalInv(n, l, w) && Enabled(n, l, w, Commit(b, r))
    ensures LocalInv(n, Apply(n, l, w, Commit(b, r)), w)
    ensures Apply(n, l, w, Commit(b, r)).epoch > l.epoch
  {
    hide HonestRecord, TxsOnce, Fresh, PrevoteQuorum;
    CommitRaisesEpoch(n, faulty, l, w, b, r);
    CommitKeepsTxsOnce(n, faulty, l, w, b, r);
    var l' := Apply(n, l, w, Commit(b, r));
    var m := HonestPrecommit(n, faulty, w, b.epoch.value, r, b);
    assert l'.epoch > 1;
    assert Opens(n, w, l'.epoch, TipAfter(b), b, r);
    if !b.skip {
      ChainGrows(l.chain, b);
    }
  }

  lemma CommitKeepsTxsOnce(n: nat, faulty: set<nat>, l: Local, w: Wire, b: Block, r: nat)
    requires AllHonestRecords(n, faulty, w)
    requires LocalInv(n, l, w) && MayCommit(n, l, w, b, r)
    ensures TxsOnce(l.chain + [b])
  {
    hide HonestRecord, AllHonestRecords, OwnVotes;
    var m := HonestPrecommit(n, faulty, w, b.epoch.value, r, b);
    ChainIsPath(l.chain);
    FreshBlockOnce(l.chain, b);
  }

  lemma ActionKeepsLocal(n: nat, faulty: set<nat>, l: Local, w: Wire, a: Action)
    requires AllHonestRecords(n, faulty, w)
    requires LocalInv(n, l, w) && Enabled(n, l, w, a)
    ensures LocalInv(n, Apply(n, l, w, a), Emit(n, l, w, a))
  {
    match a
    case SendPropose(p) => OthersKeepLocal(n, l, w, ProposeMsg(p));
    case SendPrevote(r, p) => PrevoteKeepsLocal(n, l, w, r, p);
    case Lock(r, p) =>
    case SendPrecommit(t) => PrecommitKeepsLocal(n, l, w, t);
    case AdvanceRound(r) =>
    case Commit(b, r) => CommitKeepsLocal(n, faulty, l, w, b, r);
  }

  // ---- Runs of the network

  /** `nodes` are the honest ones: validators under their id, auditors under numbers from `n` on. */
  datatype Net = Net(n: nat, faulty: set<nat>, nodes: map<nat, Local>, wire: Wire, check: Check)

  ghost predicate WellFormed(net: Net) {
    && 3 * |net.faulty| < net.n
    && (forall k :: k in net.nodes ==> net.nodes[k].id == if k < net.n then Some(k) else None)
    && (forall i: nat :: i < net.n && i !in net.faulty ==> i in net.nodes)
    && net.nodes.Keys !! net.faulty
    && (forall k :: k in net.nodes ==> net.nodes[k].check == net.check)
  }

  /** Every honest node starts after the genesis block, in the first epoch, and nothing has been sent. */
  ghost predicate Init(net: Net) {
    && WellFormed(net)
    && net.wire == []
    && (forall k :: k in net.nodes ==> net.nodes[k] == Local(net.nodes[k].id, 1, 1, 0, None, [Genesis], net.check))
  }

  ghost predicate HonestStep(net: Net, net': Net, k: nat, a: Action) {
    && k in net.nodes
    && Enabled(net.n, net.nodes[k], net.wire, a)
    && net' == net.(
         nodes := net.nodes[k := Apply(net.n, net.nodes[k], net.wire, a)],
         wire := Emit(net.n, net.nodes[k], net.wire, a))
  }

  ghost predicate ByzantineStep(net: Net, net': Net, m: Message) {
    m.Validator() in net.faulty && net' == net.(wire := net.wire + [m])
  }

  ghost predicate Step(net: Net, net': Net) {
    (exists k, a :: HonestStep(net, net', k, a)) || (exists m :: ByzantineStep(net, net', m))
  }

  ghost predicate StepAt(run: seq<Net>, t: nat) { t + 1 < |run| && Step(run[t], run[t + 1]) }

  ghost predicate Run(run: seq<Net>) {
    && |run| > 0
    && Init(run[0])
    && (forall t: nat :: t + 1 < |run| ==> StepAt(run, t))
  }

  ghost predicate NetInv(net: Net) {
    WellFormed(net) && forall k :: k in net.nodes ==> LocalInv(net.n, net.nodes[k], net.wire)
  }

  lemma NetInvGivesRecords(net: Net)
    requires NetInv(net)
    ensures AllHonestRecords(net.n, net.faulty, net.wire)
  {
  }

  /** An action keeps the node's id and sends at most one message, under that id. */
  lemma ActionSends(n: nat, l: Local, w: Wire, a: Action)
    requires Enabled(n, l, w, a)
    ensures Apply(n, l, w, a).id == l.id && Apply(n, l, w, a).check == l.check
    ensures var w' := Emit(n, l, w, a);
      w' == w || (|w'| == |w| + 1 && w' == w + [w'[|w|]] && l.id == Some(w'[|w|].Validator()))
  {
  }

  lemma HonestStepKeepsNetInv(net: Net, net': Net, k: nat, a: Action)
    requires NetInv(net) && HonestStep(net, net', k, a)
    ensures NetInv(net')
  {
    hide LocalInv, Enabled, Apply, Emit, AllHonestRecords;
    NetInvGivesRecords(net);
    ActionKeepsLocal(net.n, net.faulty, net.nodes[k], net.wire, a);
    ActionSends(net.n, net.nodes[k], net.wire, a);
    forall j | j in net'.nodes ensures LocalInv(net'.n, net'.nodes[j], net'.wire) {
      if j != k && net'.wire != net.wire {
        OthersKeepLocal(net.n, net.nodes[j], net.wire, net'.wire[|net.wire|]);
      }
    }
  }

  lemma StepKeepsNetInv(net: Net, net': Net)
    requires NetInv(net) && Step(net, net')
    ensures NetInv(net')
  {
    hide LocalInv, Enabled, Apply, Emit;
    if k, a :| HonestStep(net, net', k, a) {
      HonestStepKeepsNetInv(net, net', k, a);
    } else {
      var m :| ByzantineStep(net, net', m);
      forall j | j in net'.nodes ensures LocalInv(net'.n, net'.nodes[j], net'.wire) {
        OthersKeepLocal(net.n, net.nodes[j], net.wire, m);
      }
    }
  }

  lemma InitGivesNetInv(net: Net)
    requires Init(net)
    ensures NetInv(net)
  {
  }

  lemma {:induction false} RunKeepsNetInv(run: seq<Net>, t: nat)
    requires Run(run) && t < |run|
    ensures NetInv(run[t])
    ensures run[t].n == run[0].n && run[t].faulty == run[0].faulty
    ensures run[t].nodes.Keys == run[0].nodes.Keys
  {
    if t == 0 {
      InitGivesNetInv(run[0]);
    } else {
      RunKeepsNetInv(run, t - 1);
      assert StepAt(run, t - 1);
      StepKeepsNetInv(run[t - 1], run[t]);
    }
  }
}
