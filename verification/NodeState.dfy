/** A node's state, what is true of it between any two updates, and what each update keeps. */
module NodeState {
  import opened Messages
  import opened Options
  import opened Quorums
  import opened Protocol
  import opened VoteCounting
  import opened Network

  /**
   The validators' number, the node's own id among them (if any), and the check of a transaction on top of a block.
   */
  datatype Config = Config(n: nat, id: Option<nat>, check: Check)

  /** A known propose: the transactions not received yet, whether none is invalid, the executed block. */
  datatype ProposeState = ProposeState(unknown: set<Tx>, valid: bool, block: Option<Block>)

  datatype IncompleteBlock = IncompleteBlock(block: Block, txs: seq<Tx>, unknown: set<Tx>)

  type Proposes = map<Propose, ProposeState>
  type Prevotes = map<(nat, Propose), Votes>
  type Precommits = map<(nat, Block), Votes>

  datatype State = State(
    enabled: bool,
    epoch: nat,
    round: nat,
    lockedRound: nat,
    lockedPropose: Option<Propose>,
    chain: seq<Block>,
    proposes: Proposes,
    blocks: set<Block>,
    prevotes: Prevotes,
    precommits: Precommits,
    ourPrevotes: map<nat, Prevote>,
    ourPrecommits: map<nat, Precommit>,
    queued: seq<Message>,
    confirmed: map<Propose, (nat, Block)>,
    rounds: map<nat, nat>,
    incomplete: Option<IncompleteBlock>,
    txCache: set<Tx>,
    pool: set<Tx>,
    committed: set<Tx>,
    invalid: set<Tx>,
    wire: Wire)
  {
    ghost function View(c: Config): Local {
      Local(c.id, epoch, round, lockedRound, lockedPropose, chain, c.check)
    }

    function Known(): set<Tx> { txCache + pool + committed }
  }

  predicate Majority<K>(n: nat, votes: map<K, Votes>, k: K) {
    k in votes && votes[k].count >= ByzantineQuorum(n)
  }

  predicate Sized<K>(n: nat, votes: map<K, Votes>, k: K) {
    k in votes ==> |votes[k].validators| == n
  }

  function InsertVote<K>(n: nat, votes: map<K, Votes>, k: K, m: Message): map<K, Votes>
    requires m.Validator() < n && Sized(n, votes, k)
  {
    votes[k := (if k in votes then votes[k] else NoVotes(n)).Insert(m)]
  }

  predicate Full(proposes: Proposes, p: Propose) {
    p in proposes && proposes[p].unknown == {}
  }

  // ---- Votes

  ghost predicate PrevotesOk(n: nat, e: nat, round: nat, votes: Prevotes, w: Wire) {
    forall k :: k in votes ==>
      && k.0 <= round
      && votes[k].Valid(n)
      && (forall m :: m in votes[k].messages ==> m in w && PrevoteFor(m, e, k.0, k.1))
  }

  ghost predicate PrecommitsOk(n: nat, e: nat, votes: Precommits, w: Wire) {
    forall k :: k in votes ==>
      && votes[k].Valid(n)
      && (forall m :: m in votes[k].messages ==> m in w && PrecommitFor(m, e, k.0, k.1))
  }

  /** The node's own prevotes are exactly its prevotes of this epoch on the wire. */
  ghost predicate OwnPrevotesOk(id: Option<nat>, e: nat, own: map<nat, Prevote>, w: Wire) {
    if id.None? then own == map[]
    else
      && (forall r :: r in own ==>
            own[r].round == r && PrevoteMsg(own[r]) in w && IsPrevote(PrevoteMsg(own[r]), id.value, e))
      && (forall m :: m in w && IsPrevote(m, id.value, e) ==>
            m.prevote.round in own && own[m.prevote.round] == m.prevote)
  }

  ghost predicate OwnPrecommitsOk(id: Option<nat>, e: nat, own: map<nat, Precommit>, w: Wire) {
    if id.None? then own == map[]
    else
      && (forall r :: r in own ==>
            own[r].round == r && PrecommitMsg(own[r]) in w && IsPrecommit(PrecommitMsg(own[r]), id.value, e))
      && (forall m :: m in w && IsPrecommit(m, id.value, e) ==>
            m.precommit.round in own && own[m.precommit.round] == m.precommit)
  }

  ghost predicate VotesOk(c: Config, s: State) {
    && PrevotesOk(c.n, s.epoch, s.round, s.prevotes, s.wire)
    && PrecommitsOk(c.n, s.epoch, s.precommits, s.wire)
    && OwnPrevotesOk(c.id, s.epoch, s.ourPrevotes, s.wire)
    && OwnPrecommitsOk(c.id, s.epoch, s.ourPrecommits, s.wire)
    && (c.id.Some? ==> OwnVotes(s.View(c), c.id.value, s.wire))
    && ConfirmedOk(c.n, s.epoch, s.confirmed, s.precommits, s.wire)
  }

  /** A precommit for the block `b` names `p` as its propose. */
  ghost predicate Named(e: nat, r: nat, p: Propose, b: Block, w: Wire) {
    exists m :: m in w && PrecommitFor(m, e, r, b) && m.precommit.propose == p
  }

  ghost predicate ConfirmedOk(n: nat, e: nat, confirmed: map<Propose, (nat, Block)>, precommits: Precommits, w: Wire) {
    forall p :: p in confirmed ==>
      Majority(n, precommits, confirmed[p]) && Named(e, confirmed[p].0, p, confirmed[p].1, w)
  }

  // ---- Proposes, blocks and transactions

  ghost predicate ProposesOk(e: nat, round: nat, last: Block, proposes: Proposes, blocks: set<Block>) {
    forall p :: p in proposes ==>
      && p.epoch == e
      && p.round <= round
      && p.prev == last
      && (proposes[p].block.Some? ==> proposes[p].block.value == BlockOf(p) && BlockOf(p) in blocks)
  }

  /** A propose waits exactly for its transactions that are neither known nor known to be invalid. */
  ghost predicate Tracked(p: Propose, s: ProposeState, known: set<Tx>, invalid: set<Tx>) {
    && s.unknown == (set t | t in p.txs && t !in known && t !in invalid)
    && (s.valid <==> forall t :: t in p.txs ==> t !in invalid)
  }

  ghost predicate TrackingOk(proposes: Proposes, known: set<Tx>, invalid: set<Tx>) {
    forall p :: p in proposes ==> Tracked(p, proposes[p], known, invalid)
  }

  /** A propose is well-formed and, unless it is the node's own, by the leader of its round. */
  ghost predicate Led(n: nat, id: Option<nat>, e: nat, p: Propose) {
    && (p.skip ==> p.txs == [])
    && (id == Some(p.validator) || (n > 0 && p.validator == LeaderOf(n, e, p.round)))
  }

  ghost predicate LeadersOk(n: nat, id: Option<nat>, e: nat, proposes: Proposes) {
    forall p :: p in proposes ==> Led(n, id, e, p)
  }

  ghost predicate InvalidOk(invalid: set<Tx>, known: set<Tx>, check: (Block, Tx) -> bool, last: Block) {
    invalid !! known && forall t :: t in invalid ==> !check(last, t)
  }

  /** An executed block extends the chain. */
  ghost predicate Extends(b: Block, last: Block) {
    && b.Block?
    && b.epoch.Some?
    && b.prev == last
    && b.height == (if b.skip then Height(b.prev) else Height(b.prev) + 1)
  }

  ghost predicate LockOk(locked: Option<Propose>, proposes: Proposes) {
    locked.Some? ==> Full(proposes, locked.value) && proposes[locked.value].valid
  }

  ghost predicate ProposalsOk(c: Config, s: State)
    requires |s.chain| > 0
  {
    && ProposesOk(s.epoch, s.round, Last(s.chain), s.proposes, s.blocks)
    && LeadersOk(c.n, c.id, s.epoch, s.proposes)
    && TrackingOk(s.proposes, s.Known(), s.invalid)
    && InvalidOk(s.invalid, s.Known(), c.check, Last(s.chain))
    && (forall b :: b in s.blocks ==> Extends(b, Last(s.chain)))
    && LockOk(s.lockedPropose, s.proposes)
  }

  // ---- Messages from the future and blocks from other nodes

  ghost predicate QueueOk(n: nat, e: nat, queued: seq<Message>, w: Wire) {
    forall m :: m in queued ==> m in w && m.Validator() < n && m.Epoch() <= e + 1
  }

  /** Every known round was announced by that validator in a message of this or the next epoch. */
  ghost predicate RoundsOk(n: nat, e: nat, rounds: map<nat, nat>, w: Wire) {
    forall v :: v in rounds ==> v < n && (rounds[v] > 0 ==> Announced(e, v, rounds[v], w))
  }

  ghost predicate Announced(e: nat, v: nat, r: nat, w: Wire) {
    exists m :: m in w && m.Validator() == v && m.Round() == r && e <= m.Epoch() <= e + 1
  }

  /** What `validate_block_response` has checked of a block. */
  ghost predicate BlockAccepted(n: nat, e: nat, chain: seq<Block>, b: Block, txs: seq<Tx>, w: Wire)
    requires |chain| > 0
  {
    && b.Block?
    && b.epoch.Some?
    && b.proposer.Some?
    && b.prev == Last(chain)
    && b.txs == txs
    && (b.height == |chain| || (b.height + 1 == |chain| && e <= b.epoch.value))
    && exists r :: PrecommitQuorum(n, w, b.epoch.value, r, b)
  }

  /** A block received in a `BlockResponse`, waiting for transactions. */
  ghost predicate IncompleteOk(
    n: nat, e: nat, chain: seq<Block>, incomplete: Option<IncompleteBlock>, w: Wire, known: set<Tx>, invalid: set<Tx>)
    requires |chain| > 0
  {
    incomplete.Some? ==>
      && BlockAccepted(n, e, chain, incomplete.value.block, incomplete.value.txs, w)
      && (forall t :: t in incomplete.value.txs && t !in known ==> t in incomplete.value.unknown)
      && (forall t :: t in incomplete.value.txs && t in invalid ==> t in incomplete.value.unknown)
  }

  /** An incomplete block waits exactly for its unknown transactions, and has some. */
  ghost predicate BlockWaits(s: State) {
    s.incomplete.Some? ==>
      && s.incomplete.value.unknown == (set t | t in s.incomplete.value.txs && t !in s.Known())
      && s.incomplete.value.unknown != {}
      && (forall t :: t in s.incomplete.value.txs ==> t !in s.invalid)
  }

  ghost predicate PendingOk(c: Config, s: State)
    requires |s.chain| > 0
  {
    && QueueOk(c.n, s.epoch, s.queued, s.wire)
    && RoundsOk(c.n, s.epoch, s.rounds, s.wire)
    && IncompleteOk(c.n, s.epoch, s.chain, s.incomplete, s.wire, s.Known(), s.invalid)
  }

  /** The committed transactions are those of the chain; none is still in the pool, and no propose has one. */
  ghost predicate CommittedOk(
    proposes: Proposes, chain: seq<Block>, txCache: set<Tx>, pool: set<Tx>, committed: set<Tx>)
  {
    && committed == ChainTxs(chain)
    && committed !! txCache + pool
    && forall p, t :: p in proposes && t in p.txs ==> t !in committed
  }

  /** What is in the pool passed the check, on the last block or on one before it. */
  ghost predicate PoolOk(check: Check, chain: seq<Block>, txCache: set<Tx>, pool: set<Tx>) {
    forall t :: t in txCache + pool ==> Passed(check, chain, t)
  }

  /** Some round of `(r, q]` has +2/3 counted prevotes for `p`. */
  ghost predicate CountedBetween(n: nat, prevotes: Prevotes, p: Propose, r: nat, q: nat) {
    exists x :: r < x <= q && Majority(n, prevotes, (x, p))
  }

  /** The lock, and every own prevote against an own precommit of an earlier round, rests on +2/3 counted prevotes. */
  ghost predicate LocksOk(
    n: nat, lockedRound: nat, locked: Option<Propose>, prevotes: Prevotes, own: map<nat, Prevote>,
    sent: map<nat, Precommit>)
  {
    && (lockedRound > 0 ==> locked.Some? && Majority(n, prevotes, (lockedRound, locked.value)))
    && forall r, q :: r in sent && q in own && r < q && own[q].propose != sent[r].propose
         ==> CountedBetween(n, prevotes, own[q].propose, r, q)
  }

  /** What a node needs to prevote: no lock, the lock itself, or +2/3 counted prevotes. */
  ghost predicate Grounded(c: Config, s: State, r: nat, p: Propose) {
    s.lockedRound == 0 || s.lockedPropose == Some(p) || Majority(c.n, s.prevotes, (r, p))
  }

  ghost predicate Ok(c: Config, s: State) {
    && c.n > 0
    && (c.id.Some? ==> c.id.value < c.n)
    && IsChain(s.chain)
    && s.lockedRound <= s.round
    && (s.lockedRound == 0 <==> s.lockedPropose == None)
    && VotesOk(c, s)
    && ProposalsOk(c, s)
    && PendingOk(c, s)
    && CommittedOk(s.proposes, s.chain, s.txCache, s.pool, s.committed)
    && PoolOk(c.check, s.chain, s.txCache, s.pool)
    && LocksOk(c.n, s.lockedRound, s.lockedPropose, s.prevotes, s.ourPrevotes, s.ourPrecommits)
  }

  // ---- Nothing that could be acted on is left waiting

  /** Except for `except`, every complete propose with +2/3 prevotes in a round is locked on in that round or later. */
  ghost predicate NoMissedLock(n: nat, proposes: Proposes, prevotes: Prevotes, lockedRound: nat, except: set<Propose>) {
    forall k :: k in prevotes && Majority(n, prevotes, k) && k.1 !in except && Full(proposes, k.1) && k.1.round <= k.0
      ==> k.0 <= lockedRound
  }

  /** The same for one propose and the rounds before `upTo`. */
  ghost predicate LockedUpTo(n: nat, prevotes: Prevotes, lockedRound: nat, p: Propose, upTo: nat) {
    forall k :: k in prevotes && Majority(n, prevotes, k) && k.1 == p && p.round <= k.0 < upTo ==> k.0 <= lockedRound
  }

  /** An unlocked validator has prevoted in the round of every complete and valid propose. */
  ghost predicate PrevotedAll(
    id: Option<nat>, lockedRound: nat, proposes: Proposes, own: map<nat, Prevote>, except: set<Propose>)
  {
    id.Some? && lockedRound == 0 ==>
      forall p :: p !in except && Full(proposes, p) && proposes[p].valid ==> p.round in own
  }

  /** A validator has precommitted its lock, unless it had prevoted for another propose in a later round. */
  ghost predicate PrecommittedLock(c: Config, s: State) {
    c.id.Some? && s.lockedRound > 0 ==> (s.lockedRound in s.ourPrecommits <==> NoIncompatiblePrevotes(s))
  }

  /**
   A block with +2/3 precommits is uncommitted only while a propose named by one of them is waited for. That may be one
   which an honest node never gets, while the block's own propose is complete: see `Findings.CompleteBlockWaits`.
   */
  ghost predicate NoMissedCommit(
    n: nat, e: nat, precommits: Precommits, confirmed: map<Propose, (nat, Block)>, w: Wire)
  {
    forall k :: Majority(n, precommits, k) ==> exists p :: p in confirmed && Named(e, k.0, p, k.1, w)
  }

  /** A confirmed propose is incomplete, unless it is one of the node's own that was confirmed before it was sent. */
  ghost predicate ConfirmedWait(
    id: Option<nat>, confirmed: map<Propose, (nat, Block)>, proposes: Proposes, except: set<Propose>)
  {
    forall p :: p in confirmed && p !in except && Full(proposes, p) ==> id == Some(p.validator)
  }

  ghost predicate QueueFuture(e: nat, round: nat, queued: seq<Message>) {
    forall m :: m in queued ==> m.Epoch() == e + 1 || (m.Epoch() == e && m.Round() > round)
  }

  /** The above together, except for the proposes in `except` and for voting in a round just entered. */
  ghost predicate SettledInRound(c: Config, s: State, except: set<Propose>) {
    && NoMissedLock(c.n, s.proposes, s.prevotes, s.lockedRound, except)
    && PrevotedAll(c.id, s.lockedRound, s.proposes, s.ourPrevotes, except)
    && PrecommittedLock(c, s)
    && NoMissedCommit(c.n, s.epoch, s.precommits, s.confirmed, s.wire)
    && ConfirmedWait(c.id, s.confirmed, s.proposes, except)
  }

  /** A locked validator has also prevoted in its round. */
  ghost predicate SettledBut(c: Config, s: State, except: set<Propose>) {
    SettledInRound(c, s, except) && (c.id.Some? && s.lockedRound > 0 ==> s.round in s.ourPrevotes)
  }

  /**
   Nothing is left that the code would have acted on: no vote, no lock, no confirmed propose of another validator that
   is complete, no queued message of this round, no complete block of a response.
   */
  ghost predicate Settled(c: Config, s: State) {
    && SettledBut(c, s, {})
    && QueueFuture(s.epoch, s.round, s.queued)
    && BlockWaits(s)
  }

  ghost predicate QueueWithin(s: State, bound: nat) {
    forall m :: m in s.queued ==> m.Epoch() <= bound
  }

  // ---- When a node gives up

  /** A committed transaction outside the pool makes a propose unacceptable. */
  predicate RefusedTx(s: State, t: Tx) {
    t !in s.txCache && t !in s.pool && t in s.committed
  }

  /** +2/3 prevotes for a propose with an invalid transaction. */
  ghost predicate InvalidPrevoted(n: nat, s: State) {
    exists k :: Majority(n, s.prevotes, k) && k.1 in s.proposes && !s.proposes[k.1].valid
  }

  /** +2/3 precommits for a block, one of which names a propose that is invalid or executes to another block. */
  ghost predicate WrongBlock(n: nat, s: State) {
    exists r, p, b ::
      && Majority(n, s.precommits, (r, b)) && Named(s.epoch, r, p, b, s.wire)
      && p in s.proposes && (!s.proposes[p].valid || BlockOf(p) != b)
  }

  /** A block to be committed that belongs to an earlier epoch. */
  ghost predicate BackInTime(c: Config, s: State) {
    exists b, r :: MayCommit(c.n, s.View(c), s.wire, b, r) && b.epoch.value < s.epoch
  }

  /** A block with +2/3 precommits that has a committed or an invalid transaction or executes to another block. */
  ghost predicate BadBlock(c: Config, s: State)
    requires |s.chain| > 0
  {
    exists b, txs ::
      && BlockAccepted(c.n, s.epoch, s.chain, b, txs, s.wire)
      && (|| (exists t :: t in txs && (RefusedTx(s, t) || (t in s.invalid && t !in s.Known())))
          || CreateBlock(Last(s.chain), b.proposer.value, b.epoch.value, b.txs, b.skip) != b)
  }

  /** The states in which a node panics. */
  ghost predicate Stuck(c: Config, s: State) {
    && |s.chain| > 0
    && (|| InvalidPrevoted(c.n, s)
        || WrongBlock(c.n, s)
        || BackInTime(c, s)
        || BadBlock(c, s)
        || (s.incomplete.Some? && s.invalid != {}))
  }

  // ---- When a message or a transaction makes a node panic, as can be told before

  /**
   Once complete, a propose is rejected although it has +2/3 prevotes, or executes to another block than precommitted.
   */
  ghost predicate BadVotes(c: Config, s: State, p: Propose, valid: bool) {
    || (!valid && exists r :: s.lockedRound < r <= s.round && p.round <= r && Majority(c.n, s.prevotes, (r, p)))
    || (p in s.confirmed && BlockOf(p) != s.confirmed[p].1)
  }

  /** The first half of that, for the rounds before `upTo`. */
  ghost predicate InvalidMajority(c: Config, s: State, p: Propose, upTo: nat) {
    && p in s.proposes && !s.proposes[p].valid
    && exists r :: s.lockedRound < r < upTo && p.round <= r && Majority(c.n, s.prevotes, (r, p))
  }

  ghost predicate FullPanics(c: Config, s: State, p: Propose) {
    p in s.proposes && BadVotes(c, s, p, s.proposes[p].valid)
  }

  /** A new propose all of whose transactions have been received, and which is bad. */
  ghost predicate ProposePanics(c: Config, s: State, p: Propose) {
    && p !in s.proposes
    && (forall t :: t in p.txs ==> !RefusedTx(s, t) && (t in s.Known() || t in s.invalid))
    && BadVotes(c, s, p, forall t :: t in p.txs ==> t !in s.invalid)
  }

  /** The prevote completes +2/3 for a complete propose with an invalid transaction, in a round after the lock. */
  ghost predicate PrevotePanics(c: Config, s: State, m: Prevote) {
    var k := (m.round, m.propose);
    && m.validator < c.n && Sized(c.n, s.prevotes, k)
    && Majority(c.n, InsertVote(c.n, s.prevotes, k, PrevoteMsg(m)), k)
    && s.lockedRound < m.round
    && Full(s.proposes, m.propose) && !s.proposes[m.propose].valid
  }

  /** With the precommit its block has +2/3. */
  ghost predicate Completes(c: Config, s: State, m: Precommit) {
    var k := (m.round, m.block);
    && m.validator < c.n && Sized(c.n, s.precommits, k)
    && Majority(c.n, InsertVote(c.n, s.precommits, k, PrecommitMsg(m)), k)
  }

  /** The precommit completes +2/3 for its block, but the propose it names is invalid or executes to another block. */
  ghost predicate PrecommitPanics(c: Config, s: State, m: Precommit) {
    && Completes(c, s, m)
    && Full(s.proposes, m.propose) && (!s.proposes[m.propose].valid || BlockOf(m.propose) != m.block)
  }

  ghost predicate MessagePanics(c: Config, s: State, m: Message) {
    && s.enabled && m.Epoch() == s.epoch && m.Round() <= s.round
    && match m {
         case ProposeMsg(p) => Proposable(c, s, p) && ProposePanics(c, s, p)
         case PrevoteMsg(v) => PrevotePanics(c, s, v)
         case PrecommitMsg(v) => PrecommitPanics(c, s, v)
       }
  }

  /** A transaction that no block to come may have. */
  ghost predicate BadTx(s: State, t: Tx) { RefusedTx(s, t) || (t in s.invalid && t !in s.Known()) }

  /** The block executes to another one, or is of an earlier epoch. */
  ghost predicate BlockPanics(s: State, b: Block) {
    && |s.chain| > 0 && b.Block? && b.epoch.Some? && b.proposer.Some?
    && (CreateBlock(Last(s.chain), b.proposer.value, b.epoch.value, b.txs, b.skip) != b || b.epoch.value < s.epoch)
  }

  /** An accepted block that was not executed yet has a bad transaction, or is complete and panics itself. */
  ghost predicate ResponsePanics(s: State, b: Block, txs: seq<Tx>) {
    if b in s.blocks then BlockPanics(s, b)
    else (exists t :: t in txs && BadTx(s, t)) || ((forall t :: t in txs ==> t in s.Known()) && BlockPanics(s, b))
  }

  /**
   A propose it completes is bad, or it is invalid while a block is incomplete, or it completes a block that panics.
   */
  ghost predicate TxPanics(c: Config, s: State, tx: Tx, ok: bool, persist: bool) {
    || (exists p ::
          Full(TxReceived(s, tx, ok, persist).proposes, p) && FullPanics(c, TxReceived(s, tx, ok, persist), p))
    || BlockTxPanics(s, tx, ok)
  }

  ghost predicate BlockTxPanics(s: State, tx: Tx, ok: bool) {
    s.incomplete.Some? && (!ok || (s.incomplete.value.unknown <= {tx} && BlockPanics(s, s.incomplete.value.block)))
  }

  /** The block is the next of the chain. */
  ghost predicate Committing(chain: seq<Block>, b: Block, chain': seq<Block>) {
    b.Block? && (if b.skip then chain else chain + [b]) <= chain'
  }

  lemma FullPanicsIs(c: Config, s: State, p: Propose)
    requires p in s.proposes
    ensures FullPanics(c, s, p) <==>
      InvalidMajority(c, s, p, s.round + 1) || (p in s.confirmed && BlockOf(p) != s.confirmed[p].1)
    ensures s.proposes[p].valid ==> !InvalidMajority(c, s, p, s.round + 1)
  {
  }

  lemma AddedPanics(c: Config, s: State, p: Propose, ps: ProposeState)
    requires p !in s.proposes && Tracked(p, ps, s.Known(), s.invalid) && forall t :: t in p.txs ==> !RefusedTx(s, t)
    ensures ProposePanics(c, s, p) <==> ps.unknown == {} && FullPanics(c, s.(proposes := s.proposes[p := ps]), p)
  {
    assert ps.unknown == {} <==> forall t :: t in p.txs ==> t in s.Known() || t in s.invalid by {
      if ps.unknown == {} {
        forall t | t in p.txs ensures t in s.Known() || t in s.invalid {
          assert t !in ps.unknown;
        }
      }
    }
  }

  lemma NotAddedPanics(c: Config, s: State, p: Propose)
    requires p in s.proposes || exists t :: t in p.txs && RefusedTx(s, t)
    ensures !ProposePanics(c, s, p)
  {
  }

  lemma PrevotePanicsIs(c: Config, s: State, m: Prevote)
    requires m.validator < c.n && Sized(c.n, s.prevotes, (m.round, m.propose))
    ensures PrevotePanics(c, s, m) <==>
      && Majority(c.n, PrevoteGot(c, s, m).prevotes, (m.round, m.propose))
      && s.lockedRound < m.round && Full(s.proposes, m.propose) && !s.proposes[m.propose].valid
  {
  }

  lemma PrecommitPanicsIs(c: Config, s: State, m: Precommit)
    requires m.validator < c.n && Sized(c.n, s.precommits, (m.round, m.block))
    ensures Completes(c, s, m) <==> Majority(c.n, PrecommitGot(c, s, m).precommits, (m.round, m.block))
    ensures PrecommitPanics(c, s, m) <==>
      && Majority(c.n, PrecommitGot(c, s, m).precommits, (m.round, m.block))
      && Full(s.proposes, m.propose) && (!s.proposes[m.propose].valid || BlockOf(m.propose) != m.block)
  {
  }

  // ---- Majorities are quorums

  lemma MajorityIsPrevoteQuorum(c: Config, s: State, r: nat, p: Propose)
    requires Ok(c, s) && Majority(c.n, s.prevotes, (r, p))
    ensures PrevoteQuorum(c.n, s.wire, s.epoch, r, p)
    ensures r <= s.round
  {
    CountedPrevotesAreQuorum(c.n, s.prevotes[(r, p)], s.wire, s.epoch, r, p);
  }

  lemma MajorityIsPrecommitQuorum(c: Config, s: State, r: nat, b: Block)
    requires Ok(c, s) && Majority(c.n, s.precommits, (r, b))
    ensures PrecommitQuorum(c.n, s.wire, s.epoch, r, b)
  {
    PrecommitsAreQuorum(c.n, s.precommits[(r, b)].messages, s.wire, s.epoch, r, b);
  }

  // ---- The wire grows

  lemma {:induction false} PendingPersists(c: Config, s: State, w: Wire)
    requires |s.chain| > 0 && PendingOk(c, s) && s.wire <= w
    ensures PendingOk(c, s.(wire := w))
  {
    forall m | m in s.wire ensures m in w {}
    forall v | v in s.rounds && s.rounds[v] > 0 ensures Announced(s.epoch, v, s.rounds[v], w) {
      var x :| x in s.wire && x.Validator() == v && x.Round() == s.rounds[v] && s.epoch <= x.Epoch() <= s.epoch + 1;
      assert x in w;
    }
    if s.incomplete.Some? {
      var b := s.incomplete.value.block;
      var r :| PrecommitQuorum(c.n, s.wire, b.epoch.value, r, b);
      QuorumsPersist(c.n, s.wire, w, b.epoch.value, r);
    }
  }

  // ---- Sending a prevote

  ghost function OwnPrevote(c: Config, s: State, r: nat, p: Propose): Prevote
    requires c.id.Some?
  {
    Prevote(c.id.value, s.epoch, r, p, s.lockedRound)
  }

  ghost function PrevoteSent(c: Config, s: State, r: nat, p: Propose): State
    requires c.id.Some? && c.id.value < c.n && Sized(c.n, s.prevotes, (r, p))
  {
    var m := OwnPrevote(c, s, r, p);
    s.(prevotes := InsertVote(c.n, s.prevotes, (r, p), PrevoteMsg(m)),
       ourPrevotes := s.ourPrevotes[r := m],
       wire := s.wire + [PrevoteMsg(m)])
  }

  lemma PrevoteReady(c: Config, s: State, r: nat, p: Propose)
    requires Ok(c, s) && MayPrevote(c.n, s.View(c), s.wire, r, p)
    ensures c.id.Some? && c.id.value < c.n && r !in s.ourPrevotes && Sized(c.n, s.prevotes, (r, p))
    ensures Enabled(c.n, s.View(c), s.wire, SendPrevote(r, p))
  {
  }

  lemma PrevoteCounted(n: nat, e: nat, round: nat, votes: Prevotes, w: Wire, m: Prevote)
    requires PrevotesOk(n, e, round, votes, w)
    requires m.validator < n && m.epoch == e && m.round <= round
    ensures Sized(n, votes, (m.round, m.propose))
    ensures PrevotesOk(n, e, round, InsertVote(n, votes, (m.round, m.propose), PrevoteMsg(m)), w + [PrevoteMsg(m)])
  {
  }

  lemma OwnPrevoteSent(l: Local, own: map<nat, Prevote>, ownPrecommits: map<nat, Precommit>, w: Wire, m: Prevote)
    requires l.id == Some(m.validator) && m.epoch == l.epoch && m.round <= l.round && m.round !in own
    requires OwnPrevotesOk(l.id, l.epoch, own, w) && OwnPrecommitsOk(l.id, l.epoch, ownPrecommits, w)
    requires OwnVotes(l, m.validator, w)
    ensures OwnPrevotesOk(l.id, l.epoch, own[m.round := m], w + [PrevoteMsg(m)])
    ensures OwnPrecommitsOk(l.id, l.epoch, ownPrecommits, w + [PrevoteMsg(m)])
    ensures OwnVotes(l, m.validator, w + [PrevoteMsg(m)])
  {
  }

  lemma PrecommitsPersist(n: nat, e: nat, votes: Precommits, w: Wire, m: Message)
    requires PrecommitsOk(n, e, votes, w)
    ensures PrecommitsOk(n, e, votes, w + [m])
  {
  }

  lemma PrevoteSentGets(c: Config, s: State, r: nat, p: Propose)
    requires |s.chain| > 0 && MayPrevote(c.n, s.View(c), s.wire, r, p) && c.id.value < c.n
    requires Sized(c.n, s.prevotes, (r, p))
    ensures Gets(c, s, PrevoteSent(c, s, r, p))
  {
    ReachesOne(c.n, s.View(c), s.wire, SendPrevote(r, p));
  }

  lemma PrevoteSentKeeps(c: Config, s: State, r: nat, p: Propose)
    requires Ok(c, s) && MayPrevote(c.n, s.View(c), s.wire, r, p) && Grounded(c, s, r, p)
    ensures c.id.Some? && c.id.value < c.n && Sized(c.n, s.prevotes, (r, p)) && r !in s.ourPrevotes
    ensures Ok(c, PrevoteSent(c, s, r, p))
    ensures Gets(c, s, PrevoteSent(c, s, r, p))
  {
    hide LocksOk, CommittedOk, Gets, PrevoteQuorum;
    PrevoteReady(c, s, r, p);
    var m := OwnPrevote(c, s, r, p);
    PrevoteCounted(c.n, s.epoch, s.round, s.prevotes, s.wire, m);
    OwnPrevoteSent(s.View(c), s.ourPrevotes, s.ourPrecommits, s.wire, m);
    PrecommitsPersist(c.n, s.epoch, s.precommits, s.wire, PrevoteMsg(m));
    PendingPersists(c, s, s.wire + [PrevoteMsg(m)]);
    PrevoteSentGets(c, s, r, p);
    PrevoteSentProposals(c, s, r, p);
    PrevoteSentLocks(c, s, r, p);
    var s' := PrevoteSent(c, s, r, p);
    PendingIgnoresVotes(c, s.(wire := s'.wire), s');
  }

  lemma {:induction false} MajorityGrows<K>(n: nat, votes: map<K, Votes>, k: K, m: Message)
    requires m.Validator() < n && Sized(n, votes, k)
    ensures forall k' :: Majority(n, votes, k') ==> Majority(n, InsertVote(n, votes, k, m), k')
  {
  }

  lemma VotesKeepLocks(n: nat, s: State, k: (nat, Propose), m: Message)
    requires m.Validator() < n && Sized(n, s.prevotes, k)
    requires LocksOk(n, s.lockedRound, s.lockedPropose, s.prevotes, s.ourPrevotes, s.ourPrecommits)
    ensures LocksOk(n, s.lockedRound, s.lockedPropose, InsertVote(n, s.prevotes, k, m), s.ourPrevotes, s.ourPrecommits)
  {
    hide Majority, InsertVote;
    MajorityGrows(n, s.prevotes, k, m);
  }

  lemma PrevoteSentLocks(c: Config, s: State, r: nat, p: Propose)
    requires VotesOk(c, s) && MayPrevote(c.n, s.View(c), s.wire, r, p) && Grounded(c, s, r, p)
    requires LocksOk(c.n, s.lockedRound, s.lockedPropose, s.prevotes, s.ourPrevotes, s.ourPrecommits)
    requires c.id.Some? && c.id.value < c.n && Sized(c.n, s.prevotes, (r, p)) && r !in s.ourPrevotes
    ensures var s' := PrevoteSent(c, s, r, p);
      LocksOk(c.n, s'.lockedRound, s'.lockedPropose, s'.prevotes, s'.ourPrevotes, s'.ourPrecommits)
  {
    hide VotesOk, MayPrevote, Grounded, Majority, InsertVote, Sized;
    var s' := PrevoteSent(c, s, r, p);
    MajorityGrows(c.n, s.prevotes, (r, p), PrevoteMsg(OwnPrevote(c, s, r, p)));
    forall r0, q | r0 in s'.ourPrecommits && q in s'.ourPrevotes && r0 < q
      && s'.ourPrevotes[q].propose != s'.ourPrecommits[r0].propose
      ensures CountedBetween(c.n, s'.prevotes, s'.ourPrevotes[q].propose, r0, q)
    {
      if q == r {
        CountedBeforePrevote(c, s, r, p, r0);
      }
      var x :| r0 < x <= q && Majority(c.n, s.prevotes, (x, s'.ourPrevotes[q].propose));
      assert Majority(c.n, s'.prevotes, (x, s'.ourPrevotes[q].propose));
    }
  }

  /** Before it prevotes against a precommit of an earlier round, a node has counted a newer quorum. */
  lemma CountedBeforePrevote(c: Config, s: State, r: nat, p: Propose, r0: nat)
    requires VotesOk(c, s) && MayPrevote(c.n, s.View(c), s.wire, r, p) && Grounded(c, s, r, p)
    requires LocksOk(c.n, s.lockedRound, s.lockedPropose, s.prevotes, s.ourPrevotes, s.ourPrecommits)
    requires r0 in s.ourPrecommits && r0 < r && s.ourPrecommits[r0].propose != p
    ensures CountedBetween(c.n, s.prevotes, p, r0, r)
  {
    assert IsPrecommit(PrecommitMsg(s.ourPrecommits[r0]), c.id.value, s.epoch);
    assert 0 < r0 <= s.lockedRound < r;
    if s.lockedPropose == Some(p) {
      assert r0 < s.lockedRound && Majority(c.n, s.prevotes, (s.lockedRound, p));
    } else {
      assert Majority(c.n, s.prevotes, (r, p));
    }
  }

  /** Lock justification as the node sees it: the newer quorum is one that it has counted. */
  lemma CountedLockJustification(c: Config, s: State, m: Message, v: Message)
    requires Ok(c, s) && c.id.Some? && m in s.wire && IsPrecommit(m, c.id.value, s.epoch)
    requires v in s.wire && IsPrevote(v, c.id.value, s.epoch) && m.precommit.round < v.prevote.round
    ensures v.prevote.propose == m.precommit.propose
      || CountedBetween(c.n, s.prevotes, v.prevote.propose, m.precommit.round, v.prevote.round)
  {
    assert s.ourPrevotes[v.prevote.round] == v.prevote && s.ourPrecommits[m.precommit.round] == m.precommit;
  }

  lemma PrevoteSentProposals(c: Config, s: State, r: nat, p: Propose)
    requires |s.chain| > 0 && c.id.Some? && c.id.value < c.n && Sized(c.n, s.prevotes, (r, p))
    requires ProposalsOk(c, s)
    ensures ProposalsOk(c, PrevoteSent(c, s, r, p))
  {
  }

  /** The votes are no part of what is pending. */
  lemma PendingIgnoresVotes(c: Config, s: State, s': State)
    requires |s.chain| > 0 && PendingOk(c, s)
    requires s' == s.(prevotes := s'.prevotes, precommits := s'.precommits, ourPrevotes := s'.ourPrevotes,
                      ourPrecommits := s'.ourPrecommits, lockedRound := s'.lockedRound,
                      lockedPropose := s'.lockedPropose, proposes := s'.proposes, blocks := s'.blocks,
                      confirmed := s'.confirmed)
    ensures PendingOk(c, s')
  {
  }

  // ---- Receiving votes

  ghost function PrevoteGot(c: Config, s: State, m: Prevote): State
    requires m.validator < c.n && Sized(c.n, s.prevotes, (m.round, m.propose))
  {
    s.(prevotes := InsertVote(c.n, s.prevotes, (m.round, m.propose), PrevoteMsg(m)))
  }

  lemma PrevoteGotKeeps(c: Config, s: State, m: Prevote)
    requires Ok(c, s) && PrevoteMsg(m) in s.wire
    requires m.validator < c.n && m.epoch == s.epoch && m.round <= s.round
    ensures Sized(c.n, s.prevotes, (m.round, m.propose))
    ensures Ok(c, PrevoteGot(c, s, m))
    ensures c.id == Some(m.validator) ==> m.round in s.ourPrevotes && s.ourPrevotes[m.round] == m
  {
    hide LocksOk, CommittedOk, PrevotesOk, PrecommitsOk, OwnPrecommitsOk, OwnVotes, ConfirmedOk, PendingOk;
    hide ProposesOk, LeadersOk, TrackingOk, InvalidOk, LockOk;
    assert IsPrevote(PrevoteMsg(m), m.validator, m.epoch);
    ReceivedPrevoteCounted(c.n, s.epoch, s.round, s.prevotes, s.wire, m);
    VotesKeepLocks(c.n, s, (m.round, m.propose), PrevoteMsg(m));
    PendingIgnoresVotes(c, s, PrevoteGot(c, s, m));
  }

  lemma ReceivedPrevoteCounted(n: nat, e: nat, round: nat, votes: Prevotes, w: Wire, m: Prevote)
    requires PrevotesOk(n, e, round, votes, w)
    requires m.validator < n && m.epoch == e && m.round <= round && PrevoteMsg(m) in w
    ensures Sized(n, votes, (m.round, m.propose))
    ensures PrevotesOk(n, e, round, InsertVote(n, votes, (m.round, m.propose), PrevoteMsg(m)), w)
  {
  }

  ghost function PrecommitGot(c: Config, s: State, m: Precommit): State
    requires m.validator < c.n && Sized(c.n, s.precommits, (m.round, m.block))
  {
    s.(precommits := InsertVote(c.n, s.precommits, (m.round, m.block), PrecommitMsg(m)))
  }

  lemma PrecommitGotKeeps(c: Config, s: State, m: Precommit)
    requires Ok(c, s) && PrecommitMsg(m) in s.wire
    requires m.validator < c.n && m.epoch == s.epoch
    ensures Sized(c.n, s.precommits, (m.round, m.block))
    ensures Ok(c, PrecommitGot(c, s, m))
    ensures c.id == Some(m.validator) ==> m.round in s.ourPrecommits && s.ourPrecommits[m.round] == m
  {
    hide LocksOk, CommittedOk, PrevotesOk, PrecommitsOk, OwnPrevotesOk, OwnVotes, ConfirmedOk, PendingOk;
    hide ProposesOk, LeadersOk, TrackingOk, InvalidOk, LockOk;
    assert IsPrecommit(PrecommitMsg(m), m.validator, m.epoch);
    PrecommitCounted(c.n, s.epoch, s.precommits, s.wire, m);
    var s' := PrecommitGot(c, s, m);
    PendingIgnoresVotes(c, s, s');
    MajorityGrows(c.n, s.precommits, (m.round, m.block), PrecommitMsg(m));
    ConfirmedStay(c.n, s.epoch, s.confirmed, s.precommits, s'.precommits, s.wire, s'.wire);
  }

  lemma PrecommitCounted(n: nat, e: nat, votes: Precommits, w: Wire, m: Precommit)
    requires PrecommitsOk(n, e, votes, w)
    requires m.validator < n && m.epoch == e && PrecommitMsg(m) in w
    ensures Sized(n, votes, (m.round, m.block))
    ensures PrecommitsOk(n, e, InsertVote(n, votes, (m.round, m.block), PrecommitMsg(m)), w)
  {
  }

  lemma ConfirmedStay(
    n: nat, e: nat, confirmed: map<Propose, (nat, Block)>, votes: Precommits, votes': Precommits, w: Wire, w': Wire)
    requires ConfirmedOk(n, e, confirmed, votes, w) && w <= w'
    requires forall k :: Majority(n, votes, k) ==> Majority(n, votes', k)
    ensures ConfirmedOk(n, e, confirmed, votes', w')
  {
  }

  // ---- Locking and precommitting

  ghost function LockedOn(s: State, r: nat, p: Propose): State {
    s.(lockedRound := r, lockedPropose := Some(p))
  }

  lemma LockedOnKeeps(c: Config, s: State, r: nat, p: Propose)
    requires Ok(c, s) && s.lockedRound < r && Majority(c.n, s.prevotes, (r, p))
    requires Full(s.proposes, p) && s.proposes[p].valid
    ensures Ok(c, LockedOn(s, r, p))
    ensures Gets(c, s, LockedOn(s, r, p))
  {
    MajorityIsPrevoteQuorum(c, s, r, p);
    assert Enabled(c.n, s.View(c), s.wire, Lock(r, p));
    ReachesOne(c.n, s.View(c), s.wire, Lock(r, p));
    PendingIgnoresVotes(c, s, LockedOn(s, r, p));
  }

  /** A later prevote of the node is for another propose than the locked one. */
  predicate Incompatible(own: map<nat, Prevote>, lockedPropose: Option<Propose>, r: nat) {
    r in own && Some(own[r].propose) != lockedPropose
  }

  ghost predicate NoIncompatiblePrevotes(s: State) {
    forall r :: s.lockedRound < r <= s.round ==> !Incompatible(s.ourPrevotes, s.lockedPropose, r)
  }

  ghost function OwnPrecommit(c: Config, s: State, t: int): Precommit
    requires c.id.Some? && s.lockedPropose.Some?
  {
    Precommit(c.id.value, s.epoch, s.lockedRound, s.lockedPropose.value, BlockOf(s.lockedPropose.value), t)
  }

  ghost predicate CanPrecommit(c: Config, s: State) {
    && c.id.Some?
    && c.id.value < c.n
    && s.lockedPropose.Some?
    && Sized(c.n, s.precommits, (s.lockedRound, BlockOf(s.lockedPropose.value)))
  }

  ghost function PrecommitSent(c: Config, s: State, t: int): State
    requires CanPrecommit(c, s)
  {
    var m := OwnPrecommit(c, s, t);
    s.(precommits := InsertVote(c.n, s.precommits, (m.round, m.block), PrecommitMsg(m)),
       ourPrecommits := s.ourPrecommits[m.round := m],
       wire := s.wire + [PrecommitMsg(m)])
  }

  lemma PrecommitReady(c: Config, s: State)
    requires Ok(c, s) && c.id.Some? && s.lockedRound > 0 && s.lockedRound !in s.ourPrecommits
    requires NoIncompatiblePrevotes(s)
    ensures CanPrecommit(c, s) && MayPrecommit(s.View(c), s.wire)
  {
    var p := s.lockedPropose.value;
    forall m | m in s.wire && IsPrevote(m, c.id.value, s.epoch) && m.prevote.round > s.lockedRound
      ensures m.prevote.propose == p
    {
      assert !Incompatible(s.ourPrevotes, s.lockedPropose, m.prevote.round);
    }
  }

  lemma OwnPrecommitSent(l: Local, own: map<nat, Prevote>, ownPrecommits: map<nat, Precommit>, w: Wire, m: Precommit)
    requires l.id == Some(m.validator) && m.epoch == l.epoch && m.round == l.lockedRound > 0
    requires m.round !in ownPrecommits
    requires l.lockedPropose == Some(m.propose)
    requires OwnPrevotesOk(l.id, l.epoch, own, w) && OwnPrecommitsOk(l.id, l.epoch, ownPrecommits, w)
    requires OwnVotes(l, m.validator, w)
    ensures OwnPrevotesOk(l.id, l.epoch, own, w + [PrecommitMsg(m)])
    ensures OwnPrecommitsOk(l.id, l.epoch, ownPrecommits[m.round := m], w + [PrecommitMsg(m)])
    ensures OwnVotes(l, m.validator, w + [PrecommitMsg(m)])
  {
  }

  lemma PrevotesPersist(n: nat, e: nat, round: nat, votes: Prevotes, w: Wire, m: Message)
    requires PrevotesOk(n, e, round, votes, w)
    ensures PrevotesOk(n, e, round, votes, w + [m])
  {
  }

  lemma PrecommitSentKeeps(c: Config, s: State, t: int)
    requires Ok(c, s) && c.id.Some? && s.lockedRound > 0 && s.lockedRound !in s.ourPrecommits
    requires NoIncompatiblePrevotes(s)
    ensures CanPrecommit(c, s)
    ensures Ok(c, PrecommitSent(c, s, t))
    ensures Gets(c, s, PrecommitSent(c, s, t))
  {
    hide LocksOk, CommittedOk, VotesOk;
    PrecommitReady(c, s);
    var m := OwnPrecommit(c, s, t);
    var w := s.wire + [PrecommitMsg(m)];
    PrecommitSentLocks(c, s, t);
    PrecommitSentVotesOk(c, s, t);
    PendingPersists(c, s, w);
    assert Enabled(c.n, s.View(c), s.wire, SendPrecommit(t));
    ReachesOne(c.n, s.View(c), s.wire, SendPrecommit(t));
    PendingIgnoresVotes(c, s.(wire := w), PrecommitSent(c, s, t));
  }

  lemma PrecommitSentLocks(c: Config, s: State, t: int)
    requires Ok(c, s) && CanPrecommit(c, s) && NoIncompatiblePrevotes(s)
    ensures var s' := PrecommitSent(c, s, t);
      LocksOk(c.n, s'.lockedRound, s'.lockedPropose, s'.prevotes, s'.ourPrevotes, s'.ourPrecommits)
  {
    hide PrecommitsOk, PrevotesOk, OwnPrecommitsOk, ProposesOk, LeadersOk, TrackingOk, InvalidOk, PoolOk;
    hide PendingOk, CommittedOk;
    var s' := PrecommitSent(c, s, t);
    forall q | q in s.ourPrevotes && s.lockedRound < q ensures Some(s.ourPrevotes[q].propose) == s.lockedPropose {
      assert IsPrevote(PrevoteMsg(s.ourPrevotes[q]), c.id.value, s.epoch);
      assert !Incompatible(s.ourPrevotes, s.lockedPropose, q);
    }
  }

  lemma PrecommitSentVotesOk(c: Config, s: State, t: int)
    requires Ok(c, s) && CanPrecommit(c, s) && s.lockedRound !in s.ourPrecommits && NoIncompatiblePrevotes(s)
    ensures VotesOk(c, PrecommitSent(c, s, t))
  {
    hide LocksOk, CommittedOk, ProposalsOk, PendingOk;
    PrecommitReady(c, s);
    var m := OwnPrecommit(c, s, t);
    var w := s.wire + [PrecommitMsg(m)];
    PrecommitsPersist(c.n, s.epoch, s.precommits, s.wire, PrecommitMsg(m));
    PrecommitCounted(c.n, s.epoch, s.precommits, w, m);
    PrevotesPersist(c.n, s.epoch, s.round, s.prevotes, s.wire, PrecommitMsg(m));
    OwnPrecommitSent(s.View(c), s.ourPrevotes, s.ourPrecommits, s.wire, m);
    var s' := PrecommitSent(c, s, t);
    ConfirmedStay(c.n, s.epoch, s.confirmed, s.precommits, s'.precommits, s.wire, s'.wire);
  }

  // ---- Executing and confirming

  ghost function Executed(s: State, p: Propose): State
    requires p in s.proposes
  {
    s.(blocks := s.blocks + {BlockOf(p)}, proposes := s.proposes[p := s.proposes[p].(block := Some(BlockOf(p)))])
  }

  lemma ExecutedKeeps(c: Config, s: State, p: Propose)
    requires Ok(c, s) && p in s.proposes
    ensures Ok(c, Executed(s, p))
    ensures BlockOf(p) == CreateBlock(Last(s.chain), p.validator, p.epoch, p.txs, p.skip)
    ensures s.proposes[p].block.Some? ==> s.proposes[p].block.value == BlockOf(p) && Executed(s, p) == s
  {
    hide LocksOk, PrevotesOk, PrecommitsOk, OwnPrevotesOk, OwnPrecommitsOk, OwnVotes, ConfirmedOk, PendingOk, PoolOk;
    PendingIgnoresVotes(c, s, Executed(s, p));
    if s.proposes[p].block.Some? {
      assert Executed(s, p).proposes == s.proposes;
      assert Executed(s, p).blocks == s.blocks;
    }
  }

  ghost function Confirmed(s: State, p: Propose, r: nat, b: Block): State {
    s.(confirmed := s.confirmed[p := (r, b)])
  }

  lemma ConfirmedKeeps(c: Config, s: State, p: Propose, r: nat, b: Block)
    requires Ok(c, s) && Majority(c.n, s.precommits, (r, b)) && Named(s.epoch, r, p, b, s.wire)
    ensures Ok(c, Confirmed(s, p, r, b))
  {
    hide LocksOk, CommittedOk, PrevotesOk, PrecommitsOk, OwnPrevotesOk, OwnPrecommitsOk, OwnVotes;
    hide ProposesOk, LeadersOk, TrackingOk, InvalidOk, PoolOk, LockOk, PendingOk;
    PendingIgnoresVotes(c, s, Confirmed(s, p, r, b));
  }

  // ---- Rounds and epochs

  lemma AtRoundKeeps(c: Config, s: State, r: nat)
    requires Ok(c, s) && s.round < r
    ensures Ok(c, s.(round := r))
    ensures Gets(c, s, s.(round := r))
    ensures c.id.Some? ==> r !in s.ourPrevotes
    ensures s.(round := r).lockedRound < r
  {
    hide LocksOk, CommittedOk;
    assert Enabled(c.n, s.View(c), s.wire, AdvanceRound(r));
    ReachesOne(c.n, s.View(c), s.wire, AdvanceRound(r));
  }

  /** The state after `new_epoch`, or `new_height` for an ordinary block; the pool manager drops `dropped`. */
  ghost function Committed(s: State, b: Block, dropped: set<Tx>): State
    requires b.Block? && b.epoch.Some?
  {
    var txs := TxSet(b.txs);
    s.(epoch := b.epoch.value + 1,
       round := 1,
       lockedRound := 0,
       lockedPropose := None,
       chain := if b.skip then s.chain else s.chain + [b],
       proposes := map[],
       blocks := {},
       prevotes := map[],
       precommits := map[],
       ourPrevotes := map[],
       ourPrecommits := map[],
       confirmed := map[],
       rounds := map[],
       incomplete := None,
       txCache := s.txCache - txs - dropped,
       pool := if b.skip then s.pool - dropped else s.pool - txs - dropped,
       committed := if b.skip then s.committed else s.committed + txs,
       invalid := if b.skip then s.invalid else {})
  }

  /** In a later epoch the node has not voted yet. */
  lemma FreshEpoch(l: Local, l': Local, w: Wire)
    requires l.id.Some? && l'.id == l.id && l.epoch < l'.epoch
    requires OwnVotes(l, l.id.value, w)
    ensures OwnPrevotesOk(l.id, l'.epoch, map[], w) && OwnPrecommitsOk(l.id, l'.epoch, map[], w)
    ensures OwnVotes(l', l.id.value, w)
  {
    var e := l'.epoch;
    forall m | m in w && m.Validator() == l.id.value && !m.ProposeMsg? ensures m.Epoch() < e {}
    assert forall m :: m in w && IsPrevote(m, l.id.value, e) ==> m.Validator() == l.id.value && m.Epoch() == e;
    assert forall m :: m in w && IsPrecommit(m, l.id.value, e) ==> m.Validator() == l.id.value && m.Epoch() == e;
  }

  lemma CommittedKeeps(c: Config, s: State, b: Block, r: nat, dropped: set<Tx>)
    requires Ok(c, s) && MayCommit(c.n, s.View(c), s.wire, b, r) && b.epoch.value >= s.epoch
    ensures Ok(c, Committed(s, b, dropped))
    ensures Gets(c, s, Committed(s, b, dropped))
  {
    hide LocksOk, CommittedOk, PoolOk, VotesOk, ProposalsOk, PendingOk, PrecommitQuorum, Gets;
    CommittedGets(c, s, b, r, dropped);
    if !b.skip {
      ChainGrows(s.chain, b);
    }
    CommittedVotes(c, s, b, dropped);
    CommittedPending(c, s, b, dropped);
    NothingLocked(c.n);
    CommittedTxs(s, b, dropped);
    CommittedPool(c.check, s, b, dropped);
  }

  lemma CommittedGets(c: Config, s: State, b: Block, r: nat, dropped: set<Tx>)
    requires MayCommit(c.n, s.View(c), s.wire, b, r) && b.epoch.value >= s.epoch
    ensures Gets(c, s, Committed(s, b, dropped))
  {
    assert Enabled(c.n, s.View(c), s.wire, Commit(b, r));
    ReachesOne(c.n, s.View(c), s.wire, Commit(b, r));
  }

  lemma CommittedVotes(c: Config, s: State, b: Block, dropped: set<Tx>)
    requires VotesOk(c, s) && b.Block? && b.epoch.Some? && b.epoch.value >= s.epoch
    ensures VotesOk(c, Committed(s, b, dropped))
  {
    hide OwnVotes, OwnPrevotesOk, OwnPrecommitsOk;
    if c.id.Some? {
      FreshEpoch(s.View(c), Committed(s, b, dropped).View(c), s.wire);
    } else {
      NothingOwn(c, Committed(s, b, dropped).epoch, s.wire);
    }
  }

  lemma CommittedPending(c: Config, s: State, b: Block, dropped: set<Tx>)
    requires |s.chain| > 0 && ProposalsOk(c, s) && PendingOk(c, s) && b.Block? && b.epoch.Some?
    requires b.epoch.value >= s.epoch
    ensures ProposalsOk(c, Committed(s, b, dropped)) && PendingOk(c, Committed(s, b, dropped))
  {
  }

  lemma NothingLocked(n: nat)
    ensures LocksOk(n, 0, None, map[], map[], map[])
  {
  }

  lemma NothingOwn(c: Config, e: nat, w: Wire)
    requires c.id.None?
    ensures OwnPrevotesOk(c.id, e, map[], w) && OwnPrecommitsOk(c.id, e, map[], w)
  {
  }

  lemma CommittedPool(check: Check, s: State, b: Block, dropped: set<Tx>)
    requires b.Block? && b.epoch.Some? && PoolOk(check, s.chain, s.txCache, s.pool)
    ensures var s' := Committed(s, b, dropped); PoolOk(check, s'.chain, s'.txCache, s'.pool)
  {
    var s' := Committed(s, b, dropped);
    forall t | t in s'.txCache + s'.pool ensures Passed(check, s'.chain, t) {
      assert t in s.txCache + s.pool;
      var x :| x in s.chain && check(x, t);
      assert x in s'.chain;
    }
  }

  lemma CommittedTxs(s: State, b: Block, dropped: set<Tx>)
    requires b.Block? && b.epoch.Some? && CommittedOk(s.proposes, s.chain, s.txCache, s.pool, s.committed)
    ensures var s' := Committed(s, b, dropped); CommittedOk(s'.proposes, s'.chain, s'.txCache, s'.pool, s'.committed)
  {
    assert (s.chain + [b])[..|s.chain|] == s.chain;
  }

  lemma CommittedIsSettled(c: Config, s: State, b: Block, dropped: set<Tx>)
    requires b.Block? && b.epoch.Some?
    ensures Settled(c, Committed(s, b, dropped).(queued := []))
  {
  }

  // ---- Messages from the future

  lemma QueueKeeps(c: Config, s: State, queued: seq<Message>)
    requires Ok(c, s)
    requires forall m :: m in queued ==> m in s.wire && m.Validator() < c.n && m.Epoch() <= s.epoch + 1
    ensures Ok(c, s.(queued := queued))
  {
  }

  lemma RoundKeeps(c: Config, s: State, v: nat, r: nat, m: Message)
    requires Ok(c, s) && v < c.n
    requires r > 0 ==> m in s.wire && m.Validator() == v && m.Round() == r && s.epoch <= m.Epoch() <= s.epoch + 1
    ensures Ok(c, s.(rounds := s.rounds[v := r]))
  {
    hide PrevotesOk, PrecommitsOk, OwnPrevotesOk, OwnPrecommitsOk, OwnVotes, ConfirmedOk, ProposesOk, LeadersOk;
    hide TrackingOk, InvalidOk, LockOk, CommittedOk, PoolOk, LocksOk, IncompleteOk, QueueOk;
    assert r > 0 ==> Announced(s.epoch, v, r, s.wire);
  }

  // ---- Proposes

  lemma ProposeAddedKeeps(c: Config, s: State, p: Propose, ps: ProposeState)
    requires Ok(c, s) && Led(c.n, c.id, s.epoch, p)
    requires p.epoch == s.epoch && p.round <= s.round && p.prev == Last(s.chain)
    requires ps.block == None && Tracked(p, ps, s.Known(), s.invalid) && forall t :: t in p.txs ==> !RefusedTx(s, t)
    ensures Ok(c, s.(proposes := s.proposes[p := ps]))
  {
    var s' := s.(proposes := s.proposes[p := ps]);
    PendingIgnoresVotes(c, s, s');
    VotesIgnoreProposals(c, s, s');
    AddedProposeTracked(s.proposes, p, ps, s.Known(), s.invalid, s.lockedPropose);
  }

  lemma AddedProposeTracked(
    proposes: Proposes, p: Propose, ps: ProposeState, known: set<Tx>, invalid: set<Tx>, locked: Option<Propose>)
    requires TrackingOk(proposes, known, invalid) && Tracked(p, ps, known, invalid) && LockOk(locked, proposes)
    ensures TrackingOk(proposes[p := ps], known, invalid) && LockOk(locked, proposes[p := ps])
    ensures p in proposes ==> proposes[p].unknown == ps.unknown && proposes[p].valid == ps.valid
  {
  }

  /** Messages of others, and the node's own proposes, leave the state consistent. */
  lemma DeliveredKeeps(c: Config, s: State, m: Message)
    requires Ok(c, s)
    requires m.ProposeMsg? || c.id != Some(m.Validator())
    ensures Ok(c, s.(wire := s.wire + [m]))
  {
    var s' := s.(wire := s.wire + [m]);
    PrevotesPersist(c.n, s.epoch, s.round, s.prevotes, s.wire, m);
    PrecommitsPersist(c.n, s.epoch, s.precommits, s.wire, m);
    PendingPersists(c, s, s'.wire);
    if c.id.Some? {
      OwnVotesIgnoreOthers(s.View(c), s.ourPrevotes, s.ourPrecommits, s.wire, m);
    }
  }

  lemma OwnVotesIgnoreOthers(l: Local, own: map<nat, Prevote>, ownPrecommits: map<nat, Precommit>, w: Wire, m: Message)
    requires l.id.Some? && (m.ProposeMsg? || l.id != Some(m.Validator()))
    requires OwnPrevotesOk(l.id, l.epoch, own, w) && OwnPrecommitsOk(l.id, l.epoch, ownPrecommits, w)
    requires OwnVotes(l, l.id.value, w)
    ensures OwnPrevotesOk(l.id, l.epoch, own, w + [m]) && OwnPrecommitsOk(l.id, l.epoch, ownPrecommits, w + [m])
    ensures OwnVotes(l, l.id.value, w + [m])
  {
  }

  // ---- Transactions

  /** The proposes once `tx` has been received. */
  ghost function WithoutTx(proposes: Proposes, tx: Tx, invalid: set<Tx>): Proposes {
    map p | p in proposes ::
      proposes[p].(unknown := proposes[p].unknown - {tx},
                   valid := proposes[p].valid && !(tx in proposes[p].unknown && tx in invalid))
  }

  /** A received transaction: known if it passed the check, else invalid. */
  ghost function TxReceived(s: State, tx: Tx, ok: bool, persist: bool): State {
    var invalid := if ok then s.invalid else s.invalid + {tx};
    s.(invalid := invalid,
       pool := if ok && persist then s.pool + {tx} else s.pool,
       txCache := if ok && !persist then s.txCache + {tx} else s.txCache,
       proposes := WithoutTx(s.proposes, tx, invalid))
  }

  lemma TxReceivedTracks(p: Propose, ps: ProposeState, known: set<Tx>, invalid: set<Tx>, tx: Tx, ok: bool)
    requires Tracked(p, ps, known, invalid) && tx !in known && (tx in invalid ==> !ok)
    ensures
      var invalid' := if ok then invalid else invalid + {tx};
      var known' := if ok then known + {tx} else known;
      var valid' := ps.valid && !(tx in ps.unknown && tx in invalid');
      Tracked(p, ps.(unknown := ps.unknown - {tx}, valid := valid'), known', invalid')
  {
  }

  lemma TxReceivedProposals(c: Config, s: State, s': State, tx: Tx, ok: bool)
    requires |s.chain| > 0 && ProposalsOk(c, s) && tx !in s.Known() && ok == c.check(Last(s.chain), tx)
    requires s'.chain == s.chain && s'.epoch == s.epoch && s'.round == s.round && s'.blocks == s.blocks
    requires s'.lockedPropose == s.lockedPropose
    requires s'.invalid == if ok then s.invalid else s.invalid + {tx}
    requires s'.Known() == if ok then s.Known() + {tx} else s.Known()
    requires s'.proposes == WithoutTx(s.proposes, tx, s'.invalid)
    ensures ProposalsOk(c, s')
  {
    forall p | p in s.proposes ensures Tracked(p, s'.proposes[p], s'.Known(), s'.invalid) {
      TxReceivedTracks(p, s.proposes[p], s.Known(), s.invalid, tx, ok);
    }
  }

  /** The votes do not depend on proposes and transactions. */
  lemma VotesIgnoreProposals(c: Config, s: State, s': State)
    requires VotesOk(c, s)
    requires s' == s.(proposes := s'.proposes, txCache := s'.txCache, pool := s'.pool, invalid := s'.invalid,
                      incomplete := s'.incomplete)
    ensures VotesOk(c, s')
  {
  }

  lemma KnownGrows(s: State, s': State, tx: Tx, ok: bool, persist: bool)
    requires s' == TxReceived(s, tx, ok, persist)
    ensures s'.Known() == if ok then s.Known() + {tx} else s.Known()
  {
    if ok {
      assert s'.txCache + s'.pool == s.txCache + s.pool + {tx};
    }
  }

  lemma TxReceivedPending(c: Config, s: State, s': State, tx: Tx, ok: bool)
    requires |s.chain| > 0 && PendingOk(c, s) && tx !in s.Known()
    requires s'.epoch == s.epoch && s'.chain == s.chain && s'.queued == s.queued && s'.rounds == s.rounds
    requires s'.incomplete == s.incomplete && s'.wire == s.wire
    requires s'.invalid == if ok then s.invalid else s.invalid + {tx}
    requires s'.Known() == if ok then s.Known() + {tx} else s.Known()
    ensures PendingOk(c, s')
  {
  }

  lemma TxReceivedKeeps(c: Config, s: State, tx: Tx, persist: bool)
    requires Ok(c, s) && tx !in s.Known()
    ensures Ok(c, TxReceived(s, tx, c.check(Last(s.chain), tx), persist))
  {
    var ok := c.check(Last(s.chain), tx);
    var s' := TxReceived(s, tx, ok, persist);
    KnownGrows(s, s', tx, ok, persist);
    VotesIgnoreProposals(c, s, s');
    TxReceivedProposals(c, s, s', tx, ok);
    TxReceivedPending(c, s, s', tx, ok);
  }

  /** Every propose that is now complete is yet to be handled. */
  lemma TxReceivedSettles(c: Config, s: State, tx: Tx, ok: bool, persist: bool, full: set<Propose>)
    requires SettledBut(c, s, {})
    requires forall p :: Full(TxReceived(s, tx, ok, persist).proposes, p) ==> p in full
    ensures SettledBut(c, TxReceived(s, tx, ok, persist), full)
  {
  }

  lemma IncompleteKeeps(c: Config, s: State, ib: IncompleteBlock)
    requires Ok(c, s) && BlockAccepted(c.n, s.epoch, s.chain, ib.block, ib.txs, s.wire)
    requires forall t :: t in ib.txs && t !in s.Known() ==> t in ib.unknown
    requires forall t :: t in ib.txs && t in s.invalid ==> t in ib.unknown
    ensures Ok(c, s.(incomplete := Some(ib)))
  {
    VotesIgnoreProposals(c, s, s.(incomplete := Some(ib)));
  }

  // ---- How a handler moves the state

  /** Only protocol actions were performed, and the node did not go back to an earlier epoch. */
  ghost predicate Gets(c: Config, s: State, s': State) {
    Reaches(c.n, s.View(c), s.wire, s'.View(c), s'.wire) && s.epoch <= s'.epoch
  }

  lemma GetsNothing(c: Config, s: State, s': State)
    requires s.View(c) == s'.View(c) && s.wire == s'.wire
    ensures Gets(c, s, s')
  {
    ReachesSelf(c.n, s.View(c), s.wire);
  }

  lemma GetsThen(c: Config, s: State, s1: State, s2: State)
    requires Gets(c, s, s1) && Gets(c, s1, s2)
    ensures Gets(c, s, s2)
  {
    ReachesThen(c.n, s.View(c), s.wire, s1.View(c), s1.wire, s2.View(c), s2.wire);
  }

  lemma GetsGrows(c: Config, s: State, s': State)
    requires Gets(c, s, s')
    ensures s.wire <= s'.wire && s.epoch <= s'.epoch
    ensures forall m :: m in s.wire ==> m in s'.wire
  {
    var acts :| Performs(c.n, s.View(c), s.wire, acts, s'.View(c), s'.wire);
    PerformsGrows(c.n, s.View(c), s.wire, acts, s'.View(c), s'.wire);
  }

  /** A new epoch was reached, and with it a settled state. */
  ghost predicate InNewEpoch(c: Config, s: State, s': State, bound: nat) {
    && Ok(c, s')
    && Settled(c, s')
    && s.epoch < s'.epoch <= bound + 1
    && s.chain <= s'.chain
    && s'.incomplete == None
    && QueueWithin(s', bound)
    && s'.enabled == s.enabled
    && QueueDone(c, s, s')
  }

  lemma NewEpochRises(c: Config, s: State, s': State, bound: nat)
    requires InNewEpoch(c, s, s', bound)
    ensures s.epoch < s'.epoch && s'.enabled == s.enabled
  {
  }

  // ---- Messages have their effect

  /** A skip has no transactions, the propose builds on the last block, and its author leads its round. */
  ghost predicate Proposable(c: Config, s: State, p: Propose) {
    && !(p.skip && p.txs != [])
    && |s.chain| > 0 && p.prev == Last(s.chain)
    && c.n > 0 && p.validator == LeaderOf(c.n, s.epoch, p.round)
  }

  /** The validator's vote for the subject has been counted. */
  ghost predicate Counted<K>(votes: map<K, Votes>, k: K, v: nat) {
    k in votes && exists m :: m in votes[k].messages && m.Validator() == v
  }

  /** A message of this epoch and a reached round has had its effect. */
  ghost predicate Handled(c: Config, s: State, m: Message) {
    && m.Epoch() == s.epoch && m.Round() <= s.round
    && match m {
         case ProposeMsg(p) => Proposable(c, s, p) && (forall t :: t in p.txs ==> !RefusedTx(s, t)) ==> p in s.proposes
         case PrevoteMsg(v) => Counted(s.prevotes, (v.round, v.propose), v.validator)
         case PrecommitMsg(v) => Counted(s.precommits, (v.round, v.block), v.validator)
       }
  }

  /** A message is of a past epoch, waits in the queue, or has had its effect. */
  ghost predicate Done(c: Config, s: State, m: Message) {
    m.Epoch() < s.epoch || m in s.queued || Handled(c, s, m)
  }

  ghost predicate KeepsDone(c: Config, s: State, s': State) {
    s.enabled ==> forall m :: Done(c, s, m) ==> Done(c, s', m)
  }

  /** No queued message is lost. */
  ghost predicate QueueDone(c: Config, s: State, s': State) {
    s.enabled ==> forall m :: m in s.queued ==> Done(c, s', m)
  }

  lemma CountedGrows<K>(a: map<K, Votes>, b: map<K, Votes>)
    requires VotesGrow(a, b)
    ensures forall k, v :: Counted(a, k, v) ==> Counted(b, k, v)
  {
    forall k, v | Counted(a, k, v) ensures Counted(b, k, v) {
      var m :| m in a[k].messages && m.Validator() == v;
      assert m in b[k].messages;
    }
  }

  /** Within an epoch nothing done is undone while votes, proposes and the queue only grow. */
  lemma GrowthKeepsDone(c: Config, s: State, s': State)
    requires s'.epoch == s.epoch && s'.chain == s.chain && s.round <= s'.round
    requires s'.txCache == s.txCache && s'.pool == s.pool && s'.committed == s.committed
    requires VotesGrow(s.prevotes, s'.prevotes) && VotesGrow(s.precommits, s'.precommits)
    requires s.proposes.Keys <= s'.proposes.Keys && forall m :: m in s.queued ==> m in s'.queued
    ensures KeepsDone(c, s, s')
  {
    CountedGrows(s.prevotes, s'.prevotes);
    CountedGrows(s.precommits, s'.precommits);
    forall m | Handled(c, s, m) ensures Handled(c, s', m) {
      if m.ProposeMsg? && Proposable(c, s', m.propose) && forall t :: t in m.propose.txs ==> !RefusedTx(s', t) {
        assert forall t :: RefusedTx(s, t) == RefusedTx(s', t);
      }
    }
  }

  /** One more message of a batch is done, and none before it undone. */
  lemma QueueRuns(c: Config, s: State, s': State, batch: seq<Message>, i: nat)
    requires i < |batch| && KeepsDone(c, s, s') && s'.enabled == s.enabled
    requires s.enabled ==> (forall j :: 0 <= j < i ==> Done(c, s, batch[j])) && Done(c, s', batch[i])
    ensures s'.enabled ==> forall j :: 0 <= j < i + 1 ==> Done(c, s', batch[j])
  {
  }

  /** The queue was taken out, and each of its messages is done. */
  lemma DrainedKeepsDone(c: Config, s: State, s': State)
    requires KeepsDone(c, s.(queued := []), s')
    requires s.enabled ==> forall j :: 0 <= j < |s.queued| ==> Done(c, s', s.queued[j])
    ensures KeepsDone(c, s, s')
  {
    forall m | s.enabled && Done(c, s, m) ensures Done(c, s', m) {
      if m in s.queued {
        var j :| 0 <= j < |s.queued| && s.queued[j] == m;
      } else {
        assert Done(c, s.(queued := []), m);
      }
    }
  }

  lemma PrevoteGotKeepsDone(c: Config, s: State, m: Prevote)
    requires m.validator < c.n && Sized(c.n, s.prevotes, (m.round, m.propose))
    requires c.id == Some(m.validator) ==> m.round in s.ourPrevotes && s.ourPrevotes[m.round] == m
    ensures KeepsDone(c, s, PrevoteGot(c, s, m)) && KeepsOwn(s.ourPrevotes, PrevoteGot(c, s, m).ourPrevotes)
  {
    GrowthKeepsDone(c, s, PrevoteGot(c, s, m));
  }

  lemma VotingKeepsDone(c: Config, s: State, s': State)
    requires OnlyVoted(s, s')
    ensures KeepsDone(c, s, s')
  {
    GrowthKeepsDone(c, s, s');
  }

  lemma NewEpochKeepsDone(c: Config, s: State, s': State, bound: nat)
    requires InNewEpoch(c, s, s', bound)
    ensures KeepsDone(c, s, s')
  {
  }

  lemma KeepsDoneThen(c: Config, s: State, s1: State, s2: State)
    requires KeepsDone(c, s, s1) && KeepsDone(c, s1, s2) && s1.enabled == s.enabled
    ensures KeepsDone(c, s, s2)
  {
  }

  lemma KeepsDoneSelf(c: Config, s: State)
    ensures KeepsDone(c, s, s)
  {
  }

  ghost predicate SameProposes(a: Proposes, b: Proposes) {
    a.Keys == b.Keys && forall p :: p in a ==> a[p].unknown == b[p].unknown && a[p].valid == b[p].valid
  }

  ghost predicate VotesGrow<K>(a: map<K, Votes>, b: map<K, Votes>) {
    forall k :: k in a ==> k in b && a[k].messages <= b[k].messages
  }

  /** Only votes were added, the lock was raised, and blocks were executed. */
  ghost predicate OnlyVoted(s: State, s': State) {
    && s' == s.(prevotes := s'.prevotes, precommits := s'.precommits, ourPrevotes := s'.ourPrevotes,
                ourPrecommits := s'.ourPrecommits, lockedRound := s'.lockedRound,
                lockedPropose := s'.lockedPropose, proposes := s'.proposes, blocks := s'.blocks, wire := s'.wire)
    && SameProposes(s.proposes, s'.proposes)
    && s.lockedRound <= s'.lockedRound
    && s.wire <= s'.wire
    && VotesGrow(s.prevotes, s'.prevotes)
    && VotesGrow(s.precommits, s'.precommits)
    && KeepsOwn(s.ourPrevotes, s'.ourPrevotes)
    && SameForInvalid(s, s')
  }

  /** Votes for proposes with invalid transactions were not added. */
  ghost predicate SameForInvalid(s: State, s': State) {
    forall k: (nat, Propose) :: k.1 in s.proposes && !s.proposes[k.1].valid ==>
      (k in s.prevotes <==> k in s'.prevotes) && (k in s.prevotes ==> s'.prevotes[k] == s.prevotes[k])
  }

  /** Own prevotes stay. */
  ghost predicate KeepsOwn(own: map<nat, Prevote>, own': map<nat, Prevote>) {
    forall r :: r in own ==> r in own' && own'[r] == own[r]
  }

  lemma OnlyVotedThen(s: State, s1: State, s2: State)
    requires OnlyVoted(s, s1) && OnlyVoted(s1, s2)
    ensures OnlyVoted(s, s2)
  {
  }

  lemma OnlyVotedSelf(s: State)
    ensures OnlyVoted(s, s)
  {
  }

  lemma VotedFacts(s: State, s': State, p: Propose)
    requires OnlyVoted(s, s')
    ensures s'.epoch == s.epoch && s'.round == s.round && s'.chain == s.chain && s'.confirmed == s.confirmed
    ensures s'.incomplete == s.incomplete && s'.enabled == s.enabled && KeepsOwn(s.ourPrevotes, s'.ourPrevotes)
    ensures s'.proposes.Keys == s.proposes.Keys && s.lockedRound <= s'.lockedRound
    ensures Full(s'.proposes, p) == Full(s.proposes, p)
    ensures p in s.proposes ==> p in s'.proposes && s'.proposes[p].valid == s.proposes[p].valid
  {
  }

  /** One more step of voting. */
  lemma VotedFurther(c: Config, s: State, s1: State, s2: State)
    requires Gets(c, s, s1) && Gets(c, s1, s2) && OnlyVoted(s, s1) && OnlyVoted(s1, s2)
    ensures Gets(c, s, s2) && OnlyVoted(s, s2)
  {
    GetsThen(c, s, s1, s2);
    OnlyVotedThen(s, s1, s2);
  }

  /** A new epoch reached after voting is a new epoch for the state before it. */
  lemma NewEpochAfterVoting(c: Config, s: State, s1: State, s2: State, bound: nat)
    requires OnlyVoted(s, s1) && InNewEpoch(c, s1, s2, bound)
    ensures InNewEpoch(c, s, s2, bound)
  {
  }

  lemma QueueAfterVoting(s: State, s1: State, bound: nat)
    requires OnlyVoted(s, s1) && QueueWithin(s, bound)
    ensures QueueWithin(s1, bound)
  {
  }

  /** What voting and locking on a propose do not touch. */
  ghost predicate Calm(c: Config, s: State, except: set<Propose>) {
    && NoMissedCommit(c.n, s.epoch, s.precommits, s.confirmed, s.wire)
    && ConfirmedWait(c.id, s.confirmed, s.proposes, except)
  }

  /** While locking on `p`: the rounds before `r` are done, and all other proposes but `except`. */
  ghost predicate Locking(c: Config, s: State, p: Propose, except: set<Propose>, calm: set<Propose>, r: nat) {
    && NoMissedLock(c.n, s.proposes, s.prevotes, s.lockedRound, except + {p})
    && LockedUpTo(c.n, s.prevotes, s.lockedRound, p, r)
    && Calm(c, s, calm)
  }

  lemma PrevoteSentOnlyVotes(c: Config, s: State, r: nat, p: Propose)
    requires c.id.Some? && c.id.value < c.n && Sized(c.n, s.prevotes, (r, p)) && r !in s.ourPrevotes
    requires p in s.proposes && s.proposes[p].valid
    ensures OnlyVoted(s, PrevoteSent(c, s, r, p))
  {
  }

  lemma PrevoteSentVotes(c: Config, s: State, p: Propose, except: set<Propose>, calm: set<Propose>, r: nat)
    requires c.id.Some? && c.id.value < c.n && Sized(c.n, s.prevotes, (r, p)) && r !in s.ourPrevotes
    requires p in s.proposes && s.proposes[p].valid && Locking(c, s, p, except, calm, r)
    ensures OnlyVoted(s, PrevoteSent(c, s, r, p))
    ensures Locking(c, PrevoteSent(c, s, r, p), p, except, calm, r)
  {
    hide OnlyVoted;
    PrevoteSentOnlyVotes(c, s, r, p);
  }

  lemma LockedOnVotes(c: Config, s: State, p: Propose, except: set<Propose>, calm: set<Propose>, r: nat)
    requires Locking(c, s, p, except, calm, r) && s.lockedRound < r
    ensures OnlyVoted(s, LockedOn(s, r, p))
    ensures Locking(c, LockedOn(s, r, p), p, except, calm, r + 1)
  {
  }

  lemma ExecutedVotes(c: Config, s: State, p: Propose, except: set<Propose>, calm: set<Propose>, r: nat)
    requires p in s.proposes && Locking(c, s, p, except, calm, r)
    ensures OnlyVoted(s, Executed(s, p))
    ensures Locking(c, Executed(s, p), p, except, calm, r)
  {
    assert SameProposes(s.proposes, Executed(s, p).proposes);
  }

  lemma PrecommitSentVotes(c: Config, s: State, p: Propose, except: set<Propose>, calm: set<Propose>, r: nat, t: int)
    requires CanPrecommit(c, s) && Locking(c, s, p, except, calm, r)
    ensures OnlyVoted(s, PrecommitSent(c, s, t))
    ensures var s' := PrecommitSent(c, s, t);
      !Majority(c.n, s'.precommits, (s.lockedRound, BlockOf(s.lockedPropose.value)))
      ==> Locking(c, s', p, except, calm, r)
  {
    var s' := PrecommitSent(c, s, t);
    var k := (s.lockedRound, BlockOf(s.lockedPropose.value));
    forall k' | Majority(c.n, s'.precommits, k') && k' != k ensures Majority(c.n, s.precommits, k') {}
  }

  /** Nothing happens in a round without +2/3 prevotes. */
  lemma NoMajorityHere(c: Config, s: State, p: Propose, except: set<Propose>, calm: set<Propose>, r: nat)
    requires Locking(c, s, p, except, calm, r) && !Majority(c.n, s.prevotes, (r, p))
    ensures Locking(c, s, p, except, calm, r + 1)
  {
  }

  lemma LockingDone(c: Config, s: State, p: Propose, except: set<Propose>, calm: set<Propose>)
    requires Ok(c, s) && Locking(c, s, p, except, calm, s.round + 1)
    requires s.lockedRound > 0 && (c.id.Some? ==> s.round in s.ourPrevotes) && PrecommittedLock(c, s)
    ensures SettledBut(c, s, (except - {p}) + calm)
    ensures NoMissedLock(c.n, s.proposes, s.prevotes, s.lockedRound, except - {p})
  {
    hide PrecommittedLock, NoMissedCommit;
    AllLocked(c, s, p, except);
  }

  /** The transactions of a complete and valid propose are in the pool, so they have passed the check. */
  lemma CompleteTxsPassed(c: Config, s: State, p: Propose)
    requires Ok(c, s) && Full(s.proposes, p) && s.proposes[p].valid
    ensures p.prev == Last(s.chain) && forall t :: t in p.txs ==> Passed(c.check, s.chain, t)
    ensures c.id.Some? ==> InTurn(c.n, s.epoch, c.id.value, p)
  {
    assert Led(c.n, c.id, s.epoch, p);
    forall t | t in p.txs ensures t in s.txCache + s.pool {
      assert Tracked(p, s.proposes[p], s.Known(), s.invalid);
      assert t !in s.proposes[p].unknown;
    }
  }

  lemma MayPrevoteWhenLocking(c: Config, s: State, r: nat, p: Propose)
    requires Ok(c, s) && c.id.Some? && s.lockedRound < r <= s.round && r !in s.ourPrevotes
    requires Majority(c.n, s.prevotes, (r, p)) || s.lockedPropose == Some(p)
    requires Full(s.proposes, p) && s.proposes[p].valid
    ensures MayPrevote(c.n, s.View(c), s.wire, r, p)
  {
    CompleteTxsPassed(c, s, p);
    if Majority(c.n, s.prevotes, (r, p)) {
      MajorityIsPrevoteQuorum(c, s, r, p);
    }
  }

  /** A block of the node's epoch, executed from a propose, may be committed on its majority. */
  lemma MayCommitOwn(c: Config, s: State, p: Propose, r: nat)
    requires Ok(c, s) && p in s.proposes && Majority(c.n, s.precommits, (r, BlockOf(p)))
    ensures MayCommit(c.n, s.View(c), s.wire, BlockOf(p), r)
    ensures BlockOf(p).epoch == Some(s.epoch)
  {
    MajorityIsPrecommitQuorum(c, s, r, BlockOf(p));
  }

  // ---- Settling after a vote or a propose

  lemma PrevoteGotSettles(c: Config, s: State, m: Prevote)
    requires m.validator < c.n && Sized(c.n, s.prevotes, (m.round, m.propose)) && SettledBut(c, s, {})
    ensures var s' := PrevoteGot(c, s, m);
      && Locking(c, s', m.propose, {}, {}, if Full(s.proposes, m.propose) then m.round else 0)
      && PrecommittedLock(c, s')
      && (|| (&& Majority(c.n, s'.prevotes, (m.round, m.propose))
              && Full(s.proposes, m.propose) && s.lockedRound < m.round)
          || SettledBut(c, s', {}))
  {
    var s' := PrevoteGot(c, s, m);
    forall k | k != (m.round, m.propose) && Majority(c.n, s'.prevotes, k) ensures Majority(c.n, s.prevotes, k) {}
  }

  lemma PrecommitGotSettles(c: Config, s: State, m: Precommit)
    requires m.validator < c.n && Sized(c.n, s.precommits, (m.round, m.block)) && SettledBut(c, s, {})
    requires PrecommitMsg(m) in s.wire && m.epoch == s.epoch
    requires (c.id == Some(m.validator) ==> m.round in s.ourPrecommits)
    ensures var s' := PrecommitGot(c, s, m);
      && (Majority(c.n, s'.precommits, (m.round, m.block)) || SettledBut(c, s', {}))
      && (!Full(s.proposes, m.propose) ==> SettledBut(c, Confirmed(s', m.propose, m.round, m.block), {}))
  {
    var s' := PrecommitGot(c, s, m);
    forall k | k != (m.round, m.block) && Majority(c.n, s'.precommits, k) ensures Majority(c.n, s.precommits, k) {}
    assert Named(s.epoch, m.round, m.propose, m.block, s.wire) by {
      assert PrecommitFor(PrecommitMsg(m), s.epoch, m.round, m.block);
    }
    assert m.propose in Confirmed(s', m.propose, m.round, m.block).confirmed;
  }

  lemma ProposeAddedSettles(c: Config, s: State, p: Propose, ps: ProposeState)
    requires SettledBut(c, s, {})
    ensures SettledBut(c, s.(proposes := s.proposes[p := ps]), if ps.unknown == {} then {p} else {})
  {
    var s' := s.(proposes := s.proposes[p := ps]);
    forall q | q != p && Full(s'.proposes, q) ensures Full(s.proposes, q) {}
  }

  // ---- A complete propose

  /** While handling the complete propose `p`: all but the rounds of `p` from `r` on is settled. */
  ghost predicate Completing(c: Config, s: State, p: Propose, except: set<Propose>, r: nat) {
    && SettledBut(c, s, except)
    && LockedUpTo(c.n, s.prevotes, s.lockedRound, p, r)
    && PrevotedAll(c.id, s.lockedRound, s.proposes, s.ourPrevotes, except - {p})
  }

  lemma CompletingStarts(c: Config, s: State, p: Propose, except: set<Propose>)
    requires SettledBut(c, s, except)
    requires c.id.Some? && s.lockedRound == 0 && Full(s.proposes, p) && s.proposes[p].valid ==> p.round in s.ourPrevotes
    ensures Completing(c, s, p, except, if p.round > s.lockedRound + 1 then p.round else s.lockedRound + 1)
  {
  }

  lemma PrevoteSentSettles(c: Config, s: State, p: Propose, except: set<Propose>, r: nat)
    requires c.id.Some? && c.id.value < c.n && Sized(c.n, s.prevotes, (r, p)) && r !in s.ourPrevotes
    requires p in s.proposes && s.proposes[p].valid && p in except && SettledBut(c, s, except) && s.lockedRound == 0
    ensures OnlyVoted(s, PrevoteSent(c, s, r, p))
    ensures SettledBut(c, PrevoteSent(c, s, r, p), except)
  {
    hide OnlyVoted;
    PrevoteSentOnlyVotes(c, s, r, p);
    var s' := PrevoteSent(c, s, r, p);
    forall k | k != (r, p) && Majority(c.n, s'.prevotes, k) ensures Majority(c.n, s.prevotes, k) {}
  }

  lemma CompletingLocks(c: Config, s: State, p: Propose, except: set<Propose>, r: nat)
    requires p in except && Completing(c, s, p, except, r)
    ensures Locking(c, s, p, except, except, r)
  {
    assert except + {p} == except;
  }

  lemma CompletingPrecommitted(c: Config, s: State, p: Propose, except: set<Propose>, r: nat)
    requires Completing(c, s, p, except, r)
    ensures PrecommittedLock(c, s)
  {
  }

  /** After locking on `p`, or in a round without need for it, the next round follows. */
  lemma CompletingNext(c: Config, s: State, p: Propose, except: set<Propose>, r: nat)
    requires Completing(c, s, p, except, r)
    requires !Majority(c.n, s.prevotes, (r, p)) || r <= s.lockedRound
    ensures Completing(c, s, p, except, r + 1)
  {
  }

  lemma CompletingLocked(c: Config, s: State, p: Propose, except: set<Propose>, r: nat)
    requires p in except && Full(s.proposes, p)
    requires SettledBut(c, s, (except - {p}) + except) && s.lockedRound > 0
    requires NoMissedLock(c.n, s.proposes, s.prevotes, s.lockedRound, except - {p})
    ensures Completing(c, s, p, except, r)
  {
    assert (except - {p}) + except == except;
  }

  lemma CompletingDone(c: Config, s: State, p: Propose, except: set<Propose>)
    requires Ok(c, s) && Completing(c, s, p, except, s.round + 1) && p !in s.confirmed
    ensures SettledBut(c, s, except - {p})
  {
    hide PrecommittedLock, NoMissedCommit;
    AllLocked(c, s, p, except);
  }

  lemma AllLocked(c: Config, s: State, p: Propose, except: set<Propose>)
    requires Ok(c, s) && LockedUpTo(c.n, s.prevotes, s.lockedRound, p, s.round + 1)
    requires NoMissedLock(c.n, s.proposes, s.prevotes, s.lockedRound, except + {p})
    ensures NoMissedLock(c.n, s.proposes, s.prevotes, s.lockedRound, except - {p})
  {
    forall k |
      && k in s.prevotes && k.1 !in except - {p}
      && Majority(c.n, s.prevotes, k) && Full(s.proposes, k.1) && k.1.round <= k.0
      ensures k.0 <= s.lockedRound
    {
      assert k.0 <= s.round;
    }
  }

  lemma UnconfirmedKeeps(c: Config, s: State, p: Propose)
    requires Ok(c, s)
    ensures Ok(c, s.(confirmed := s.confirmed - {p}))
  {
    PendingIgnoresVotes(c, s, s.(confirmed := s.confirmed - {p}));
  }

  lemma MayPrevoteUnlocked(c: Config, s: State, p: Propose)
    requires Ok(c, s) && c.id.Some? && s.lockedRound == 0 && p in s.proposes && p.round !in s.ourPrevotes
    requires Full(s.proposes, p) && s.proposes[p].valid
    ensures MayPrevote(c.n, s.View(c), s.wire, p.round, p)
  {
    CompleteTxsPassed(c, s, p);
  }

  lemma InsertedIsCounted<K>(n: nat, votes: map<K, Votes>, k: K, m: Message)
    requires m.Validator() < n && (k in votes ==> votes[k].Valid(n))
    ensures Counted(InsertVote(n, votes, k, m), k, m.Validator())
  {
  }

  lemma PrevoteIsCounted(c: Config, s: State, m: Prevote)
    requires Ok(c, s) && m.validator < c.n && Sized(c.n, s.prevotes, (m.round, m.propose))
    ensures Counted(PrevoteGot(c, s, m).prevotes, (m.round, m.propose), m.validator)
  {
    InsertedIsCounted(c.n, s.prevotes, (m.round, m.propose), PrevoteMsg(m));
  }

  lemma PrecommitIsCounted(c: Config, s: State, m: Precommit)
    requires Ok(c, s) && m.validator < c.n && Sized(c.n, s.precommits, (m.round, m.block))
    ensures Counted(PrecommitGot(c, s, m).precommits, (m.round, m.block), m.validator)
  {
    InsertedIsCounted(c.n, s.precommits, (m.round, m.block), PrecommitMsg(m));
  }

  lemma CountedStays(s: State, s': State, k: (nat, Propose), v: nat)
    requires OnlyVoted(s, s') && Counted(s.prevotes, k, v)
    ensures Counted(s'.prevotes, k, v)
  {
    var m :| m in s.prevotes[k].messages && m.Validator() == v;
    assert m in s'.prevotes[k].messages;
  }

  // ---- A propose whose transactions are looked up

  lemma LookupTracks(s: State, p: Propose, unknown: set<Tx>, valid: bool)
    requires s.invalid !! s.Known()
    requires unknown == (set t | t in p.txs && t !in s.Known() && t !in s.invalid)
    requires valid <==> forall t :: t in p.txs && t !in s.Known() ==> t !in s.invalid
    ensures Tracked(p, ProposeState(unknown, valid, None), s.Known(), s.invalid)
  {
  }

  // ---- A new round

  lemma NewRoundSettled(c: Config, s: State, r: nat)
    requires Ok(c, s) && Settled(c, s) && s.round < r
    ensures SettledInRound(c, s.(round := r), {})
  {
  }

  lemma SettledButOne(c: Config, s: State, p: Propose)
    requires SettledInRound(c, s, {}) && Full(s.proposes, p)
    ensures SettledInRound(c, s, {p}) && ConfirmedWait(c.id, s.confirmed, s.proposes, {})
    ensures LockedUpTo(c.n, s.prevotes, s.lockedRound, p, s.round)
  {
  }

  /** A prevote for the locked propose, or without a lock, makes no difference to the precommit of the lock. */
  lemma LockPrevoteSent(c: Config, s: State, r: nat, p: Propose)
    requires c.id.Some? && c.id.value < c.n && Sized(c.n, s.prevotes, (r, p)) && r !in s.ourPrevotes
    requires PrecommittedLock(c, s) && (s.lockedRound > 0 ==> s.lockedPropose == Some(p))
    ensures PrecommittedLock(c, PrevoteSent(c, s, r, p))
  {
    var s' := PrevoteSent(c, s, r, p);
    forall q | q != r
      ensures Incompatible(s'.ourPrevotes, s.lockedPropose, q) == Incompatible(s.ourPrevotes, s.lockedPropose, q)
    {
    }
  }

  /** The prevote of a validator that enters a round locked, or that has just proposed. */
  lemma RoundPrevoteSettles(c: Config, s: State, p: Propose)
    requires c.id.Some? && c.id.value < c.n && Sized(c.n, s.prevotes, (s.round, p)) && s.round !in s.ourPrevotes
    requires forall k :: k in s.prevotes ==> k.0 <= s.round
    requires Full(s.proposes, p) && s.proposes[p].valid
    requires (if s.lockedRound > 0 then s.lockedPropose == Some(p) else p.round == s.round)
    requires SettledInRound(c, s, {p}) && ConfirmedWait(c.id, s.confirmed, s.proposes, {})
    requires LockedUpTo(c.n, s.prevotes, s.lockedRound, p, s.round)
    ensures var s' := PrevoteSent(c, s, s.round, p);
      && Locking(c, s', p, {}, {}, s.round)
      && PrevotedAll(c.id, s'.lockedRound, s'.proposes, s'.ourPrevotes, {})
      && PrecommittedLock(c, s')
      && (!Majority(c.n, s'.prevotes, (s.round, p)) ==> SettledBut(c, s', {}))
  {
    hide PrecommittedLock, NoMissedCommit, ConfirmedWait, PrevotedAll, InsertVote;
    var s' := PrevoteSent(c, s, s.round, p);
    LockPrevoteSent(c, s, s.round, p);
    RoundPrevoted(c, s, p);
    SameCommits(c, s, s');
    OtherMajorities(c, s, s.round, p);
  }

  /** A prevote makes no majority but its own. */
  lemma OtherMajorities(c: Config, s: State, r: nat, p: Propose)
    requires c.id.Some? && c.id.value < c.n && Sized(c.n, s.prevotes, (r, p))
    ensures var votes := PrevoteSent(c, s, r, p).prevotes;
      forall k :: k in votes && k != (r, p) && Majority(c.n, votes, k) ==>
        k in s.prevotes && Majority(c.n, s.prevotes, k)
  {
  }

  lemma RoundPrevoted(c: Config, s: State, p: Propose)
    requires c.id.Some? && c.id.value < c.n && Sized(c.n, s.prevotes, (s.round, p)) && s.round !in s.ourPrevotes
    requires s.lockedRound > 0 || p.round == s.round
    requires PrevotedAll(c.id, s.lockedRound, s.proposes, s.ourPrevotes, {p})
    ensures var s' := PrevoteSent(c, s, s.round, p); PrevotedAll(c.id, s'.lockedRound, s'.proposes, s'.ourPrevotes, {})
  {
  }

  lemma SameCommits(c: Config, s: State, s': State)
    requires NoMissedCommit(c.n, s.epoch, s.precommits, s.confirmed, s.wire) && s.wire <= s'.wire
    ensures NoMissedCommit(c.n, s.epoch, s.precommits, s.confirmed, s'.wire)
  {
    forall k | Majority(c.n, s.precommits, k)
      ensures exists p :: p in s.confirmed && Named(s.epoch, k.0, p, k.1, s'.wire)
    {
      var p :| p in s.confirmed && Named(s.epoch, k.0, p, k.1, s.wire);
      var m :| m in s.wire && PrecommitFor(m, s.epoch, k.0, k.1) && m.precommit.propose == p;
      assert m in s'.wire;
    }
  }

  lemma NoVotesAhead(c: Config, s: State)
    requires Ok(c, s)
    ensures c.id.Some? ==> c.id.value < c.n
    ensures forall k :: k in s.prevotes ==> k.0 <= s.round
  {
  }

  // ---- An own propose

  ghost function Proposed(s: State, p: Propose): State {
    s.(wire := s.wire + [ProposeMsg(p)], proposes := s.proposes[p := ProposeState({}, true, None)])
  }

  lemma ProposedKeeps(c: Config, s: State, p: Propose)
    requires Ok(c, s) && c.id == Some(p.validator) && (p.skip ==> p.txs == [])
    requires p.epoch == s.epoch && p.round == s.round && p.prev == Last(s.chain)
    requires forall t :: t in p.txs ==> t in s.txCache || t in s.pool
    ensures Ok(c, Proposed(s, p)) && Gets(c, s, Proposed(s, p))
  {
    var s1 := s.(wire := s.wire + [ProposeMsg(p)]);
    DeliveredKeeps(c, s, ProposeMsg(p));
    KnownTxsTrack(c, s, p);
    ProposeAddedKeeps(c, s1, p, ProposeState({}, true, None));
    assert Enabled(c.n, s.View(c), s.wire, SendPropose(p));
    ReachesOne(c.n, s.View(c), s.wire, SendPropose(p));
  }

  lemma KnownTxsTrack(c: Config, s: State, p: Propose)
    requires Ok(c, s) && forall t :: t in p.txs ==> t in s.txCache || t in s.pool
    ensures Tracked(p, ProposeState({}, true, None), s.Known(), s.invalid)
  {
  }

  lemma ProposedSettles(c: Config, s: State, p: Propose)
    requires SettledBut(c, s, {}) && s.lockedRound == 0 && c.id == Some(p.validator) && p.round == s.round
    ensures SettledInRound(c, Proposed(s, p), {p})
    ensures ConfirmedWait(c.id, s.confirmed, Proposed(s, p).proposes, {})
    ensures LockedUpTo(c.n, s.prevotes, s.lockedRound, p, s.round)
  {
    forall q | q != p && Full(Proposed(s, p).proposes, q) ensures Full(s.proposes, q) {}
  }

  lemma MayPrevoteOwn(c: Config, s: State, p: Propose)
    requires Ok(c, s) && c.id.Some? && s.lockedRound == 0 && s.round !in s.ourPrevotes
    requires Full(s.proposes, p) && s.proposes[p].valid
    ensures MayPrevote(c.n, s.View(c), s.wire, s.round, p)
  {
    CompleteTxsPassed(c, s, p);
  }

  // ---- What the invariants mean

  /** The proposes of others for one round are by one author. */
  lemma OneAuthorPerRound(c: Config, s: State, p: Propose, q: Propose)
    requires Ok(c, s) && p in s.proposes && q in s.proposes && p.round == q.round
    requires c.id != Some(p.validator) && c.id != Some(q.validator)
    ensures p.validator == q.validator
  {
    assert Led(c.n, c.id, s.epoch, p) && Led(c.n, c.id, s.epoch, q);
  }

  /** The refused transactions are those of the chain. */
  lemma RefusedIsCommitted(c: Config, s: State, t: Tx)
    requires Ok(c, s)
    ensures RefusedTx(s, t) <==> exists b :: b in s.chain && t in TxList(b)
  {
    ChainTxsAre(s.chain, t);
  }

  /** A propose is complete and valid exactly if all of its transactions are in the pool or its cache. */
  lemma CompleteIsPooled(c: Config, s: State, p: Propose)
    requires Ok(c, s) && p in s.proposes
    ensures Full(s.proposes, p) && s.proposes[p].valid <==> forall t :: t in p.txs ==> t in s.txCache || t in s.pool
    ensures Full(s.proposes, p) <==> forall t :: t in p.txs ==> t in s.txCache || t in s.pool || t in s.invalid
  {
    var ps := s.proposes[p];
    assert Tracked(p, ps, s.Known(), s.invalid);
    assert ps.unknown == {} <==> forall t :: t in p.txs ==> t in s.Known() || t in s.invalid by {
      if ps.unknown == {} {
        forall t | t in p.txs ensures t in s.Known() || t in s.invalid {
          assert t !in ps.unknown;
        }
      }
    }
  }

  /** The own prevotes after the lock are all for the locked propose: as kept, and as sent. */
  lemma IncompatibleOnWire(c: Config, s: State)
    requires Ok(c, s) && c.id.Some?
    ensures NoIncompatiblePrevotes(s) <==>
      forall m :: m in s.wire && IsPrevote(m, c.id.value, s.epoch) && m.prevote.round > s.lockedRound ==>
        Some(m.prevote.propose) == s.lockedPropose
  {
    hide ProposalsOk, PendingOk, CommittedOk, PoolOk, LocksOk, PrevotesOk, PrecommitsOk;
    if NoIncompatiblePrevotes(s) {
      forall m | m in s.wire && IsPrevote(m, c.id.value, s.epoch) && m.prevote.round > s.lockedRound
        ensures Some(m.prevote.propose) == s.lockedPropose
      {
        assert !Incompatible(s.ourPrevotes, s.lockedPropose, m.prevote.round);
      }
    } else {
      var r :| s.lockedRound < r <= s.round && Incompatible(s.ourPrevotes, s.lockedPropose, r);
      assert IsPrevote(PrevoteMsg(s.ourPrevotes[r]), c.id.value, s.epoch);
    }
  }

  /** What a settled node has done. */
  lemma SettledMeans(c: Config, s: State)
    requires Ok(c, s) && Settled(c, s)
    ensures forall r: nat, p :: Majority(c.n, s.prevotes, (r, p)) && Full(s.proposes, p) && p.round <= r ==>
      r <= s.lockedRound
    ensures c.id.Some? && s.lockedRound == 0 ==>
      forall p :: Full(s.proposes, p) && s.proposes[p].valid ==> p.round in s.ourPrevotes
    ensures c.id.Some? && s.lockedRound > 0 ==> s.round in s.ourPrevotes
    ensures c.id.Some? && s.lockedRound > 0 ==>
      (s.lockedRound in s.ourPrecommits <==>
         forall m :: m in s.wire && IsPrevote(m, c.id.value, s.epoch) && m.prevote.round > s.lockedRound ==>
           Some(m.prevote.propose) == s.lockedPropose)
    ensures forall m :: m in s.queued ==> m.Epoch() == s.epoch + 1 || (m.Epoch() == s.epoch && m.Round() > s.round)
    ensures s.incomplete.Some? ==> exists t :: t in s.incomplete.value.txs && t !in s.Known()
  {
    hide Ok;
    if c.id.Some? {
      IncompatibleOnWire(c, s);
    }
    if s.incomplete.Some? {
      var t :| t in s.incomplete.value.unknown;
    }
  }

  /** The vote of a validator for the subject is marked. */
  predicate Marked<K>(votes: map<K, Votes>, k: K, v: nat) {
    k in votes && v < |votes[k].validators| && votes[k].validators[v]
  }

  /**
   No message is lost: one that was queued is of a past epoch or still queued, or it has been reached and, if it is a
   vote, it is counted, and if it is an acceptable propose, it is tracked.
   */
  lemma NothingIsLost(c: Config, s: State, s': State, m: Message)
    requires Ok(c, s') && s.enabled && KeepsDone(c, s, s') && m in s.queued && m !in s'.queued && m.Epoch() >= s'.epoch
    ensures m.Epoch() == s'.epoch && m.Round() <= s'.round
    ensures m.PrevoteMsg? ==> Marked(s'.prevotes, (m.prevote.round, m.prevote.propose), m.Validator())
    ensures m.PrecommitMsg? ==> Marked(s'.precommits, (m.precommit.round, m.precommit.block), m.Validator())
    ensures m.ProposeMsg? && m.propose.prev == Last(s'.chain) && (m.propose.skip ==> m.propose.txs == []) ==>
      m.propose.validator == LeaderOf(c.n, s'.epoch, m.propose.round) ==>
      m.propose in s'.proposes || exists t, b :: t in m.propose.txs && b in s'.chain && t in TxList(b)
  {
    assert Done(c, s, m);
    assert Handled(c, s', m);
    if m.PrevoteMsg? {
      assert s'.prevotes[(m.prevote.round, m.prevote.propose)].Valid(c.n);
    } else if m.PrecommitMsg? {
      assert s'.precommits[(m.precommit.round, m.precommit.block)].Valid(c.n);
    } else if t :| t in m.propose.txs && RefusedTx(s', t) {
      RefusedIsCommitted(c, s', t);
    }
  }

  // ---- Honest votes are enough

  /** Counted votes of all validators but the tolerated number are a majority. */
  lemma CountedIsMajority<K>(n: nat, faulty: set<nat>, votes: map<K, Votes>, k: K)
    requires n > 0 && faulty <= Ids(n) && |faulty| <= MaxFaulty(n) && (k in votes ==> votes[k].Valid(n))
    requires forall v: nat :: v < n && v !in faulty ==> Counted(votes, k, v)
    ensures Majority(n, votes, k)
  {
    HonestAreQuorum(n, faulty);
    var honest := Ids(n) - faulty;
    var v :| v in honest;
    assert Counted(votes, k, v);
    var messages := votes[k].messages;
    forall u | u in honest ensures u in Voters(messages) {
      assert Counted(votes, k, u);
    }
    SubsetCardinality(honest, Voters(messages));
    CountIsVoters(messages);
  }

  /** A settled node that has counted the prevotes of the honest validators for a complete propose has locked on it. */
  lemma HonestPrevotesLock(c: Config, s: State, faulty: set<nat>, r: nat, p: Propose)
    requires Ok(c, s) && Settled(c, s) && faulty <= Ids(c.n) && |faulty| <= MaxFaulty(c.n)
    requires Full(s.proposes, p) && p.round <= r
    requires forall v: nat :: v < c.n && v !in faulty ==> Counted(s.prevotes, (r, p), v)
    ensures s.lockedRound >= r
  {
    CountedIsMajority(c.n, faulty, s.prevotes, (r, p));
    SettledMeans(c, s);
  }

  /** The last of the precommits of the honest validators completes +2/3. */
  lemma HonestPrecommitsComplete(c: Config, s: State, faulty: set<nat>, m: Precommit)
    requires Ok(c, s) && faulty <= Ids(c.n) && |faulty| <= MaxFaulty(c.n) && m.validator < c.n
    requires forall v: nat :: v < c.n && v !in faulty && v != m.validator ==>
      Counted(s.precommits, (m.round, m.block), v)
    ensures Completes(c, s, m)
  {
    hide ProposalsOk, PendingOk, CommittedOk, PoolOk, LocksOk, PrevotesOk, OwnVotes;
    var k := (m.round, m.block);
    var votes := InsertVote(c.n, s.precommits, k, PrecommitMsg(m));
    InsertedIsCounted(c.n, s.precommits, k, PrecommitMsg(m));
    forall v: nat | v < c.n && v !in faulty ensures Counted(votes, k, v) {
      if v != m.validator {
        assert Counted(s.precommits, k, v);
        assert s.precommits[k].messages <= votes[k].messages;
      }
    }
    CountedIsMajority(c.n, faulty, votes, k);
  }
}
