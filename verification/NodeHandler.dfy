/**
 The consensus handlers of one node, updating its state in place.

 `wire` stands for the network: `broadcast` appends to it, and every message handled is on it.
 A handler call is proved to be a sequence of `Protocol` actions (`Gets`), to leave nothing undone that
 it could have acted on (`Settled`), and, by the measure of the recursive handlers, to end.
 */
module Node {
  import opened Messages
  import opened Options
  import opened Quorums
  import opened Protocol
  import opened VoteCounting
  import opened NodeState
  import opened RoundJump
  import opened Sorting
  import opened BlockProofs

  datatype RoundAction = NewEpoch | NoAction | Panicked

  class NodeHandler {
    const n: nat
    const id: Option<nat>
    const check: Check
    const persistTxsImmediately: bool
    const key: nat

    var isEnabled: bool
    var clock: int
    var connectList: set<nat>
    var jumps: seq<(nat, nat)>
    var wire: Wire

    var epoch: nat
    var round: nat
    var lockedRound: nat
    var lockedPropose: Option<Propose>
    var chain: seq<Block>
    var proposes: Proposes
    var blocks: set<Block>
    var prevotes: Prevotes
    var precommits: Precommits
    var ourPrevotes: map<nat, Prevote>
    var ourPrecommits: map<nat, Precommit>
    var queued: seq<Message>
    var confirmed: map<Propose, (nat, Block)>
    var validatorsRounds: map<nat, nat>
    var incomplete: Option<IncompleteBlock>
    var txCache: set<Tx>
    var pool: set<Tx>
    var committed: set<Tx>
    var invalid: set<Tx>

    ghost function Conf(): Config { Config(n, id, check) }

    /** The state as a value. */
    ghost function Snap(): State
      reads this
    {
      State(isEnabled, epoch, round, lockedRound, lockedPropose, chain, proposes, blocks, prevotes, precommits,
            ourPrevotes,
            ourPrecommits, queued, confirmed, validatorsRounds, incomplete, txCache, pool, committed, invalid, wire)
    }

    ghost predicate Valid()
      reads this
    {
      Ok(Conf(), Snap())
    }

    // ---- Votes

    /**
     Each validator's prevote is counted once. The node never holds two different prevotes of its own for one
     round: what the code asserts of them is a precondition here.
     */
    method AddPrevote(m: Prevote) returns (majority: bool)
      requires m.validator < n && Sized(n, prevotes, (m.round, m.propose))
      requires id == Some(m.validator) && m.round in ourPrevotes ==> ourPrevotes[m.round] == m
      modifies this`prevotes, this`ourPrevotes
      ensures prevotes == InsertVote(n, old(prevotes), (m.round, m.propose), PrevoteMsg(m))
      ensures ourPrevotes == if id == Some(m.validator) then old(ourPrevotes)[m.round := m] else old(ourPrevotes)
      ensures majority == Majority(n, prevotes, (m.round, m.propose))
    {
      if id == Some(m.validator) {
        ourPrevotes := ourPrevotes[m.round := m];
      }
      var k := (m.round, m.propose);
      var votes := if k in prevotes then prevotes[k] else NoVotes(n);
      votes := votes.Insert(PrevoteMsg(m));
      prevotes := prevotes[k := votes];
      majority := votes.count >= ByzantineQuorum(n);
    }

    /** As `AddPrevote`; of its own precommits for one round the node compares the proposes. */
    method AddPrecommit(m: Precommit) returns (majority: bool)
      requires m.validator < n && Sized(n, precommits, (m.round, m.block))
      requires id == Some(m.validator) && m.round in ourPrecommits ==> ourPrecommits[m.round].propose == m.propose
      modifies this`precommits, this`ourPrecommits
      ensures precommits == InsertVote(n, old(precommits), (m.round, m.block), PrecommitMsg(m))
      ensures ourPrecommits == if id == Some(m.validator) then old(ourPrecommits)[m.round := m] else old(ourPrecommits)
      ensures majority == Majority(n, precommits, (m.round, m.block))
    {
      if id == Some(m.validator) {
        ourPrecommits := ourPrecommits[m.round := m];
      }
      var k := (m.round, m.block);
      var votes := if k in precommits then precommits[k] else NoVotes(n);
      votes := votes.Insert(PrecommitMsg(m));
      precommits := precommits[k := votes];
      majority := votes.count >= ByzantineQuorum(n);
    }

    method BroadcastPrevote(r: nat, p: Propose) returns (majority: bool)
      requires Valid() && MayPrevote(n, Snap().View(Conf()), wire, r, p) && Grounded(Conf(), Snap(), r, p)
      modifies this`prevotes, this`ourPrevotes, this`wire
      ensures Valid() && id.Some? && id.value < n && Sized(n, old(prevotes), (r, p))
      ensures Snap() == PrevoteSent(Conf(), old(Snap()), r, p)
      ensures wire == old(wire) + [PrevoteMsg(Prevote(id.value, epoch, r, p, lockedRound))]
      ensures majority == Majority(n, prevotes, (r, p))
      ensures Gets(Conf(), old(Snap()), Snap())
    {
      hide Ok, MayPrevote, Gets, PrevoteSent;
      PrevoteSentKeeps(Conf(), Snap(), r, p);
      majority := SendPrevote(r, p);
    }

    method SendPrevote(r: nat, p: Propose) returns (majority: bool)
      requires id.Some? && id.value < n && Sized(n, prevotes, (r, p)) && r !in ourPrevotes
      modifies this`prevotes, this`ourPrevotes, this`wire
      ensures Snap() == PrevoteSent(Conf(), old(Snap()), r, p)
      ensures wire == old(wire) + [PrevoteMsg(Prevote(id.value, epoch, r, p, lockedRound))]
      ensures majority == Majority(n, prevotes, (r, p))
    {
      hide InsertVote, Majority;
      var prevote := Prevote(id.value, epoch, r, p, lockedRound);
      majority := AddPrevote(prevote);
      wire := wire + [PrevoteMsg(prevote)];
    }

    /** Does not vote for a propose with invalid transactions. */
    method CheckProposeAndBroadcastPrevote(r: nat, p: Propose) returns (majority: bool)
      requires Valid() && p in proposes
      requires proposes[p].valid ==> MayPrevote(n, Snap().View(Conf()), wire, r, p) && Grounded(Conf(), Snap(), r, p)
      modifies this`prevotes, this`ourPrevotes, this`wire
      ensures Valid() && Gets(Conf(), old(Snap()), Snap())
      ensures if proposes[p].valid
        then
          && id.Some? && id.value < n && Sized(n, old(prevotes), (r, p))
          && Snap() == PrevoteSent(Conf(), old(Snap()), r, p)
        else Snap() == old(Snap())
      ensures majority == Majority(n, prevotes, (r, p))
    {
      hide Ok, Gets, PrevoteSent, MayPrevote;
      GetsNothing(Conf(), Snap(), Snap());
      if !proposes[p].valid {
        majority := Majority(n, prevotes, (r, p));
      } else {
        majority := BroadcastPrevote(r, p);
      }
    }

    method HaveIncompatiblePrevotes() returns (found: bool)
      requires id.Some?
      ensures !found <==> NoIncompatiblePrevotes(Snap())
    {
      var r := lockedRound + 1;
      while r < round + 1
        invariant r >= lockedRound + 1
        invariant forall q :: lockedRound < q < r ==> !Incompatible(ourPrevotes, lockedPropose, q)
      {
        if Incompatible(ourPrevotes, lockedPropose, r) {
          return true;
        }
        r := r + 1;
      }
      return false;
    }

    /** The executed block of a known propose; executed once. */
    method Execute(p: Propose) returns (b: Block)
      requires Valid() && p in proposes
      modifies this`proposes, this`blocks
      ensures Valid()
      ensures b == BlockOf(p) && Snap() == Executed(old(Snap()), p)
    {
      hide Ok, Executed;
      ExecutedKeeps(Conf(), Snap(), p);
      ExecutableHere(Conf(), Snap(), p);
      b := ExecuteOnce(p);
    }

    method ExecuteOnce(p: Propose) returns (b: Block)
      requires p in proposes && |chain| > 0 && p.prev == Last(chain)
      requires proposes[p].block.Some? ==> proposes[p].block.value == BlockOf(p) && BlockOf(p) in blocks
      modifies this`proposes, this`blocks
      ensures b == BlockOf(p) && Snap() == Executed(old(Snap()), p)
    {
      if proposes[p].block.Some? {
        assert blocks == blocks + {BlockOf(p)};
        assert proposes == proposes[p := proposes[p].(block := Some(BlockOf(p)))];
        return proposes[p].block.value;
      }
      b := CreateBlock(Last(chain), p.validator, p.epoch, p.txs, p.skip);
      blocks := blocks + {b};
      proposes := proposes[p := proposes[p].(block := Some(b))];
    }

    method BroadcastPrecommit(r: nat, p: Propose, b: Block)
      requires Valid() && id.Some? && lockedRound == r > 0 && lockedPropose == Some(p) && b == BlockOf(p)
      requires r !in ourPrecommits && NoIncompatiblePrevotes(Snap())
      modifies this`precommits, this`ourPrecommits, this`wire
      ensures Valid() && CanPrecommit(Conf(), old(Snap()))
      ensures Snap() == PrecommitSent(Conf(), old(Snap()), clock)
      ensures wire == old(wire) + [PrecommitMsg(Precommit(id.value, epoch, r, p, b, clock))]
      ensures Gets(Conf(), old(Snap()), Snap())
    {
      hide Ok, MayPrecommit, NoIncompatiblePrevotes, Gets, PrecommitSent;
      PrecommitSentKeeps(Conf(), Snap(), clock);
      SendPrecommit(r, p, b);
    }

    method SendPrecommit(r: nat, p: Propose, b: Block)
      requires CanPrecommit(Conf(), Snap()) && lockedRound == r && lockedPropose == Some(p) && b == BlockOf(p)
      requires r !in ourPrecommits
      modifies this`precommits, this`ourPrecommits, this`wire
      ensures Snap() == PrecommitSent(Conf(), old(Snap()), clock)
      ensures wire == old(wire) + [PrecommitMsg(Precommit(id.value, epoch, r, p, b, clock))]
    {
      hide InsertVote, Majority;
      var precommit := Precommit(id.value, epoch, r, p, b, clock);
      var _ := AddPrecommit(precommit);
      wire := wire + [PrecommitMsg(precommit)];
    }

    // ---- Locking

    method Lock(r: nat, p: Propose)
      requires Valid() && lockedRound < r && Majority(n, prevotes, (r, p))
      requires Full(proposes, p) && proposes[p].valid
      modifies this`lockedRound, this`lockedPropose
      ensures Valid() && Snap() == LockedOn(old(Snap()), r, p)
      ensures Gets(Conf(), old(Snap()), Snap())
      ensures r !in ourPrecommits && r <= round
    {
      hide Ok, Reaches, PrevoteQuorum;
      LockedOnKeeps(Conf(), Snap(), r, p);
      MajorityIsPrevoteQuorum(Conf(), Snap(), r, p);
      NotPrecommittedYet(Conf(), Snap(), r);
      lockedRound := r;
      lockedPropose := Some(p);
    }

    /** One round of locking: moves the lock to `r` and precommits unless a later prevote is for something else. */
    method LockAtRound(r: nat, p: Propose, ghost except: set<Propose>, ghost calm: set<Propose>, ghost bound: nat)
      returns (action: RoundAction)
      requires Valid() && lockedRound < r && Majority(n, prevotes, (r, p))
      requires Full(proposes, p) && proposes[p].valid
      requires Locking(Conf(), Snap(), p, except, calm, r)
      requires epoch <= bound && QueueWithin(Snap(), bound)
      modifies this
      ensures Gets(Conf(), old(Snap()), Snap())
      ensures action == Panicked ==> Stuck(Conf(), Snap())
      ensures action == NewEpoch ==> InNewEpoch(Conf(), old(Snap()), Snap(), bound)
      ensures action == NewEpoch ==> Committing(old(chain), BlockOf(p), chain)
      ensures action == Panicked ==> epoch > old(epoch)
      ensures action == NoAction ==>
        && Valid()
        && OnlyVoted(old(Snap()), Snap())
        && Locking(Conf(), Snap(), p, except, calm, r + 1)
        && lockedRound == r && lockedPropose == Some(p)
        && prevotes == old(prevotes) && ourPrevotes == old(ourPrevotes)
        && (r in ourPrecommits <==> id.Some? && NoIncompatiblePrevotes(LockedOn(old(Snap()), r, p)))
        && PrecommittedLock(Conf(), Snap())
      decreases bound + 1 - epoch, 3
    {
      hide Ok, Stuck, Gets, Locking, Settled, OnlyVoted, PrevoteQuorum;
      ghost var c, s0 := Conf(), Snap();
      LockedOnVotes(c, s0, p, except, calm, r);
      Lock(r, p);
      action := NoAction;
      if id.Some? {
        var incompatible := HaveIncompatiblePrevotes();
        if !incompatible {
          ghost var s1 := Snap();
          action := PrecommitLock(r, p, except, calm, bound);
          GetsThen(c, s0, s1, Snap());
          if action == NewEpoch {
            NewEpochAfterVoting(c, s0, s1, Snap(), bound);
          } else if action == NoAction {
            OnlyVotedThen(s0, s1, Snap());
          }
        }
      }
    }

    /** Executes the block of the locked propose, precommits it and commits it on +2/3 precommits. */
    method PrecommitLock(r: nat, p: Propose, ghost except: set<Propose>, ghost calm: set<Propose>, ghost bound: nat)
      returns (action: RoundAction)
      requires Valid() && id.Some? && lockedRound == r > 0 && lockedPropose == Some(p) && r !in ourPrecommits
      requires Full(proposes, p) && proposes[p].valid && NoIncompatiblePrevotes(Snap())
      requires Locking(Conf(), Snap(), p, except, calm, r + 1)
      requires epoch <= bound && QueueWithin(Snap(), bound)
      modifies this
      ensures Gets(Conf(), old(Snap()), Snap())
      ensures action == Panicked ==> Stuck(Conf(), Snap())
      ensures action == NewEpoch ==> InNewEpoch(Conf(), old(Snap()), Snap(), bound)
      ensures action == NewEpoch ==> Committing(old(chain), BlockOf(p), chain)
      ensures action == Panicked ==> epoch > old(epoch)
      ensures action == NoAction ==>
        && Valid()
        && OnlyVoted(old(Snap()), Snap())
        && Locking(Conf(), Snap(), p, except, calm, r + 1)
        && lockedRound == r && lockedPropose == Some(p)
        && prevotes == old(prevotes) && ourPrevotes == old(ourPrevotes)
        && r in ourPrecommits
      decreases bound + 1 - epoch, 2
    {
      hide Ok, Stuck, InNewEpoch, Committing, Gets, Locking, Settled, QueueWithin, OnlyVoted, PrevoteQuorum;
      hide NoIncompatiblePrevotes, Named;
      ghost var c, s0 := Conf(), Snap();
      var b := ExecuteAndPrecommit(r, p, except, calm);
      ghost var s1 := Snap();
      VotedFacts(s0, s1, p);
      QueueAfterVoting(s0, s1, bound);
      action := NoAction;
      if Majority(n, precommits, (r, b)) {
        action := HandleMajorityPrecommits(r, p, b, bound);
        GetsThen(c, s0, s1, Snap());
        if action == NewEpoch {
          NewEpochAfterVoting(c, s0, s1, Snap(), bound);
        }
      }
    }

    method ExecuteAndPrecommit(r: nat, p: Propose, ghost except: set<Propose>, ghost calm: set<Propose>)
      returns (b: Block)
      requires Valid() && id.Some? && lockedRound == r > 0 && lockedPropose == Some(p) && r !in ourPrecommits
      requires p in proposes && NoIncompatiblePrevotes(Snap()) && Locking(Conf(), Snap(), p, except, calm, r + 1)
      modifies this`proposes, this`blocks, this`precommits, this`ourPrecommits, this`wire
      ensures Valid() && Gets(Conf(), old(Snap()), Snap()) && OnlyVoted(old(Snap()), Snap())
      ensures b == BlockOf(p) && r in ourPrecommits && Named(epoch, r, p, b, wire)
      ensures !Majority(n, precommits, (r, b)) ==> Locking(Conf(), Snap(), p, except, calm, r + 1)
    {
      hide Ok, Gets, Locking, OnlyVoted, NoIncompatiblePrevotes;
      ghost var c, s0 := Conf(), Snap();
      b := Execute(p);
      ghost var s1 := Snap();
      ExecutedVotes(c, s0, p, except, calm, r + 1);
      GetsNothing(c, s0, s1);
      SameOwnPrevotes(s0, s1);
      BroadcastPrecommit(r, p, b);
      PrecommitSentVotes(c, s1, p, except, calm, r + 1, clock);
      PrecommitSentNamed(c, s1, clock);
      VotedFurther(c, s0, s1, Snap());
    }

    /**
     Commits a block with +2/3 precommits if its propose is complete; otherwise remembers that it is confirmed.
     Panics if the propose has invalid transactions or executes to another block.
     */
    method HandleMajorityPrecommits(r: nat, p: Propose, b: Block, ghost bound: nat) returns (action: RoundAction)
      requires Valid() && Majority(n, precommits, (r, b)) && Named(epoch, r, p, b, wire)
      requires epoch <= bound && QueueWithin(Snap(), bound)
      modifies this
      ensures Gets(Conf(), old(Snap()), Snap())
      ensures action == Panicked ==> Stuck(Conf(), Snap())
      ensures action == NewEpoch ==> InNewEpoch(Conf(), old(Snap()), Snap(), bound)
      ensures action == NewEpoch ==> Committing(old(chain), b, chain)
      ensures (action == Panicked && epoch == old(epoch)) <==>
        Full(old(proposes), p) && (!old(proposes)[p].valid || BlockOf(p) != b)
      ensures action == NoAction ==> Valid() && Snap() == Confirmed(old(Snap()), p, r, b)
      ensures action == NoAction <==> !Full(old(proposes), p)
      decreases bound + 1 - epoch, 1
    {
      hide Ok, Stuck, Gets, Settled, MayCommit, PrevoteQuorum;
      ghost var c, s0 := Conf(), Snap();
      if p !in proposes || proposes[p].unknown != {} {
        ConfirmedKeeps(c, s0, p, r, b);
        confirmed := confirmed[p := (r, b)];
        GetsNothing(c, s0, Snap());
      }
      if p !in proposes {
        return NoAction;
      }
      if proposes[p].unknown != {} {
        return NoAction;
      }
      GetsNothing(c, s0, Snap());
      action := CommitPropose(r, p, b, bound);
    }

    method CommitPropose(r: nat, p: Propose, b: Block, ghost bound: nat) returns (action: RoundAction)
      requires Valid() && Majority(n, precommits, (r, b)) && Named(epoch, r, p, b, wire) && p in proposes
      requires epoch <= bound && QueueWithin(Snap(), bound)
      modifies this
      ensures Gets(Conf(), old(Snap()), Snap())
      ensures action == Panicked ==> Stuck(Conf(), Snap())
      ensures action == NewEpoch ==> InNewEpoch(Conf(), old(Snap()), Snap(), bound)
      ensures action == NewEpoch ==> Committing(old(chain), b, chain)
      ensures action != NoAction
      ensures (action == Panicked && epoch == old(epoch)) <==> !old(proposes)[p].valid || BlockOf(p) != b
      decreases bound + 1 - epoch, 1, 0
    {
      hide Ok, Stuck, Gets, Settled, MayCommit, PrevoteQuorum, InNewEpoch, Committing;
      GetsNothing(Conf(), Snap(), Snap());
      QueueIsWithin(Conf(), Snap());
      if !proposes[p].valid {
        WrongBlockStuck(Conf(), Snap(), r, p, b);
        return Panicked;
      }
      action := ExecuteAndCommit(r, p, b, bound);
    }

    /** Executes a propose and commits its block; panics if that is not the one with +2/3 precommits. */
    method ExecuteAndCommit(r: nat, p: Propose, b: Block, ghost bound: nat) returns (action: RoundAction)
      requires Valid() && Majority(n, precommits, (r, b)) && Named(epoch, r, p, b, wire) && p in proposes
      requires epoch <= bound && QueueWithin(Snap(), bound)
      modifies this
      ensures Gets(Conf(), old(Snap()), Snap())
      ensures action == Panicked ==> Stuck(Conf(), Snap())
      ensures action == NewEpoch ==> InNewEpoch(Conf(), old(Snap()), Snap(), bound)
      ensures action == NewEpoch ==> Committing(old(chain), b, chain)
      ensures action != NoAction
      ensures (action == Panicked && epoch == old(epoch)) <==> BlockOf(p) != b
      decreases bound + 1 - epoch, 0, 1
    {
      hide Ok, Stuck, Gets, Settled, MayCommit, InNewEpoch, Committing, QueueWithin, Named, Executed;
      ghost var c, s0 := Conf(), Snap();
      QueueIsWithin(c, s0);
      var ourBlock := Execute(p);
      ghost var s1 := Snap();
      ExecutedFrame(c, s0, p);
      GetsNothing(c, s0, s1);
      QueueUnchanged(s0, s1, bound);
      if ourBlock != b {
        WrongBlockStuck(c, s1, r, p, b);
        return Panicked;
      }
      MayCommitOwn(c, s1, p, r);
      action := Commit(ourBlock, r, bound);
      GetsThen(c, s0, s1, Snap());
      if action == NewEpoch {
        NewEpochUnchanged(c, s0, s1, Snap(), bound);
      }
    }

    method ForgetCommitted(txs: seq<Tx>)
      modifies this`txCache
      ensures txCache == old(txCache) - TxSet(txs)
    {
      var i := 0;
      while i < |txs|
        invariant 0 <= i <= |txs|
        invariant txCache == old(txCache) - TxSet(txs[..i])
      {
        txCache := txCache - {txs[i]};
        i := i + 1;
        assert TxSet(txs[..i]) == TxSet(txs[..i - 1]) + {txs[i - 1]};
      }
      assert txs[..i] == txs;
    }

    /** The blockchain part of committing a block; a pseudo-block changes neither the chain nor the transactions. */
    method CommitToChain(b: Block)
      requires b.Block?
      modifies this`chain, this`committed, this`pool
      ensures chain == if b.skip then old(chain) else old(chain) + [b]
      ensures committed == if b.skip then old(committed) else old(committed) + TxSet(b.txs)
      ensures pool == if b.skip then old(pool) else old(pool) - TxSet(b.txs)
    {
      if !b.skip {
        chain := chain + [b];
        committed := committed + TxSet(b.txs);
        pool := pool - TxSet(b.txs);
      }
    }

    /** Updates the epoch and forgets what belonged to the previous one. */
    method EnterEpoch(newEpoch: nat)
      requires newEpoch > epoch
      modifies this`epoch, this`round, this`lockedRound, this`lockedPropose, this`blocks, this`proposes, this`confirmed
      modifies this`prevotes, this`precommits, this`validatorsRounds, this`ourPrevotes, this`ourPrecommits
      modifies this`incomplete
      ensures epoch == newEpoch && round == 1 && lockedRound == 0 && lockedPropose == None && blocks == {}
      ensures proposes == map[] && confirmed == map[] && prevotes == map[] && precommits == map[]
      ensures validatorsRounds == map[] && ourPrevotes == map[] && ourPrecommits == map[] && incomplete == None
    {
      epoch, round := newEpoch, 1;
      Unlock();
      ForgetProposes();
      ForgetVotes();
    }

    method Unlock()
      modifies this`lockedRound, this`lockedPropose
      ensures lockedRound == 0 && lockedPropose == None
    {
      lockedRound := 0;
      lockedPropose := None;
    }

    /** Nothing of what was proposed, executed or voted in an epoch is kept. */
    method ForgetProposes()
      modifies this`blocks, this`proposes, this`confirmed, this`validatorsRounds, this`incomplete
      ensures blocks == {} && proposes == map[] && confirmed == map[] && validatorsRounds == map[] && incomplete == None
    {
      blocks := {};
      proposes := map[];
      confirmed := map[];
      validatorsRounds := map[];
      incomplete := None;
    }

    method ForgetVotes()
      modifies this`prevotes, this`precommits, this`ourPrevotes, this`ourPrecommits
      ensures prevotes == map[] && precommits == map[] && ourPrevotes == map[] && ourPrecommits == map[]
    {
      prevotes := map[];
      precommits := map[];
      ourPrevotes := map[];
      ourPrecommits := map[];
    }

    /** The state part of committing an executed block. `dropped` is what the pool manager removes from the pool. */
    method ApplyBlock(b: Block) returns (dropped: set<Tx>)
      requires b in blocks && b.Block? && b.epoch.Some? && b.epoch.value >= epoch
      modifies this
      ensures Snap() == Committed(old(Snap()), b, dropped)
      ensures invalid == if b.skip then old(invalid) else {}
    {
      hide TxSet;
      ForgetCommitted(b.txs);
      CommitToChain(b);
      ghost var s1 := Snap();
      EnterEpoch(b.epoch.value + 1);
      assert Snap() == s1.(
          epoch := b.epoch.value + 1, round := 1, lockedRound := 0, lockedPropose := None, blocks := {},
          proposes := map[], confirmed := map[], prevotes := map[], precommits := map[], rounds := map[],
          ourPrevotes := map[], ourPrecommits := map[], incomplete := None);
      invalid := if b.skip then invalid else {};
      dropped := CleanPool();
    }

    method CleanPool() returns (dropped: set<Tx>)
      modifies this`txCache, this`pool
      ensures txCache == old(txCache) - dropped && pool == old(pool) - dropped
    {
      dropped := *;
      txCache := txCache - dropped;
      pool := pool - dropped;
    }

    /**
     Commits an executed block and handles the queued messages, which may commit further blocks. The recursion ends
     because each commit raises the epoch, and the epochs of all pending messages are at most `bound`. Going back in
     epochs panics, as in debug builds; `Network.CommitRaisesEpoch` shows that it does not happen.
     */
    method Commit(b: Block, ghost r: nat, ghost bound: nat) returns (action: RoundAction)
      requires Valid() && b in blocks && MayCommit(n, Snap().View(Conf()), wire, b, r)
      requires epoch <= bound && b.epoch.value <= bound && QueueWithin(Snap(), bound)
      modifies this
      ensures Gets(Conf(), old(Snap()), Snap())
      ensures action == Panicked ==> Stuck(Conf(), Snap())
      ensures action != NoAction
      ensures action == NewEpoch ==> InNewEpoch(Conf(), old(Snap()), Snap(), bound)
      ensures action == NewEpoch ==> Committing(old(chain), b, chain) && b.epoch.value < epoch
      ensures (action == Panicked && epoch == old(epoch)) <==> b.epoch.value < old(epoch)
      decreases bound + 1 - epoch, 0, 0
    {
      hide Ok, Stuck, Gets, Settled, PrecommitQuorum, Done, KeepsDone, QueueDone, SettledBut, BlockWaits;
      hide Committed, Committing, QueueWithin, KeepsOwn;
      ghost var c, s0 := Conf(), Snap();
      if b.epoch.value + 1 <= epoch {
        GetsNothing(c, s0, Snap());
        BackInTimeStuck(c, s0, b, r);
        return Panicked;
      }
      var dropped := ApplyBlock(b);
      CommittedKeeps(c, s0, b, r, dropped);
      CommittedIsSettled(c, s0, b, dropped);
      ghost var s1 := Snap();
      CommittedFrame(c, s0, b, dropped, bound);
      action := DrainQueue(bound);
      GetsThen(c, s0, s1, Snap());
      GetsGrows(c, s1, Snap());
      if action == Panicked {
        return;
      }
      CommittedQueueDone(c, s0, s1, Snap());
      CommittingPrefix(s0.chain, b, s1.chain, chain);
      return NewEpoch;
    }

    /** A validator that has not prevoted in a round yet does so for the propose it locks on. */
    method PrevoteOnLocking(r: nat, p: Propose, ghost except: set<Propose>, ghost calm: set<Propose>)
      requires Valid() && lockedRound < r <= round && Full(proposes, p) && proposes[p].valid
      requires Majority(n, prevotes, (r, p)) || lockedPropose == Some(p)
      requires Locking(Conf(), Snap(), p, except, calm, r)
      modifies this`prevotes, this`ourPrevotes, this`wire
      ensures Valid() && Gets(Conf(), old(Snap()), Snap()) && OnlyVoted(old(Snap()), Snap())
      ensures Locking(Conf(), Snap(), p, except, calm, r)
      ensures old(Majority(n, prevotes, (r, p))) ==> Majority(n, prevotes, (r, p))
      ensures forall q :: q in old(ourPrevotes) ==> q in ourPrevotes
      ensures id.Some? ==> r in ourPrevotes
      ensures lockedPropose == Some(p) && PrecommittedLock(Conf(), old(Snap())) ==> PrecommittedLock(Conf(), Snap())
    {
      hide Ok, Gets, Locking, OnlyVoted, MayPrevote, PrecommittedLock;
      ghost var c, s := Conf(), Snap();
      GetsNothing(c, s, s);
      OnlyVotedSelf(s);
      if id.Some? && r !in ourPrevotes {
        MayPrevoteWhenLocking(c, s, r, p);
        var _ := CheckProposeAndBroadcastPrevote(r, p);
        PrevoteSentVotes(c, s, p, except, calm, r);
        if lockedPropose == Some(p) && PrecommittedLock(c, s) {
          LockPrevoteSent(c, s, r, p);
        }
      }
    }

    /** One round of locking on `p`. */
    method LockStep(r: nat, p: Propose, ghost except: set<Propose>, ghost calm: set<Propose>, ghost bound: nat)
      returns (action: RoundAction)
      requires Valid() && lockedRound < r <= round && Full(proposes, p) && proposes[p].valid
      requires Majority(n, prevotes, (r, p)) || lockedPropose == Some(p)
      requires Locking(Conf(), Snap(), p, except, calm, r)
      requires lockedPropose == Some(p) ==> PrecommittedLock(Conf(), Snap())
      requires epoch <= bound && QueueWithin(Snap(), bound)
      modifies this
      ensures Gets(Conf(), old(Snap()), Snap())
      ensures action == Panicked ==> Stuck(Conf(), Snap())
      ensures action == NewEpoch ==> InNewEpoch(Conf(), old(Snap()), Snap(), bound)
      ensures action == NewEpoch ==> Committing(old(chain), BlockOf(p), chain)
      ensures action == Panicked ==> epoch > old(epoch)
      ensures action == NoAction ==>
        && Valid()
        && OnlyVoted(old(Snap()), Snap())
        && Locking(Conf(), Snap(), p, except, calm, r + 1)
        && old(lockedRound) <= lockedRound <= r && lockedPropose == Some(p)
        && (old(Majority(n, prevotes, (r, p))) ==> lockedRound == r)
        && (forall q :: q in old(ourPrevotes) ==> q in ourPrevotes)
        && (id.Some? ==> r in ourPrevotes)
        && PrecommittedLock(Conf(), Snap())
      decreases bound + 1 - epoch, 4, 0
    {
      hide Ok, Stuck, Gets, Locking, Settled, OnlyVoted, InNewEpoch, QueueWithin, PrecommittedLock;
      ghost var c, s0 := Conf(), Snap();
      PrevoteOnLocking(r, p, except, calm);
      ghost var s1 := Snap();
      VotedFacts(s0, s1, p);
      if !Majority(n, prevotes, (r, p)) {
        NoMajorityHere(c, s1, p, except, calm, r);
        return NoAction;
      }
      QueueAfterVoting(s0, s1, bound);
      action := LockAtRound(r, p, except, calm, bound);
      GetsThen(c, s0, s1, Snap());
      if action == NewEpoch {
        NewEpochAfterVoting(c, s0, s1, Snap(), bound);
      } else if action == NoAction {
        OnlyVotedThen(s0, s1, Snap());
      }
    }

    /**
     Locks on `p` from `prevoteRound` on: prevotes for it in every later round still open, and moves the lock to each
     round with +2/3 prevotes.
     */
    method LockOn(prevoteRound: nat, p: Propose, ghost except: set<Propose>, ghost calm: set<Propose>, ghost bound: nat)
      returns (action: RoundAction)
      requires Valid() && lockedRound < prevoteRound <= round && Majority(n, prevotes, (prevoteRound, p))
      requires Full(proposes, p) && proposes[p].valid
      requires Locking(Conf(), Snap(), p, except, calm, prevoteRound)
      requires lockedPropose == Some(p) ==> PrecommittedLock(Conf(), Snap())
      requires epoch <= bound && QueueWithin(Snap(), bound)
      modifies this
      ensures Gets(Conf(), old(Snap()), Snap())
      ensures action == Panicked ==> Stuck(Conf(), Snap())
      ensures action == NewEpoch ==> InNewEpoch(Conf(), old(Snap()), Snap(), bound)
      ensures action == NewEpoch ==> Committing(old(chain), BlockOf(p), chain)
      ensures action == Panicked ==> epoch > old(epoch)
      ensures action == NoAction ==>
        && Valid()
        && OnlyVoted(old(Snap()), Snap())
        && SettledBut(Conf(), Snap(), (except - {p}) + calm)
        && NoMissedLock(n, proposes, prevotes, lockedRound, except - {p})
        && lockedRound >= prevoteRound && lockedPropose == Some(p)
        && (id.Some? ==> forall r :: prevoteRound <= r <= round ==> r in ourPrevotes)
      decreases bound + 1 - epoch, 4
    {
      hide Ok, Stuck, PrecommittedLock, Gets, Locking, Settled, SettledBut, OnlyVoted, InNewEpoch, MayPrevote;
      hide PrevoteQuorum, NoMissedLock, QueueWithin;
      ghost var c, s0 := Conf(), Snap();
      GetsNothing(c, s0, s0);
      OnlyVotedSelf(s0);
      var r, end := prevoteRound, round + 1;
      while r < end
        invariant prevoteRound <= r <= end
        invariant Valid() && Gets(c, s0, Snap()) && OnlyVoted(s0, Snap())
        invariant epoch == s0.epoch && round == s0.round && chain == s0.chain
        invariant Full(proposes, p) && proposes[p].valid
        invariant Locking(c, Snap(), p, except, calm, r)
        invariant lockedRound < r
        invariant lockedPropose == Some(p) ==> PrecommittedLock(c, Snap())
        invariant r == prevoteRound ==> Majority(n, prevotes, (r, p))
        invariant r > prevoteRound ==> lockedRound >= prevoteRound && lockedPropose == Some(p)
        invariant id.Some? ==> forall q :: prevoteRound <= q < r ==> q in ourPrevotes
      {
        ghost var s1 := Snap();
        QueueAfterVoting(s0, s1, bound);
        action := LockStep(r, p, except, calm, bound);
        GetsThen(c, s0, s1, Snap());
        if action == NewEpoch {
          NewEpochAfterVoting(c, s0, s1, Snap(), bound);
        }
        if action != NoAction {
          return;
        }
        OnlyVotedThen(s0, s1, Snap());
        VotedFacts(s0, Snap(), p);
        r := r + 1;
      }
      LockingDone(c, Snap(), p, except, calm);
      return NoAction;
    }

    /** Called on +2/3 prevotes for a complete propose. Panics if it has invalid transactions. */
    method HandleMajorityPrevotes(
      prevoteRound: nat, p: Propose, ghost except: set<Propose>, ghost calm: set<Propose>, ghost bound: nat)
      returns (action: RoundAction)
      requires Valid() && Majority(n, prevotes, (prevoteRound, p)) && Full(proposes, p)
      requires lockedRound < prevoteRound ==> Locking(Conf(), Snap(), p, except, calm, prevoteRound)
      requires lockedPropose == Some(p) ==> PrecommittedLock(Conf(), Snap())
      requires epoch <= bound && QueueWithin(Snap(), bound)
      modifies this
      ensures Gets(Conf(), old(Snap()), Snap())
      ensures action == Panicked ==> Stuck(Conf(), Snap())
      ensures action == NewEpoch ==> InNewEpoch(Conf(), old(Snap()), Snap(), bound)
      ensures action == NewEpoch ==> Committing(old(chain), BlockOf(p), chain)
      ensures (action == Panicked && epoch == old(epoch)) <==>
        old(lockedRound) < prevoteRound && !old(proposes)[p].valid
      ensures old(lockedRound) >= prevoteRound ==> action == NoAction && Snap() == old(Snap())
      ensures action == NoAction && old(lockedRound) < prevoteRound ==>
        && Valid()
        && OnlyVoted(old(Snap()), Snap())
        && SettledBut(Conf(), Snap(), (except - {p}) + calm)
        && NoMissedLock(n, proposes, prevotes, lockedRound, except - {p})
        && lockedRound >= prevoteRound && lockedPropose == Some(p)
        && (id.Some? ==> forall r :: prevoteRound <= r <= round ==> r in ourPrevotes)
      decreases bound + 1 - epoch, 5
    {
      hide Ok, Stuck, PrecommittedLock, Gets, Locking, Settled, SettledBut, OnlyVoted, InNewEpoch, PrevoteQuorum;
      hide NoMissedLock, QueueWithin;
      GetsNothing(Conf(), Snap(), Snap());
      if lockedRound < prevoteRound && p in proposes {
        if !proposes[p].valid {
          InvalidPrevotedStuck(Conf(), Snap(), prevoteRound, p);
          return Panicked;
        }
        MajorityIsPrevoteQuorum(Conf(), Snap(), prevoteRound, p);
        action := LockOn(prevoteRound, p, except, calm, bound);
      } else {
        action := NoAction;
      }
    }

    /**
     Called when all transactions of a propose are known: prevotes for it unless locked, locks on it if it has +2/3
     prevotes, commits its block if that was confirmed before.
     */
    method HandleFullPropose(p: Propose, ghost except: set<Propose>, ghost bound: nat) returns (action: RoundAction)
      requires Valid() && Full(proposes, p) && p in except && SettledBut(Conf(), Snap(), except)
      requires epoch <= bound && QueueWithin(Snap(), bound)
      modifies this
      ensures Gets(Conf(), old(Snap()), Snap())
      ensures action == Panicked ==> Stuck(Conf(), Snap())
      ensures action == NewEpoch ==> InNewEpoch(Conf(), old(Snap()), Snap(), bound)
      ensures action == NewEpoch ==> Committing(old(chain), BlockOf(p), chain)
      ensures epoch == old(epoch) ==> (action == Panicked <==> FullPanics(Conf(), old(Snap()), p))
      ensures action == NoAction ==>
        Valid() && OnlyVoted(old(Snap()), Snap()) && SettledBut(Conf(), Snap(), except - {p})
      ensures p in old(confirmed) ==> action != NoAction
      decreases bound + 1 - epoch, 7
    {
      hide Ok, Stuck, FullPanics, InvalidMajority, Gets, Settled, SettledBut, OnlyVoted, InNewEpoch, Completing;
      hide QueueWithin;
      ghost var c, s0 := Conf(), Snap();
      PrevoteForFullPropose(p, except);
      ghost var s1 := Snap();
      CompletingStarts(c, s1, p, except);
      FullPanicsIs(c, s0, p);
      FullPanicsIs(c, s1, p);
      VotedFacts(s0, s1, p);
      QueueAfterVoting(s0, s1, bound);
      action := LockOnMajorities(p, except, bound);
      ghost var s2 := Snap();
      GetsThen(c, s0, s1, s2);
      if action == NewEpoch {
        NewEpochAfterVoting(c, s0, s1, s2, bound);
        NewEpochRises(c, s0, s2, bound);
      }
      if action != NoAction {
        return;
      }
      OnlyVotedThen(s0, s1, s2);
      VotedFacts(s0, s2, p);
      if p in confirmed {
        QueueAfterVoting(s0, s2, bound);
        action := CommitConfirmed(p, bound);
        GetsThen(c, s0, s2, Snap());
        if action == NewEpoch {
          NewEpochAfterVoting(c, s0, s2, Snap(), bound);
          NewEpochRises(c, s0, Snap(), bound);
        }
      } else {
        CompletingDone(c, s2, p, except);
      }
    }

    /** An unlocked validator prevotes for a complete propose in the propose's round, unless it has voted there. */
    method PrevoteForFullPropose(p: Propose, ghost except: set<Propose>)
      requires Valid() && Full(proposes, p) && p in except && SettledBut(Conf(), Snap(), except)
      modifies this`prevotes, this`ourPrevotes, this`wire
      ensures Valid() && Gets(Conf(), old(Snap()), Snap())
      ensures OnlyVoted(old(Snap()), Snap()) && SettledBut(Conf(), Snap(), except)
      ensures id.Some? && lockedRound == 0 && proposes[p].valid ==> p.round in ourPrevotes
      ensures !proposes[p].valid ==> Snap() == old(Snap())
    {
      hide Ok, Gets, SettledBut, OnlyVoted, MayPrevote, InsertVote, Majority;
      ghost var c, s0 := Conf(), Snap();
      GetsNothing(c, s0, s0);
      OnlyVotedSelf(s0);
      if lockedRound == 0 {
        if id.Some? && p.round !in ourPrevotes {
          if s0.proposes[p].valid {
            MayPrevoteUnlocked(c, s0, p);
          }
          var _ := CheckProposeAndBroadcastPrevote(p.round, p);
          if s0.proposes[p].valid {
            PrevoteSentSettles(c, s0, p, except, p.round);
          }
        }
      }
    }

    /** The rounds after the lock in which `p` has +2/3 prevotes. */
    method LockOnMajorities(p: Propose, ghost except: set<Propose>, ghost bound: nat) returns (action: RoundAction)
      requires Valid() && Full(proposes, p) && p in except
      requires Completing(Conf(), Snap(), p, except, if p.round > lockedRound + 1 then p.round else lockedRound + 1)
      requires epoch <= bound && QueueWithin(Snap(), bound)
      modifies this
      ensures Gets(Conf(), old(Snap()), Snap())
      ensures action == Panicked ==> Stuck(Conf(), Snap())
      ensures action == NewEpoch ==> InNewEpoch(Conf(), old(Snap()), Snap(), bound)
      ensures action == NewEpoch ==> Committing(old(chain), BlockOf(p), chain)
      ensures (action == Panicked && epoch == old(epoch)) <==> InvalidMajority(Conf(), old(Snap()), p, old(round) + 1)
      ensures action == NoAction ==>
        Valid() && OnlyVoted(old(Snap()), Snap()) && Completing(Conf(), Snap(), p, except, round + 1)
      decreases bound + 1 - epoch, 6
    {
      hide Ok, Stuck, PrecommittedLock, Gets, Settled, SettledBut, OnlyVoted, InNewEpoch, Completing, Locking;
      hide QueueWithin, NoMissedLock, Committing, MayPrevote, PrevoteQuorum;
      ghost var c, s0 := Conf(), Snap();
      GetsNothing(c, s0, s0);
      OnlyVotedSelf(s0);
      var start := if p.round > lockedRound + 1 then p.round else lockedRound + 1;
      var r, end := start, round + 1;
      KnownRounds(c, s0, p);
      while r < end
        invariant start <= r <= end
        invariant Valid() && Gets(c, s0, Snap()) && OnlyVoted(s0, Snap())
        invariant epoch == s0.epoch && round == s0.round && chain == s0.chain && Full(proposes, p)
        invariant Completing(c, Snap(), p, except, r)
        invariant proposes[p].valid == s0.proposes[p].valid
        invariant !s0.proposes[p].valid ==> Snap() == s0 && !InvalidMajority(c, s0, p, r)
      {
        ghost var s1 := Snap();
        if Majority(n, prevotes, (r, p)) {
          CompletingLocks(c, s1, p, except, r);
          CompletingPrecommitted(c, s1, p, except, r);
          QueueAfterVoting(s0, s1, bound);
          action := HandleMajorityPrevotes(r, p, except, except, bound);
          GetsThen(c, s0, s1, Snap());
          if action == NewEpoch {
            NewEpochAfterVoting(c, s0, s1, Snap(), bound);
          }
          if action != NoAction {
            return;
          }
          if s1.lockedRound < r {
            VotedFacts(s1, Snap(), p);
            CompletingLocked(c, Snap(), p, except, r + 1);
            OnlyVotedThen(s0, s1, Snap());
          } else {
            CompletingNext(c, s1, p, except, r);
          }
        } else {
          CompletingNext(c, s1, p, except, r);
        }
        r := r + 1;
      }
      return NoAction;
    }

    /**
     Commits the block of a complete propose that had +2/3 precommits before; panics if it executes to another block.
     */
    method CommitConfirmed(p: Propose, ghost bound: nat) returns (action: RoundAction)
      requires Valid() && Full(proposes, p) && p in confirmed
      requires epoch <= bound && QueueWithin(Snap(), bound)
      modifies this
      ensures Gets(Conf(), old(Snap()), Snap())
      ensures action == Panicked ==> Stuck(Conf(), Snap())
      ensures action != NoAction
      ensures action == NewEpoch ==> InNewEpoch(Conf(), old(Snap()), Snap(), bound)
      ensures action == NewEpoch ==> Committing(old(chain), old(confirmed)[p].1, chain)
      ensures (action == Panicked && epoch == old(epoch)) <==> BlockOf(p) != old(confirmed)[p].1
      decreases bound + 1 - epoch, 1
    {
      hide Ok, Stuck, Gets, Settled, InNewEpoch, Committing, QueueWithin, Named;
      ghost var c, s0 := Conf(), Snap();
      var r, b := TakeConfirmed(p);
      ghost var s1 := Snap();
      GetsNothing(c, s0, s1);
      QueueUnchanged(s0, s1, bound);
      action := ExecuteAndCommit(r, p, b, bound);
      GetsThen(c, s0, s1, Snap());
      if action == NewEpoch {
        NewEpochUnchanged(c, s0, s1, Snap(), bound);
      }
    }

    method TakeConfirmed(p: Propose) returns (r: nat, b: Block)
      requires Valid() && p in confirmed
      modifies this`confirmed
      ensures Valid() && (r, b) == old(confirmed)[p] && confirmed == old(confirmed) - {p}
      ensures Majority(n, precommits, (r, b)) && Named(epoch, r, p, b, wire)
    {
      hide Ok, Named;
      ghost var c, s := Conf(), Snap();
      ConfirmedHasMajority(c, s, p);
      UnconfirmedKeeps(c, s, p);
      r, b := confirmed[p].0, confirmed[p].1;
      confirmed := confirmed - {p};
      assert Snap() == s.(confirmed := s.confirmed - {p});
    }

    // ---- Messages

    /** Looks up the transactions of a propose; refuses a known propose and committed transactions. */
    method AddPropose(p: Propose) returns (added: bool)
      requires Valid() && p.epoch == epoch && p.round <= round && p.prev == Last(chain) && Led(n, id, epoch, p)
      modifies this`proposes
      ensures added <==> p !in old(proposes) && forall t :: t in p.txs ==> !RefusedTx(old(Snap()), t)
      ensures !added ==> proposes == old(proposes)
      ensures added ==>
        && p in proposes && proposes == old(proposes)[p := proposes[p]]
        && proposes[p].block == None && Tracked(p, proposes[p], Known(), invalid)
    {
      hide Ok, Tracked;
      InvalidIsUnknown(Conf(), Snap());
      if p in proposes {
        return false;
      }
      ghost var s := Snap();
      var valid, unknown := true, {};
      var i := 0;
      while i < |p.txs|
        invariant 0 <= i <= |p.txs|
        invariant forall j :: 0 <= j < i ==> !RefusedTx(s, p.txs[j])
        invariant unknown == (set t | t in p.txs[..i] && t !in Known() && t !in invalid)
        invariant valid <==> forall j :: 0 <= j < i && p.txs[j] !in Known() ==> p.txs[j] !in invalid
      {
        var t := p.txs[i];
        assert p.txs[..i + 1] == p.txs[..i] + [t];
        if t in txCache {
        } else if t in pool || t in committed {
          if t !in pool {
            assert t in p.txs && RefusedTx(s, t);
            return false;
          }
        } else if t in invalid {
          valid := false;
        } else {
          unknown := unknown + {t};
        }
        i := i + 1;
      }
      assert p.txs[..i] == p.txs;
      LookupTracks(s, p, unknown, valid);
      proposes := proposes[p := ProposeState(unknown, valid, None)];
      added := true;
    }

    ghost function Known(): set<Tx>
      reads this
    {
      Snap().Known()
    }

    function Leader(r: nat): nat
      reads this
      requires n > 0
    {
      LeaderOf(n, epoch, r)
    }

    /**
     Handles a propose of this epoch and a reached round, if it is well-formed, on the last block and by the leader.
     */
    method HandlePropose(p: Propose, ghost bound: nat) returns (action: RoundAction)
      requires Valid() && Settled(Conf(), Snap()) && p.epoch == epoch && p.round <= round
      requires epoch <= bound && QueueWithin(Snap(), bound)
      modifies this
      ensures Gets(Conf(), old(Snap()), Snap())
      ensures action == Panicked ==> Stuck(Conf(), Snap())
      ensures action == NewEpoch ==> InNewEpoch(Conf(), old(Snap()), Snap(), bound)
      ensures action == NewEpoch ==> Committing(old(chain), BlockOf(p), chain)
      ensures action == NoAction ==> Valid() && Settled(Conf(), Snap()) && QueueWithin(Snap(), bound)
      ensures action == NoAction ==> epoch == old(epoch) && round == old(round) && chain == old(chain)
      ensures action == NoAction ==> incomplete == old(incomplete) && isEnabled == old(isEnabled)
      ensures action == NoAction ==> KeepsDone(Conf(), old(Snap()), Snap()) && KeepsOwn(old(ourPrevotes), ourPrevotes)
      ensures !Proposable(Conf(), old(Snap()), p) ==> Snap() == old(Snap())
      ensures n > 0 && |old(chain)| > 0
      ensures p.validator != LeaderOf(n, old(epoch), p.round) || p.prev != Last(old(chain)) ==> Snap() == old(Snap())
      ensures p.skip && p.txs != [] ==> Snap() == old(Snap())
      ensures action == NoAction && p.validator == LeaderOf(n, old(epoch), p.round) && p.prev == Last(old(chain)) ==>
        (p.skip ==> p.txs == []) && (forall t :: t in p.txs ==> !RefusedTx(old(Snap()), t)) ==> p in proposes
      ensures action == NoAction && Snap() != old(Snap()) ==> p in proposes
      ensures action == NoAction ==> Handled(Conf(), Snap(), ProposeMsg(p))
      ensures epoch == old(epoch) ==>
        (action == Panicked <==> Proposable(Conf(), old(Snap()), p) && ProposePanics(Conf(), old(Snap()), p))
      decreases bound + 1 - epoch, 9
    {
      hide Ok, Stuck, Gets, Settled, InNewEpoch, QueueWithin;
      QueueIsWithin(Conf(), Snap());
      GetsNothing(Conf(), Snap(), Snap());
      action := NoAction;
      if p.skip && p.txs != [] {
        return;
      }
      if p.prev != Last(chain) {
        return;
      }
      if p.validator != Leader(p.round) {
        return;
      }
      action := HandleCheckedPropose(p, bound);
    }

    method HandleCheckedPropose(p: Propose, ghost bound: nat) returns (action: RoundAction)
      requires Valid() && Settled(Conf(), Snap()) && p.epoch == epoch && p.round <= round && p.prev == Last(chain)
      requires Led(n, id, epoch, p)
      requires epoch <= bound && QueueWithin(Snap(), bound)
      modifies this
      ensures Gets(Conf(), old(Snap()), Snap())
      ensures action == Panicked ==> Stuck(Conf(), Snap())
      ensures action == NewEpoch ==> InNewEpoch(Conf(), old(Snap()), Snap(), bound)
      ensures action == NewEpoch ==> Committing(old(chain), BlockOf(p), chain)
      ensures epoch == old(epoch) ==> (action == Panicked <==> ProposePanics(Conf(), old(Snap()), p))
      ensures action == NoAction ==> Valid() && Settled(Conf(), Snap()) && QueueWithin(Snap(), bound)
      ensures action == NoAction ==> epoch == old(epoch) && round == old(round) && chain == old(chain)
      ensures action == NoAction ==> incomplete == old(incomplete) && isEnabled == old(isEnabled)
      ensures action == NoAction ==> KeepsDone(Conf(), old(Snap()), Snap()) && KeepsOwn(old(ourPrevotes), ourPrevotes)
      ensures action == NoAction ==>
        (p in proposes <==> p in old(proposes) || forall t :: t in p.txs ==> !RefusedTx(old(Snap()), t))
      ensures action == NoAction && Snap() != old(Snap()) ==> p in proposes
      decreases bound + 1 - epoch, 8
    {
      hide Ok, Stuck, Gets, SettledBut, OnlyVoted, QueueWithin, FullPanics, ProposePanics, KeepsDone, InNewEpoch;
      hide RefusedTx;
      hide Committing;
      ghost var c, s0 := Conf(), Snap();
      GetsNothing(c, s0, s0);
      KeepsDoneSelf(c, s0);
      var added := TrackPropose(p);
      if !added {
        return NoAction;
      }
      ghost var s1 := Snap();
      QueueUnchanged(s0, s1, bound);
      if proposes[p].unknown != {} {
        return NoAction;
      }
      action := HandleFullPropose(p, {p}, bound);
      GetsThen(c, s0, s1, Snap());
      if action == NewEpoch {
        NewEpochUnchanged(c, s0, s1, Snap(), bound);
        NewEpochRises(c, s0, Snap(), bound);
      } else if action == NoAction {
        assert {p} - {p} == {};
        VotedFacts(s1, Snap(), p);
        QueueAfterVoting(s1, Snap(), bound);
        SettledAfter(c, s0, s1, Snap());
        VotingKeepsDone(c, s1, Snap());
        KeepsDoneThen(c, s0, s1, Snap());
      }
    }

    /** Starts to track a propose, unless it is known or refused. */
    method TrackPropose(p: Propose) returns (added: bool)
      requires Valid() && Settled(Conf(), Snap()) && p.epoch == epoch && p.round <= round && p.prev == Last(chain)
      requires Led(n, id, epoch, p)
      modifies this`proposes
      ensures !added ==> Snap() == old(Snap()) && !ProposePanics(Conf(), old(Snap()), p)
      ensures added <==> p !in old(proposes) && forall t :: t in p.txs ==> !RefusedTx(old(Snap()), t)
      ensures added ==>
        && Valid() && Gets(Conf(), old(Snap()), Snap()) && KeepsDone(Conf(), old(Snap()), Snap())
        && p in proposes && Snap() == old(Snap()).(proposes := old(proposes)[p := proposes[p]])
        && SettledBut(Conf(), Snap(), if proposes[p].unknown == {} then {p} else {})
        && (proposes[p].unknown != {} ==> Settled(Conf(), Snap()))
        && (ProposePanics(Conf(), old(Snap()), p) <==> proposes[p].unknown == {} && FullPanics(Conf(), Snap(), p))
    {
      hide Ok, Gets, SettledBut, Tracked, RefusedTx, FullPanics, ProposePanics, KeepsDone;
      ghost var c, s0 := Conf(), Snap();
      added := AddPropose(p);
      if !added {
        NotAddedPanics(c, s0, p);
        return;
      }
      ghost var s1 := Snap();
      ProposeAddedKeeps(c, s0, p, proposes[p]);
      ProposeAddedSettles(c, s0, p, proposes[p]);
      assert s1 == s0.(proposes := s0.proposes[p := proposes[p]]);
      GetsNothing(c, s0, s1);
      GrowthKeepsDone(c, s0, s1);
      AddedPanics(c, s0, p, proposes[p]);
    }

    /** A received vote under the node's own id is one it has sent, so its own votes do not change. */
    method ReceivePrevote(m: Prevote) returns (majority: bool)
      requires Valid() && PrevoteMsg(m) in wire && m.validator < n && m.epoch == epoch && m.round <= round
      modifies this`prevotes, this`ourPrevotes
      ensures Valid() && Sized(n, old(prevotes), (m.round, m.propose)) && Snap() == PrevoteGot(Conf(), old(Snap()), m)
      ensures majority == Majority(n, prevotes, (m.round, m.propose))
    {
      hide Ok, PrevoteGot;
      PrevoteGotKeeps(Conf(), Snap(), m);
      majority := CountPrevote(m);
    }

    method CountPrevote(m: Prevote) returns (majority: bool)
      requires m.validator < n && Sized(n, prevotes, (m.round, m.propose))
      requires id == Some(m.validator) ==> m.round in ourPrevotes && ourPrevotes[m.round] == m
      modifies this`prevotes, this`ourPrevotes
      ensures Snap() == PrevoteGot(Conf(), old(Snap()), m)
      ensures majority == Majority(n, prevotes, (m.round, m.propose))
    {
      hide InsertVote, Majority;
      SameEntry(ourPrevotes, m.round, m);
      majority := AddPrevote(m);
    }

    method ReceivePrecommit(m: Precommit) returns (majority: bool)
      requires Valid() && PrecommitMsg(m) in wire && m.validator < n && m.epoch == epoch
      modifies this`precommits, this`ourPrecommits
      ensures Valid() && Sized(n, old(precommits), (m.round, m.block)) && Snap() == PrecommitGot(Conf(), old(Snap()), m)
      ensures majority == Majority(n, precommits, (m.round, m.block))
    {
      hide Ok, PrecommitGot;
      PrecommitGotKeeps(Conf(), Snap(), m);
      majority := CountPrecommit(m);
    }

    method CountPrecommit(m: Precommit) returns (majority: bool)
      requires m.validator < n && Sized(n, precommits, (m.round, m.block))
      requires id == Some(m.validator) ==> m.round in ourPrecommits && ourPrecommits[m.round] == m
      modifies this`precommits, this`ourPrecommits
      ensures Snap() == PrecommitGot(Conf(), old(Snap()), m)
      ensures majority == Majority(n, precommits, (m.round, m.block))
    {
      hide InsertVote, Majority;
      SameEntry(ourPrecommits, m.round, m);
      majority := AddPrecommit(m);
    }

    /** Counts a prevote of this epoch and a reached round, and locks if that completes +2/3 for a complete propose. */
    method HandlePrevote(m: Prevote, ghost bound: nat) returns (action: RoundAction)
      requires Valid() && Settled(Conf(), Snap())
      requires PrevoteMsg(m) in wire && m.validator < n && m.epoch == epoch && m.round <= round
      requires epoch <= bound && QueueWithin(Snap(), bound)
      modifies this
      ensures Gets(Conf(), old(Snap()), Snap())
      ensures action == Panicked ==> Stuck(Conf(), Snap())
      ensures action == NewEpoch ==> InNewEpoch(Conf(), old(Snap()), Snap(), bound)
      ensures action == NewEpoch ==> Committing(old(chain), BlockOf(m.propose), chain)
      ensures (action == Panicked && epoch == old(epoch)) <==> PrevotePanics(Conf(), old(Snap()), m)
      ensures action == NoAction ==> Valid() && Settled(Conf(), Snap()) && QueueWithin(Snap(), bound)
      ensures action == NoAction ==> epoch == old(epoch) && round == old(round) && chain == old(chain)
      ensures action == NoAction ==> incomplete == old(incomplete) && isEnabled == old(isEnabled)
      ensures action == NoAction ==> KeepsDone(Conf(), old(Snap()), Snap()) && KeepsOwn(old(ourPrevotes), ourPrevotes)
      ensures action == NoAction ==> Handled(Conf(), Snap(), PrevoteMsg(m))
      decreases bound + 1 - epoch, 9
    {
      hide Ok, Stuck, KeepsDone, PrevotePanics, Committing, PrecommittedLock, Gets, SettledBut, OnlyVoted;
      hide InNewEpoch, Locking, QueueWithin, NoMissedLock, Counted, InsertVote, Majority, KeepsOwn;
      ghost var c, s0 := Conf(), Snap();
      PrevoteGotKeeps(c, s0, m);
      PrevoteIsCounted(c, s0, m);
      PrevoteGotSettles(c, s0, m);
      var majority := ReceivePrevote(m);
      ghost var s1 := Snap();
      GetsNothing(c, s0, s1);
      QueueUnchanged(s0, s1, bound);
      PrevoteGotKeepsDone(c, s0, m);
      PrevotePanicsIs(c, s0, m);
      action := NoAction;
      if majority && Full(proposes, m.propose) {
        action := HandleMajorityPrevotes(m.round, m.propose, {}, {}, bound);
        GetsThen(c, s0, s1, Snap());
        if action == NewEpoch {
          NewEpochUnchanged(c, s0, s1, Snap(), bound);
          NewEpochRises(c, s0, Snap(), bound);
        } else if action == NoAction && s1.lockedRound < m.round {
          VotedFacts(s1, Snap(), m.propose);
          assert ({} - {m.propose}) + {} == {};
          QueueAfterVoting(s1, Snap(), bound);
          SettledAfter(c, s0, s1, Snap());
          VotingKeepsDone(c, s1, Snap());
          KeepsDoneThen(c, s0, s1, Snap());
          CountedStays(s1, Snap(), (m.round, m.propose), m.validator);
        }
      }
    }

    /** Counts a precommit of this epoch and a reached round, and acts on +2/3. */
    method HandlePrecommit(m: Precommit, ghost bound: nat) returns (action: RoundAction)
      requires Valid() && Settled(Conf(), Snap())
      requires PrecommitMsg(m) in wire && m.validator < n && m.epoch == epoch
      requires epoch <= bound && QueueWithin(Snap(), bound)
      modifies this
      ensures Gets(Conf(), old(Snap()), Snap())
      ensures action == Panicked ==> Stuck(Conf(), Snap())
      ensures action == NewEpoch ==> InNewEpoch(Conf(), old(Snap()), Snap(), bound)
      ensures action == NewEpoch ==> Committing(old(chain), m.block, chain)
      ensures (action == Panicked && epoch == old(epoch)) <==> PrecommitPanics(Conf(), old(Snap()), m)
      ensures action == NoAction <==> !(Completes(Conf(), old(Snap()), m) && Full(old(proposes), m.propose))
      ensures action == NoAction ==> Valid() && Settled(Conf(), Snap()) && QueueWithin(Snap(), bound)
      ensures action == NoAction ==> epoch == old(epoch) && round == old(round) && chain == old(chain)
      ensures action == NoAction ==> incomplete == old(incomplete) && isEnabled == old(isEnabled)
      ensures action == NoAction ==> KeepsDone(Conf(), old(Snap()), Snap()) && KeepsOwn(old(ourPrevotes), ourPrevotes)
      ensures action == NoAction && m.round <= round ==> Handled(Conf(), Snap(), PrecommitMsg(m))
      decreases bound + 1 - epoch, 9
    {
      hide Ok, Stuck, KeepsDone, PrecommitPanics, Committing, Gets, Settled, InNewEpoch, QueueWithin, Handled;
      hide PrecommitGot;
      hide Confirmed, Named, KeepsOwn, Completes;
      ghost var c, s0 := Conf(), Snap();
      PrecommitGotKeeps(c, s0, m);
      PrecommitPanicsIs(c, s0, m);
      PrecommitNamed(c, s0, m);
      var majority := ReceivePrecommit(m);
      ghost var s1 := Snap();
      PrecommitContext(c, s0, m, bound);
      GetsNothing(c, s0, s1);
      action := NoAction;
      if majority {
        action := HandleMajorityPrecommits(m.round, m.propose, m.block, bound);
        GetsThen(c, s0, s1, Snap());
        if action == NewEpoch {
          NewEpochUnchanged(c, s0, s1, Snap(), bound);
          NewEpochRises(c, s0, Snap(), bound);
        }
      }
      if action == NoAction {
        PrecommitLeaves(c, s0, Snap(), m, bound);
      }
    }

    /**
     Notes that a validator has announced a round. Returns the highest round that more validators than can be Byzantine
     have reached, if that is later than the node's own round.
     */
    method UpdateValidatorRound(v: nat, r: nat) returns (jump: Option<nat>)
      requires n > 0
      modifies this`validatorsRounds
      ensures var known := if v in old(validatorsRounds) then old(validatorsRounds)[v] else 0;
        && validatorsRounds == old(validatorsRounds)[v := if r > known then r else known]
        && (jump.None? <==> r <= known || forall q :: q > round ==> |Reached(validatorsRounds, q)| <= MaxFaulty(n))
      ensures jump.Some? ==>
        && jump.value > round
        && |Reached(validatorsRounds, jump.value)| > MaxFaulty(n)
        && forall q :: q > jump.value ==> |Reached(validatorsRounds, q)| <= MaxFaulty(n)
    {
      if v !in validatorsRounds {
        validatorsRounds := validatorsRounds[v := 0];
      }
      if r <= validatorsRounds[v] {
        return None;
      }
      validatorsRounds := validatorsRounds[v := r];
      var maxByzantine := (n + 2) / 3 - 1;
      if |validatorsRounds| <= maxByzantine {
        forall q | q > round ensures |Reached(validatorsRounds, q)| <= maxByzantine {
          assert Reached(validatorsRounds, q) <= validatorsRounds.Keys;
          SubsetCardinality(Reached(validatorsRounds, q), validatorsRounds.Keys);
        }
        return None;
      }
      var highest := HighestReached(validatorsRounds, maxByzantine);
      if highest > round {
        return Some(highest);
      } else {
        return None;
      }
    }

    method Enqueue(m: Message)
      modifies this`queued
      ensures Snap() == old(Snap()).(queued := old(queued) + [m])
    {
      queued := queued + [m];
    }

    /**
     Queues a message from the next epoch or a later round, and schedules a jump to a round that others have reached.
     */
    method QueueMessage(m: Message, ghost bound: nat)
      requires Valid() && Settled(Conf(), Snap()) && m in wire && m.Validator() < n && m.Epoch() <= bound
      requires m.Epoch() == epoch + 1 || (m.Epoch() == epoch && m.Round() > round)
      requires QueueWithin(Snap(), bound)
      modifies this`queued, this`validatorsRounds, this`jumps
      ensures Valid() && Settled(Conf(), Snap()) && QueueWithin(Snap(), bound)
      ensures queued == old(queued) + [m]
      ensures n > 0 && Noted(n, epoch, round, old(validatorsRounds), validatorsRounds, old(jumps), jumps, m)
      ensures jumps == old(jumps) || exists r: nat :: r > round && jumps == old(jumps) + [(epoch, r)]
    {
      hide Ok, Settled, QueueWithin, Noted;
      ghost var c, s0 := Conf(), Snap();
      MessageQueued(c, s0, m, bound);
      Enqueue(m);
      ghost var s1 := Snap();
      NoteRound(m);
      NotedRounds(n, epoch, round, s1.rounds, validatorsRounds, old(jumps), jumps, m);
      RoundNoted(c, s1, m, validatorsRounds);
      QueueUnchanged(s1, Snap(), bound);
    }

    method NoteRound(m: Message)
      requires n > 0
      modifies this`validatorsRounds, this`jumps
      ensures Noted(n, epoch, round, old(validatorsRounds), validatorsRounds, old(jumps), jumps, m)
      ensures jumps == old(jumps) || exists r: nat :: r > round && jumps == old(jumps) + [(epoch, r)]
      ensures Snap() == old(Snap()).(rounds := validatorsRounds)
    {
      hide Reached;
      var jump := UpdateValidatorRound(m.Validator(), m.Round());
      if jump.Some? {
        jumps := jumps + [(epoch, jump.value)];
      }
    }

    /**
     Handles a consensus message: ignores those of other epochs, queues those of the next epoch or a later round, and
     dispatches the rest. Whatever it commits on the way, it ends, and leaves nothing undone.
     */
    method HandleConsensus(m: Message, ghost bound: nat) returns (action: RoundAction)
      requires Valid() && Settled(Conf(), Snap())
      requires m in wire && m.Validator() < n && m.Epoch() <= bound
      requires epoch <= bound + 1 && QueueWithin(Snap(), bound)
      modifies this
      ensures Gets(Conf(), old(Snap()), Snap())
      ensures action == Panicked ==> Stuck(Conf(), Snap())
      ensures action != Panicked ==>
        && Valid() && Settled(Conf(), Snap()) && QueueWithin(Snap(), bound)
        && old(epoch) <= epoch <= bound + 1 && old(chain) <= chain
        && (incomplete == old(incomplete) || incomplete == None)
        && (epoch == old(epoch) ==> round == old(round) && KeepsOwn(old(ourPrevotes), ourPrevotes))
        && isEnabled == old(isEnabled)
        && KeepsDone(Conf(), old(Snap()), Snap())
        && (isEnabled && m.Epoch() <= old(epoch) + 1 ==> Done(Conf(), Snap(), m))
      ensures action != Panicked && epoch == old(epoch) && isEnabled && m.Epoch() == epoch && m.Round() <= round ==>
        Handled(Conf(), Snap(), m)
      ensures epoch == old(epoch) ==> (action == Panicked <==> MessagePanics(Conf(), old(Snap()), m))
      ensures !old(isEnabled) || m.Epoch() < old(epoch) || m.Epoch() > old(epoch) + 1 ==> Snap() == old(Snap())
      ensures old(isEnabled) && (m.Epoch() == old(epoch) + 1 || (m.Epoch() == old(epoch) && m.Round() > old(round))) ==>
        && Snap() == old(Snap()).(queued := old(queued) + [m], rounds := validatorsRounds)
        && n > 0 && Noted(n, epoch, round, old(validatorsRounds), validatorsRounds, old(jumps), jumps, m)
      decreases bound + 1 - epoch, 10
    {
      hide Ok, Stuck, Gets, Settled, QueueWithin, Noted, Done, KeepsDone, Handled, MessagePanics, KeepsOwn;
      ghost var c, s0 := Conf(), Snap();
      GetsNothing(c, s0, s0);
      KeepsDoneSelf(c, s0);
      QuietMessage(c, s0, m);
      action := NoAction;
      if !isEnabled {
        return;
      }
      if m.Epoch() < epoch || m.Epoch() > epoch + 1 {
        return;
      }
      if m.Epoch() == epoch + 1 || m.Round() > round {
        QueueMessage(m, bound);
        GetsNothing(c, s0, Snap());
        QueuedKeepsDone(c, s0, Snap(), m);
        return;
      }
      action := Dispatch(m, bound);
      if action != Panicked {
        DispatchedIsDone(c, s0, Snap(), m);
      }
    }

    /** Handles a message of the current epoch and a reached round. */
    method Dispatch(m: Message, ghost bound: nat) returns (action: RoundAction)
      requires Valid() && Settled(Conf(), Snap()) && isEnabled
      requires m in wire && m.Validator() < n && m.Epoch() == epoch && m.Round() <= round
      requires epoch <= bound && QueueWithin(Snap(), bound)
      modifies this
      ensures Gets(Conf(), old(Snap()), Snap())
      ensures action == Panicked ==> Stuck(Conf(), Snap())
      ensures action != Panicked ==>
        && Valid() && Settled(Conf(), Snap()) && QueueWithin(Snap(), bound)
        && old(epoch) <= epoch <= bound + 1 && old(chain) <= chain
        && (incomplete == old(incomplete) || incomplete == None)
        && isEnabled == old(isEnabled)
        && KeepsDone(Conf(), old(Snap()), Snap())
      ensures action != Panicked && epoch == old(epoch) ==>
        round == old(round) && KeepsOwn(old(ourPrevotes), ourPrevotes) && Handled(Conf(), Snap(), m)
      ensures epoch == old(epoch) ==> (action == Panicked <==> MessagePanics(Conf(), old(Snap()), m))
      decreases bound + 1 - epoch, 10, 0
    {
      hide Ok, Stuck, Gets, Settled, QueueWithin, KeepsDone, Handled, KeepsOwn, InNewEpoch, Proposable, ProposePanics;
      hide PrevotePanics, PrecommitPanics, Committing;
      ghost var s0 := Snap();
      match m {
        case ProposeMsg(p) => action := HandlePropose(p, bound);
        case PrevoteMsg(v) => action := HandlePrevote(v, bound);
        case PrecommitMsg(v) => action := HandlePrecommit(v, bound);
      }
      if action == NewEpoch {
        NewEpochHas(Conf(), s0, Snap(), bound);
        NewEpochKeepsDone(Conf(), s0, Snap(), bound);
      }
    }

    // ---- Timers

    /** Handles the queue in the round just entered. */
    method DrainQueue(ghost bound: nat) returns (action: RoundAction)
      requires Valid() && SettledBut(Conf(), Snap(), {}) && BlockWaits(Snap())
      requires epoch <= bound + 1 && QueueWithin(Snap(), bound)
      modifies this
      ensures Gets(Conf(), old(Snap()), Snap())
      ensures action == Panicked ==> Stuck(Conf(), Snap())
      ensures action != Panicked ==> Valid() && Settled(Conf(), Snap()) && old(epoch) <= epoch && old(chain) <= chain
      ensures action != Panicked && epoch == old(epoch) ==>
        round == old(round) && KeepsOwn(old(ourPrevotes), ourPrevotes)
      ensures action != Panicked ==> epoch <= bound + 1 && QueueWithin(Snap(), bound)
      ensures action != Panicked ==> incomplete == old(incomplete) || incomplete == None
      ensures action != Panicked ==> isEnabled == old(isEnabled) && KeepsDone(Conf(), old(Snap()), Snap())
      decreases bound + 1 - epoch, 11
    {
      hide Ok, Stuck, Gets, SettledBut, Done;
      ghost var c, s0 := Conf(), Snap();
      var batch := queued;
      QueuedAreSent(c, s0);
      QueueKeeps(c, s0, []);
      queued := [];
      SettledEmptyQueue(c, s0);
      assert Snap() == s0.(queued := []);
      GetsNothing(c, s0, Snap());
      KeepsDoneSelf(c, Snap());
      var i := 0;
      while i < |batch|
        invariant 0 <= i <= |batch|
        invariant Valid() && Settled(c, Snap()) && Gets(c, s0, Snap())
        invariant s0.epoch <= epoch <= bound + 1 && s0.chain <= chain && QueueWithin(Snap(), bound)
        invariant epoch == s0.epoch ==> round == s0.round && KeepsOwn(s0.ourPrevotes, ourPrevotes)
        invariant incomplete == s0.incomplete || incomplete == None
        invariant isEnabled == s0.enabled && KeepsDone(c, s0.(queued := []), Snap())
        invariant s0.enabled ==> forall j :: 0 <= j < i ==> Done(c, Snap(), batch[j])
        invariant forall m :: m in batch ==> m in wire && m.Validator() < n && m.Epoch() <= s0.epoch + 1
      {
        ghost var s1 := Snap();
        assert batch[i] in batch;
        action := HandleConsensus(batch[i], bound);
        GetsThen(c, s0, s1, Snap());
        GetsGrows(c, s1, Snap());
        if action == Panicked {
          return;
        }
        QueueRuns(c, s1, Snap(), batch, i);
        KeepsDoneThen(c, s0.(queued := []), s1, Snap());
        i := i + 1;
      }
      DrainedKeepsDone(c, s0, Snap());
      return NoAction;
    }

    /** A locked validator prevotes for its lock in the new round; then the queued messages are handled. */
    method ProcessNewRound() returns (action: RoundAction)
      requires Valid() && SettledInRound(Conf(), Snap(), {}) && BlockWaits(Snap())
      requires lockedRound < round && (id.Some? ==> round !in ourPrevotes)
      modifies this
      ensures Gets(Conf(), old(Snap()), Snap())
      ensures action == Panicked ==> Stuck(Conf(), Snap())
      ensures action != Panicked ==> Valid() && Settled(Conf(), Snap()) && old(epoch) <= epoch && old(chain) <= chain
      ensures action != Panicked && epoch == old(epoch) ==> round == old(round)
      ensures action != Panicked && epoch == old(epoch) && id.Some? && old(lockedPropose).Some? ==>
        round in ourPrevotes && ourPrevotes[round].propose == old(lockedPropose).value
      ensures action != Panicked ==> isEnabled == old(isEnabled) && KeepsDone(Conf(), old(Snap()), Snap())
    {
      hide Ok, Stuck, KeepsDone,  Gets, SettledInRound, Locking, OnlyVoted, MayPrevote, QueueWithin, NoMissedLock;
      ghost var c, s0, bound := Conf(), Snap(), epoch + 1;
      QueueIsWithin(c, s0);
      GetsNothing(c, s0, s0);
      KeepsDoneSelf(c, s0);
      if id.Some? && lockedPropose.Some? {
        action := PrevoteForLock(bound);
        if action == Panicked {
          return;
        }
        if action == NewEpoch {
          NewEpochKeepsDone(c, s0, Snap(), bound);
        } else {
          VotedFacts(s0, Snap(), s0.lockedPropose.value);
          VotedContext(s0, Snap());
          VotingKeepsDone(c, s0, Snap());
          QueueUnchanged(s0, Snap(), bound);
        }
      }
      ghost var s1 := Snap();
      action := DrainQueue(bound);
      GetsThen(c, s0, s1, Snap());
      if action != Panicked {
        KeepsDoneThen(c, s0, s1, Snap());
      }
    }

    /** Prevotes for `p` in the current round and locks if that completes +2/3. */
    method PrevoteInRound(p: Propose, ghost bound: nat) returns (action: RoundAction)
      requires Valid() && id.Some? && Full(proposes, p) && proposes[p].valid
      requires MayPrevote(n, Snap().View(Conf()), wire, round, p)
      requires SettledInRound(Conf(), Snap(), {p}) && ConfirmedWait(id, confirmed, proposes, {})
      requires LockedUpTo(n, prevotes, lockedRound, p, round)
      requires if lockedRound > 0 then lockedPropose == Some(p) else p.round == round
      requires epoch <= bound && QueueWithin(Snap(), bound)
      modifies this
      ensures Gets(Conf(), old(Snap()), Snap())
      ensures action == Panicked ==> Stuck(Conf(), Snap())
      ensures action == NewEpoch ==> InNewEpoch(Conf(), old(Snap()), Snap(), bound)
      ensures action == NewEpoch ==> Committing(old(chain), BlockOf(p), chain)
      ensures action == Panicked ==> epoch > old(epoch)
      ensures action == NoAction ==>
        && Valid() && SettledBut(Conf(), Snap(), {})
        && OnlyVoted(old(Snap()), Snap())
        && round in ourPrevotes && ourPrevotes[round].propose == p
    {
      hide Ok, Stuck, PrecommittedLock, Gets, SettledInRound, Locking, OnlyVoted, MayPrevote, QueueWithin, NoMissedLock;
      hide ConfirmedWait, LockedUpTo, InNewEpoch, Committing, PrevotedAll, SettledBut;
      ghost var c, s0 := Conf(), Snap();
      var majority := PrevoteInto(p);
      ghost var s1 := Snap();
      VotedFacts(s0, s1, p);
      QueueAfterVoting(s0, s1, bound);
      action := NoAction;
      if majority {
        action := HandleMajorityPrevotes(round, p, {}, {}, bound);
        GetsThen(c, s0, s1, Snap());
        if action == NewEpoch {
          NewEpochAfterVoting(c, s0, s1, Snap(), bound);
        } else if action == NoAction && s1.lockedRound < s1.round {
          assert ({} - {p}) + {} == {};
          VotedFacts(s1, Snap(), p);
          OnlyVotedThen(s0, s1, Snap());
        } else if action == NoAction {
          LockedHere(c, s1, p);
        }
      }
    }

    method PrevoteInto(p: Propose) returns (majority: bool)
      requires Valid() && id.Some? && Full(proposes, p) && proposes[p].valid
      requires MayPrevote(n, Snap().View(Conf()), wire, round, p)
      requires SettledInRound(Conf(), Snap(), {p}) && ConfirmedWait(id, confirmed, proposes, {})
      requires LockedUpTo(n, prevotes, lockedRound, p, round)
      requires if lockedRound > 0 then lockedPropose == Some(p) else p.round == round
      modifies this`prevotes, this`ourPrevotes, this`wire
      ensures Valid() && Gets(Conf(), old(Snap()), Snap()) && OnlyVoted(old(Snap()), Snap())
      ensures majority == Majority(n, prevotes, (round, p))
      ensures Locking(Conf(), Snap(), p, {}, {}, round) && PrecommittedLock(Conf(), Snap())
      ensures PrevotedAll(id, lockedRound, proposes, ourPrevotes, {}) && forall k :: k in prevotes ==> k.0 <= round
      ensures !majority ==> SettledBut(Conf(), Snap(), {})
      ensures round in ourPrevotes && ourPrevotes[round].propose == p
    {
      hide Ok, PrecommittedLock, Gets, SettledInRound, Locking, OnlyVoted, MayPrevote, NoMissedLock, ConfirmedWait;
      hide LockedUpTo;
      hide PrevotedAll, SettledBut;
      ghost var c, s0 := Conf(), Snap();
      PrevoteSentKeeps(c, s0, round, p);
      NoVotesAhead(c, s0);
      RoundPrevoteSettles(c, s0, p);
      PrevoteSentOnlyVotes(c, s0, round, p);
      majority := CheckProposeAndBroadcastPrevote(round, p);
      NoVotesAhead(c, Snap());
    }

    method PrevoteForLock(ghost bound: nat) returns (action: RoundAction)
      requires Valid() && SettledInRound(Conf(), Snap(), {})
      requires lockedRound < round && id.Some? && round !in ourPrevotes && lockedPropose.Some?
      requires epoch <= bound && QueueWithin(Snap(), bound)
      modifies this
      ensures Gets(Conf(), old(Snap()), Snap())
      ensures action == Panicked ==> Stuck(Conf(), Snap())
      ensures action == NewEpoch ==> InNewEpoch(Conf(), old(Snap()), Snap(), bound)
      ensures action == Panicked ==> epoch > old(epoch)
      ensures action == NoAction ==>
        && Valid() && SettledBut(Conf(), Snap(), {})
        && OnlyVoted(old(Snap()), Snap())
        && round in ourPrevotes && ourPrevotes[round].propose == old(lockedPropose).value
    {
      hide Ok, Stuck, Gets, SettledInRound, MayPrevote, QueueWithin, ConfirmedWait, LockedUpTo;
      ghost var c, s0 := Conf(), Snap();
      var p := lockedPropose.value;
      LockIsFull(c, s0);
      MayPrevoteWhenLocking(c, s0, round, p);
      SettledButOne(c, s0, p);
      action := PrevoteInRound(p, bound);
    }

    /** Handles a scheduled jump to a later round. */
    method HandleNewRound(height: nat, r: nat) returns (action: RoundAction)
      requires Valid() && Settled(Conf(), Snap())
      modifies this
      ensures Gets(Conf(), old(Snap()), Snap())
      ensures action == Panicked ==> Stuck(Conf(), Snap())
      ensures action != Panicked ==> isEnabled == old(isEnabled) && KeepsDone(Conf(), old(Snap()), Snap())
      ensures action != Panicked ==> Valid() && Settled(Conf(), Snap()) && old(epoch) <= epoch && old(chain) <= chain
      ensures height != old(epoch) || r <= old(round) ==> Snap() == old(Snap())
      ensures height == old(epoch) && r > old(round) && action != Panicked ==> epoch > old(epoch) || round == r
    {
      hide Ok, Stuck, Gets, SettledInRound;
      ghost var c, s0 := Conf(), Snap();
      GetsNothing(c, s0, s0);
      if height != epoch {
        return NoAction;
      }
      if r <= round {
        return NoAction;
      }
      AtRoundKeeps(c, s0, r);
      NewRoundSettled(c, s0, r);
      round := r;
      ghost var s1 := Snap();
      assert s1 == s0.(round := r);
      action := ProcessNewRound();
      GetsThen(c, s0, s1, Snap());
    }

    /** Enters the next round when the timer of the current one fires. */
    method HandleRoundTimeout(e: nat, r: nat) returns (action: RoundAction)
      requires Valid() && Settled(Conf(), Snap())
      modifies this
      ensures Gets(Conf(), old(Snap()), Snap())
      ensures action == Panicked ==> Stuck(Conf(), Snap())
      ensures action != Panicked ==> isEnabled == old(isEnabled) && KeepsDone(Conf(), old(Snap()), Snap())
      ensures action != Panicked ==> Valid() && Settled(Conf(), Snap()) && old(epoch) <= epoch && old(chain) <= chain
      ensures e != old(epoch) || r != old(round) ==> Snap() == old(Snap())
      ensures e == old(epoch) && r == old(round) && action != Panicked ==> epoch > old(epoch) || round == r + 1
    {
      hide Ok, Stuck, Gets, SettledInRound;
      ghost var c, s0 := Conf(), Snap();
      GetsNothing(c, s0, s0);
      if e != epoch || r != round {
        return NoAction;
      }
      AtRoundKeeps(c, s0, round + 1);
      NewRoundSettled(c, s0, round + 1);
      round := round + 1;
      ghost var s1 := Snap();
      assert s1 == s0.(round := s0.round + 1);
      action := ProcessNewRound();
      GetsThen(c, s0, s1, Snap());
    }

    /** An unlocked validator that has not prevoted in the current round. */
    ghost predicate MayPropose(e: nat, r: nat)
      reads this
    {
      e == epoch && r == round && lockedPropose.None? && id.Some? && r !in ourPrevotes
    }

    ghost predicate AuditorProposes(e: nat, r: nat)
      reads this
    {
      e == epoch && r == round && lockedPropose.None? && id.None?
    }

    /**
     Proposes a block of pool transactions, or a skip, and prevotes for it, if the node has neither locked nor voted in
     the current round. That it leads the round is not checked. An auditor panics, unless it has a lock: it is asked for
     its own prevote before its id.
     */
    method HandleProposeTimeout(e: nat, r: nat, skip: bool, txs: seq<Tx>) returns (action: RoundAction)
      requires Valid() && Settled(Conf(), Snap())
      requires forall t :: t in txs ==> t in txCache || t in pool
      requires skip ==> txs == []
      modifies this
      ensures Gets(Conf(), old(Snap()), Snap())
      ensures action == Panicked ==> Stuck(Conf(), Snap()) || old(AuditorProposes(e, r))
      ensures action != Panicked ==> Valid() && Settled(Conf(), Snap()) && old(epoch) <= epoch && old(chain) <= chain
      ensures old(MayPropose(e, r)) <==>
        e == old(epoch) && r == old(round) && old(lockedPropose).None? && id.Some? && r !in old(ourPrevotes)
      ensures old(AuditorProposes(e, r)) <==> e == old(epoch) && r == old(round) && old(lockedPropose).None? && id.None?
      ensures !old(MayPropose(e, r)) ==> Snap() == old(Snap())
      ensures !old(MayPropose(e, r)) ==> action == if old(AuditorProposes(e, r)) then Panicked else NoAction
      ensures old(MayPropose(e, r)) ==>
        old(wire) + [ProposeMsg(Propose(id.value, e, r, Last(old(chain)), txs, skip))] <= wire
      ensures old(MayPropose(e, r)) && epoch == old(epoch) ==>
        var p := Propose(id.value, e, r, Last(old(chain)), txs, skip);
        p in proposes && round == r && r in ourPrevotes && ourPrevotes[r].propose == p
      ensures action == Panicked ==> epoch > old(epoch) || old(AuditorProposes(e, r))
      ensures action != Panicked ==> isEnabled == old(isEnabled) && KeepsDone(Conf(), old(Snap()), Snap())
    {
      hide Ok, Stuck, KeepsDone, Gets, SettledInRound, Proposed;
      ghost var c, s0 := Conf(), Snap();
      GetsNothing(c, s0, s0);
      KeepsDoneSelf(c, s0);
      QueueIsWithin(c, s0);
      if e != epoch || r != round {
        return NoAction;
      }
      if lockedPropose.Some? {
        return NoAction;
      }
      if id.None? {
        return Panicked;
      }
      if r in ourPrevotes {
        return NoAction;
      }
      var p := Propose(id.value, epoch, r, Last(chain), txs, skip);
      action := SendOwnPropose(p);
    }

    method SendOwnPropose(p: Propose) returns (action: RoundAction)
      requires Valid() && Settled(Conf(), Snap())
      requires id == Some(p.validator) && lockedRound == 0 && round !in ourPrevotes && (p.skip ==> p.txs == [])
      requires p.epoch == epoch && p.round == round && p.prev == Last(chain)
      requires forall t :: t in p.txs ==> t in txCache || t in pool
      modifies this
      ensures Gets(Conf(), old(Snap()), Snap())
      ensures action == Panicked ==> Stuck(Conf(), Snap())
      ensures action != Panicked ==> Valid() && Settled(Conf(), Snap()) && old(epoch) <= epoch && old(chain) <= chain
      ensures old(wire) + [ProposeMsg(p)] <= wire
      ensures action == Panicked ==> epoch > old(epoch)
      ensures action != Panicked && epoch == old(epoch) ==>
        p in proposes && round == p.round && round in ourPrevotes && ourPrevotes[round].propose == p
      ensures action != Panicked ==> isEnabled == old(isEnabled) && KeepsDone(Conf(), old(Snap()), Snap())
    {
      hide Ok, Stuck, KeepsDone, InNewEpoch, OnlyVoted, Committing, Settled, SettledBut, BlockWaits, Proposed;
      hide Gets, SettledInRound, MayPrevote, QueueWithin, ConfirmedWait, LockedUpTo;
      ghost var c, s0, bound := Conf(), Snap(), epoch + 1;
      QueueIsWithin(c, s0);
      AddSelfPropose(p);
      ghost var s1 := Snap();
      MayPrevoteOwn(c, s1, p);
      QueueUnchanged(s0, s1, bound);
      action := PrevoteInRound(p, bound);
      GetsThen(c, s0, s1, Snap());
      GetsGrows(c, s1, Snap());
      if action == NewEpoch {
        NewEpochHas(c, s1, Snap(), bound);
        NewEpochKeepsDone(c, s1, Snap(), bound);
        KeepsDoneThen(c, s0, s1, Snap());
      } else if action == NoAction {
        VotedFacts(s1, Snap(), p);
        VotingKeepsDone(c, s1, Snap());
        KeepsDoneThen(c, s0, s1, Snap());
        SettledAfter(c, s0, s1, Snap());
      }
    }

    /** Sends an own propose and tracks it as complete. */
    method AddSelfPropose(p: Propose)
      requires Valid() && Settled(Conf(), Snap()) && lockedRound == 0
      requires id == Some(p.validator) && p.epoch == epoch && p.round == round && p.prev == Last(chain)
      requires (p.skip ==> p.txs == []) && forall t :: t in p.txs ==> t in txCache || t in pool
      modifies this`wire, this`proposes
      ensures Valid() && Gets(Conf(), old(Snap()), Snap()) && KeepsDone(Conf(), old(Snap()), Snap())
      ensures wire == old(wire) + [ProposeMsg(p)] && proposes == old(proposes)[p := ProposeState({}, true, None)]
      ensures SettledInRound(Conf(), Snap(), {p}) && ConfirmedWait(id, confirmed, proposes, {})
      ensures LockedUpTo(n, prevotes, lockedRound, p, round)
    {
      hide Ok, Gets, SettledInRound, ConfirmedWait, LockedUpTo, KeepsDone;
      ghost var c, s := Conf(), Snap();
      ProposedKeeps(c, s, p);
      ProposedSettles(c, s, p);
      GrowthKeepsDone(c, s, Proposed(s, p));
      wire := wire + [ProposeMsg(p)];
      proposes := proposes[p := ProposeState({}, true, None)];
      assert Snap() == Proposed(s, p);
    }

    // ---- Blocks from other nodes

    /** A block response for this node that continues its chain and is authenticated by +2/3 precommits. */
    ghost predicate Acceptable(m: BlockResponse)
      requires |chain| > 0
      reads this
    {
      && m.to == key
      && m.author in connectList
      && m.block.Block?
      && m.block.epoch.Some?
      && (|chain| == m.block.height || (|chain| == m.block.height + 1 && epoch <= m.block.epoch.value))
      && m.block.prev == Last(chain)
      && incomplete.None?
      && m.block.proposer.Some?
      && (m.block.skip ==> m.txs == [])
      && m.block.txs == m.txs
      && ValidPrecommits(n, m.precommits, m.block.epoch.value, m.block)
    }

    /** A node that has a block and its precommits can answer with a response that is accepted. */
    lemma ResponseIsAcceptable(author: nat, b: Block, r: nat) returns (m: BlockResponse)
      requires author in connectList && incomplete.None? && |chain| > 0
      requires b.Block? && b.epoch.Some? && b.proposer.Some? && b.prev == Last(chain) && (b.skip ==> b.txs == [])
      requires b.height == |chain| || (b.height + 1 == |chain| && epoch <= b.epoch.value)
      requires PrecommitQuorum(n, wire, b.epoch.value, r, b)
      ensures Acceptable(m) && Authentic(n, m.precommits, wire) && m.block == b && m.author == author
    {
      hide PrecommitQuorum, ValidPrecommits, Authentic;
      var precommits := QuorumIsAccepted(n, wire, b.epoch.value, r, b);
      m := BlockResponse(key, author, b, precommits, b.txs);
    }

    /** Checks a block response against the chain and its precommits. */
    method ValidateBlockResponse(m: BlockResponse) returns (ok: bool)
      requires Valid() && Authentic(n, m.precommits, wire)
      ensures ok ==> BlockAccepted(n, epoch, chain, m.block, m.txs, wire)
      ensures ok <==> Acceptable(m)
      ensures ok ==> m.to == key && m.author in connectList && incomplete.None? && (m.block.skip ==> m.txs == [])
    {
      ok := false;
      if m.to != key {
        return;
      }
      if m.author !in connectList {
        return;
      }
      var b := m.block;
      if b.Genesis? || b.epoch.None? {
        return;
      }
      var isNextHeight := |chain| == b.height;
      var isFutureEpoch := |chain| == b.height + 1 && epoch <= b.epoch.value;
      if !isNextHeight && !isFutureEpoch {
        return;
      }
      if b.prev != Last(chain) {
        return;
      }
      if incomplete.Some? {
        return;
      }
      if b.proposer.None? {
        return;
      }
      if b.skip && m.txs != [] {
        return;
      }
      if b.txs != m.txs {
        return;
      }
      ok := ValidatePrecommits(n, m.precommits, b.epoch.value, b);
      if ok {
        ValidPrecommitsAreQuorum(n, m.precommits, b.epoch.value, b, wire);
      }
    }

    /**
     The transactions of a received block that are unknown. Fails, as the code panics, on committed or invalid ones.
     */
    method FindUnknown(txs: seq<Tx>) returns (ok: bool, unknown: set<Tx>)
      ensures ok <==> forall t :: t in txs ==> !RefusedTx(Snap(), t) && (t in invalid ==> t in Known())
      ensures ok ==> unknown == Missing(txs, Known())
      ensures ok ==> forall t :: t in unknown <==> t in txs && t !in Known()
    {
      unknown := {};
      ok := true;
      var i := 0;
      while i < |txs|
        invariant 0 <= i <= |txs|
        invariant ok ==> unknown == (set t | t in txs[..i] && t !in Known())
        invariant ok <==>
          forall j :: 0 <= j < i ==> !RefusedTx(Snap(), txs[j]) && (txs[j] in invalid ==> txs[j] in Known())
      {
        var t := txs[i];
        assert txs[..i + 1] == txs[..i] + [t];
        if t in txCache || t in pool || t in committed {
          if t !in txCache && t !in pool {
            ok := false;
          }
        } else if t in invalid {
          ok := false;
        } else {
          unknown := unknown + {t};
        }
        i := i + 1;
      }
      assert txs[..i] == txs;
    }

    /**
     Handles a block from another node: after validation it is committed at once if it was executed or all of its
     transactions are known; otherwise the node waits for the transactions.
     */
    method HandleBlock(m: BlockResponse) returns (action: RoundAction)
      requires Valid() && Settled(Conf(), Snap()) && Authentic(n, m.precommits, wire)
      modifies this
      ensures Gets(Conf(), old(Snap()), Snap())
      ensures action == Panicked ==> Stuck(Conf(), Snap())
      ensures action != Panicked ==> Valid() && Settled(Conf(), Snap()) && old(epoch) <= epoch && old(chain) <= chain
      ensures action == NewEpoch ==> Committing(old(chain), m.block, chain)
      ensures action != Panicked ==> isEnabled == old(isEnabled) && KeepsDone(Conf(), old(Snap()), Snap())
      ensures |old(chain)| > 0
      ensures (action == Panicked && epoch == old(epoch)) <==>
        old(Acceptable(m)) && ResponsePanics(old(Snap()), m.block, m.txs)
      ensures !old(Acceptable(m)) ==> action == NoAction && Snap() == old(Snap())
      ensures old(Acceptable(m)) && action == NoAction ==>
        var unknown := Missing(m.txs, old(Known()));
        && unknown != {} && m.block !in old(blocks)
        && Snap() == old(Snap()).(incomplete := Some(IncompleteBlock(m.block, m.txs, unknown)))
    {
      hide Ok, Stuck, KeepsDone, BlockPanics, Committing, Gets, Settled, BlockAccepted, ValidPrecommits, Authentic;
      hide RefusedTx;
      ghost var c, s0 := Conf(), Snap();
      GetsNothing(c, s0, s0);
      KeepsDoneSelf(c, s0);
      QueueIsWithin(c, s0);
      var ok := ValidateBlockResponse(m);
      if !ok {
        return NoAction;
      }
      if m.block !in blocks {
        action := ReceiveBlock(m.block, m.txs);
      } else {
        action := CommitReceived(m.block);
      }
    }

    method CreateIncompleteBlock(ib: IncompleteBlock)
      requires Valid() && Settled(Conf(), Snap()) && |chain| > 0
      requires BlockAccepted(n, epoch, chain, ib.block, ib.txs, wire)
      requires ib.unknown == Missing(ib.txs, Known())
      requires forall t :: t in ib.txs && t in invalid ==> t in Known()
      modifies this`incomplete
      ensures Valid() && Snap() == old(Snap()).(incomplete := Some(ib)) && Gets(Conf(), old(Snap()), Snap())
      ensures ib.unknown != {} ==> Settled(Conf(), Snap())
    {
      hide Ok, Gets, Settled, BlockAccepted;
      ghost var c, s := Conf(), Snap();
      BlockStored(c, s, ib);
      incomplete := Some(ib);
      assert Snap() == s.(incomplete := Some(ib));
      GetsNothing(c, s, Snap());
    }

    /** Takes an accepted block; waits for its unknown transactions, if there are any, and commits it otherwise. */
    method ReceiveBlock(b: Block, txs: seq<Tx>) returns (action: RoundAction)
      requires b !in blocks
      requires Valid() && Settled(Conf(), Snap()) && |chain| > 0 && BlockAccepted(n, epoch, chain, b, txs, wire)
      modifies this
      ensures Gets(Conf(), old(Snap()), Snap())
      ensures action == Panicked ==> Stuck(Conf(), Snap())
      ensures action != Panicked ==> Valid() && Settled(Conf(), Snap()) && old(epoch) <= epoch && old(chain) <= chain
      ensures action == NewEpoch ==> Committing(old(chain), b, chain)
      ensures (action == Panicked && epoch == old(epoch)) <==> ResponsePanics(old(Snap()), b, txs)
      ensures action != Panicked ==> isEnabled == old(isEnabled) && KeepsDone(Conf(), old(Snap()), Snap())
      ensures action == NoAction ==>
        var unknown := Missing(txs, old(Known()));
        unknown != {} && Snap() == old(Snap()).(incomplete := Some(IncompleteBlock(b, txs, unknown)))
    {
      hide Ok, Stuck, KeepsDone, BlockPanics, ResponsePanics, Committing, Gets, Settled, BlockAccepted;
      ghost var c, s0 := Conf(), Snap();
      GetsNothing(c, s0, s0);
      var found, waits := StoreBlock(b, txs);
      if !found {
        return Panicked;
      }
      if waits {
        return NoAction;
      }
      ghost var s1 := Snap();
      action := HandleFullBlock();
      GetsThen(c, s0, s1, Snap());
      if action != Panicked {
        KeepsDoneThen(c, s0, s1, Snap());
      }
    }

    method StoreBlock(b: Block, txs: seq<Tx>) returns (found: bool, waits: bool)
      requires b !in blocks
      requires Valid() && Settled(Conf(), Snap()) && |chain| > 0 && BlockAccepted(n, epoch, chain, b, txs, wire)
      modifies this`incomplete
      ensures !found ==> Snap() == old(Snap()) && ResponsePanics(Snap(), b, txs) && Stuck(Conf(), Snap())
      ensures found ==>
        && Valid() && Gets(Conf(), old(Snap()), Snap()) && KeepsDone(Conf(), old(Snap()), Snap())
        && Snap() == old(Snap()).(incomplete := Some(IncompleteBlock(b, txs, Missing(txs, Known()))))
        && waits == (Missing(txs, Known()) != {})
        && (waits ==> Settled(Conf(), Snap()))
        && (ResponsePanics(old(Snap()), b, txs) <==> !waits && BlockPanics(Snap(), b))
    {
      hide Ok, Stuck, KeepsDone, BlockPanics, ResponsePanics, Gets, Settled, BlockAccepted, RefusedTx;
      ghost var c, s0 := Conf(), Snap();
      var unknown;
      waits := false;
      found, unknown := FindUnknown(txs);
      ResponsePanicsIs(s0, b, txs, found, unknown);
      if !found {
        BadTxsStuck(c, s0, b, txs);
        return;
      }
      InvalidIsUnknown(c, s0);
      CreateIncompleteBlock(IncompleteBlock(b, txs, unknown));
      ghost var s1 := Snap();
      BlockKeepsDone(c, s0, s1);
      BlockPanicsIs(s0, s1, b);
      waits := unknown != {};
    }

    /** Executes a received block, unless that was done before; fails if it executes to another block. */
    method ExecuteReceived(b: Block) returns (ok: bool)
      requires Valid() && b.Block? && BlockAccepted(n, epoch, chain, b, b.txs, wire)
      modifies this`blocks
      ensures ok ==> Valid() && b in blocks && Snap() == old(Snap()).(blocks := old(blocks) + {b})
      ensures !ok ==> Snap() == old(Snap())
      ensures ok <==> b in old(blocks) || CreateBlock(Last(chain), b.proposer.value, b.epoch.value, b.txs, b.skip) == b
    {
      hide Ok;
      QueueIsWithin(Conf(), Snap());
      if b !in blocks {
        var computed := CreateBlock(Last(chain), b.proposer.value, b.epoch.value, b.txs, b.skip);
        if computed != b {
          return false;
        }
        BlockExecuted(Conf(), Snap(), b);
        blocks := blocks + {b};
      } else {
        assert blocks + {b} == blocks;
      }
      return true;
    }

    /** Executes the received block, now complete, and commits it; panics if it executes to another block. */
    method HandleFullBlock() returns (action: RoundAction)
      requires Valid() && incomplete.Some? && incomplete.value.unknown == {}
      modifies this
      ensures Gets(Conf(), old(Snap()), Snap())
      ensures action == Panicked ==> Stuck(Conf(), Snap())
      ensures action != NoAction
      ensures action == NewEpoch ==> Valid() && Settled(Conf(), Snap()) && old(epoch) < epoch && old(chain) <= chain
      ensures action == NewEpoch ==> Committing(old(chain), old(incomplete).value.block, chain)
      ensures (action == Panicked && epoch == old(epoch)) <==> BlockPanics(old(Snap()), old(incomplete).value.block)
      ensures action != Panicked ==> isEnabled == old(isEnabled) && KeepsDone(Conf(), old(Snap()), Snap())
    {
      hide Ok, Stuck, KeepsDone, BlockPanics, Committing, Settled, Gets, BlockAccepted, CreateBlock;
      ghost var c, s0 := Conf(), Snap();
      BlockWasAccepted(c, s0);
      var b := incomplete.value.block;
      var ok := TakeBlock(b);
      ghost var s1 := Snap();
      BlockKeepsDone(c, s0, s1);
      BlockPanicsIs(s0, s1, b);
      if !ok {
        BadBlockStuck(c, s1, b);
        return Panicked;
      }
      action := CommitReceived(b);
      GetsThen(c, s0, s1, Snap());
      if action != Panicked {
        KeepsDoneThen(c, s0, s1, Snap());
      }
    }

    /** Takes the block that waits and executes it, unless that was done before. */
    method TakeBlock(b: Block) returns (ok: bool)
      requires Valid() && incomplete.Some? && b.Block? && BlockAccepted(n, epoch, chain, b, b.txs, wire)
      modifies this`incomplete, this`blocks
      ensures ok ==> Valid() && b in blocks
      ensures Snap() == old(Snap()).(incomplete := None, blocks := blocks)
      ensures ok <==> CreateBlock(Last(chain), b.proposer.value, b.epoch.value, b.txs, b.skip) == b
    {
      hide Ok;
      ghost var c, s0 := Conf(), Snap();
      KnownExecutes(c, s0, b);
      IncompleteDropped(c, s0);
      incomplete := None;
      assert Snap() == s0.(incomplete := None);
      ok := ExecuteReceived(b);
    }

    method CommitReceived(b: Block) returns (action: RoundAction)
      requires Valid() && b in blocks && b.Block? && BlockAccepted(n, epoch, chain, b, b.txs, wire)
      modifies this
      ensures Gets(Conf(), old(Snap()), Snap())
      ensures action == Panicked ==> Stuck(Conf(), Snap())
      ensures action != NoAction
      ensures action == NewEpoch ==> Valid() && Settled(Conf(), Snap()) && old(epoch) < epoch && old(chain) <= chain
      ensures action == NewEpoch ==> Committing(old(chain), b, chain)
      ensures (action == Panicked && epoch == old(epoch)) <==> BlockPanics(old(Snap()), b)
      ensures action != Panicked ==> isEnabled == old(isEnabled) && KeepsDone(Conf(), old(Snap()), Snap())
    {
      hide Ok, Stuck, InNewEpoch, KeepsDone, BlockPanics, Committing, Gets, Settled, BlockAccepted, QueueWithin;
      hide MayCommit;
      ghost var c, s := Conf(), Snap();
      ghost var r := MayCommitReceived(c, s, b, b.txs);
      QueueIsWithin(c, s);
      ghost var bound := if b.epoch.value > epoch + 1 then b.epoch.value else epoch + 1;
      QueueWithinMore(s, epoch + 1, bound);
      ReceivedExecutes(c, s, b);
      action := Commit(b, r, bound);
      if action == NewEpoch {
        NewEpochHas(c, s, Snap(), bound);
        NewEpochKeepsDone(c, s, Snap(), bound);
      }
    }

    // ---- Transactions

    /** Tells every propose of a received transaction; returns those that are complete, the latest rounds first. */
    method CheckIncompleteProposes(tx: Tx) returns (full: seq<Propose>)
      modifies this`proposes
      ensures proposes == WithoutTx(old(proposes), tx, invalid)
      ensures forall p :: p in full <==> Full(proposes, p)
      ensures forall i, j :: 0 <= i < j < |full| ==> full[i] != full[j]
      ensures |full| <= 10 ==> forall i, j :: 0 <= i < j < |full| ==> full[i].round >= full[j].round
    {
      full := [];
      var rest := proposes.Keys;
      while rest != {}
        invariant rest <= proposes.Keys == old(proposes).Keys
        invariant forall p :: p in rest ==> proposes[p] == old(proposes)[p]
        invariant forall p :: p in proposes && p !in rest ==> proposes[p] == WithoutTx(old(proposes), tx, invalid)[p]
        invariant forall p :: p in full <==> Full(proposes, p) && p !in rest
        invariant forall i, j :: 0 <= i < j < |full| ==> full[i] != full[j]
        decreases rest
      {
        var p :| p in rest;
        var state := proposes[p];
        var containedTx := tx in state.unknown;
        state := state.(unknown := state.unknown - {tx});
        if containedTx && tx in invalid {
          state := state.(valid := false);
        }
        proposes := proposes[p := state];
        if state.unknown == {} {
          full := full + [p];
        }
        rest := rest - {p};
      }
      if |full| <= MAX_PROPOSES_FOR_SORTING {
        var sorted := SortBy(full, (p: Propose) => -(p.round as int));
        SortedIsSame(full, sorted);
        full := sorted;
      }
    }

    /** Tells the incomplete block of a received transaction; panics if the transaction is invalid. */
    method RemoveUnknownTransaction(tx: Tx) returns (action: RoundAction)
      modifies this`incomplete
      ensures old(incomplete).None? ==> action == NoAction && incomplete == None
      ensures action == Panicked <==> old(incomplete).Some? && tx in invalid
      ensures action == Panicked ==> incomplete == old(incomplete)
      ensures old(incomplete).Some? && tx !in invalid ==>
        var ib := old(incomplete).value;
        && incomplete == Some(ib.(unknown := ib.unknown - {tx}))
        && action == if ib.unknown - {tx} == {} then NewEpoch else NoAction
    {
      if incomplete.Some? {
        if tx in invalid {
          return Panicked;
        }
        var ib := incomplete.value;
        incomplete := Some(ib.(unknown := ib.unknown - {tx}));
        if incomplete.value.unknown == {} {
          return NewEpoch;
        }
      }
      return NoAction;
    }

    /** Stores a new transaction, if it passes the check, and remembers it as invalid otherwise. */
    method StoreTx(tx: Tx) returns (ok: bool, full: seq<Propose>)
      requires Valid() && tx !in Known()
      modifies this`invalid, this`pool, this`txCache, this`proposes
      ensures Valid() && |chain| > 0 && ok == check(Last(chain), tx)
      ensures Snap() == TxReceived(old(Snap()), tx, ok, persistTxsImmediately)
      ensures forall p :: p in full <==> Full(proposes, p)
      ensures forall i, j :: 0 <= i < j < |full| ==> full[i] != full[j]
    {
      hide Ok, TxReceived;
      QueueIsWithin(Conf(), Snap());
      TxReceivedKeeps(Conf(), Snap(), tx, persistTxsImmediately);
      ok, full := CheckAndTell(tx);
    }

    method CheckAndTell(tx: Tx) returns (ok: bool, full: seq<Propose>)
      requires |chain| > 0
      modifies this`invalid, this`pool, this`txCache, this`proposes
      ensures ok == check(Last(chain), tx)
      ensures Snap() == TxReceived(old(Snap()), tx, ok, persistTxsImmediately)
      ensures forall p :: p in full <==> Full(proposes, p)
      ensures forall i, j :: 0 <= i < j < |full| ==> full[i] != full[j]
    {
      hide WithoutTx;
      ok := CheckTx(tx);
      full := CheckIncompleteProposes(tx);
    }

    method CheckTx(tx: Tx) returns (ok: bool)
      requires |chain| > 0
      modifies this`invalid, this`pool, this`txCache
      ensures ok == check(Last(chain), tx)
      ensures invalid == if ok then old(invalid) else old(invalid) + {tx}
      ensures pool == if ok && persistTxsImmediately then old(pool) + {tx} else old(pool)
      ensures txCache == if ok && !persistTxsImmediately then old(txCache) + {tx} else old(txCache)
    {
      ok := check(Last(chain), tx);
      if !ok {
        invalid := invalid + {tx};
      } else if persistTxsImmediately {
        pool := pool + {tx};
      } else {
        txCache := txCache + {tx};
      }
    }

    /** Handles the complete proposes in turn, until one of them brings a new epoch. */
    method HandleFullProposes(full: seq<Propose>, ghost bound: nat) returns (action: RoundAction)
      requires Valid() && SettledBut(Conf(), Snap(), SetOf(full))
      requires forall p :: p in full ==> Full(proposes, p)
      requires forall i, j :: 0 <= i < j < |full| ==> full[i] != full[j]
      requires epoch <= bound && QueueWithin(Snap(), bound)
      modifies this
      ensures Gets(Conf(), old(Snap()), Snap())
      ensures action == Panicked ==> Stuck(Conf(), Snap())
      ensures action == NewEpoch ==> InNewEpoch(Conf(), old(Snap()), Snap(), bound)
      ensures action == Panicked && epoch == old(epoch) ==> exists p :: p in full && FullPanics(Conf(), old(Snap()), p)
      ensures action == NoAction && lockedRound == old(lockedRound) ==>
        forall p :: p in full ==> !FullPanics(Conf(), old(Snap()), p)
      ensures action == NoAction ==> Valid() && OnlyVoted(old(Snap()), Snap()) && SettledBut(Conf(), Snap(), {})
    {
      hide Ok, Stuck, FullPanics, Committing, Gets, SettledBut, OnlyVoted, InNewEpoch, QueueWithin;
      ghost var c, s0 := Conf(), Snap();
      GetsNothing(c, s0, s0);
      OnlyVotedSelf(s0);
      var i := 0;
      assert full[0..] == full;
      while i < |full|
        invariant 0 <= i <= |full|
        invariant Valid() && Gets(c, s0, Snap()) && OnlyVoted(s0, Snap())
        invariant SettledBut(c, Snap(), SetOf(full[i..]))
        invariant epoch == s0.epoch && s0.lockedRound <= lockedRound
        invariant lockedRound == s0.lockedRound ==> forall j :: 0 <= j < i ==> !FullPanics(c, s0, full[j])
        invariant forall p :: p in full ==> Full(proposes, p)
      {
        ghost var s1 := Snap();
        var p := full[i];
        assert p in full[i..] && p in full && Full(s0.proposes, p);
        QueueAfterVoting(s0, s1, bound);
        VotedPanics(c, s0, s1, p);
        action := HandleFullPropose(p, SetOf(full[i..]), bound);
        GetsThen(c, s0, s1, Snap());
        if action == NewEpoch {
          NewEpochAfterVoting(c, s0, s1, Snap(), bound);
          NewEpochRises(c, s0, Snap(), bound);
        }
        if action != NoAction {
          return;
        }
        VotedFacts(s1, Snap(), p);
        OnlyVotedThen(s0, s1, Snap());
        assert SetOf(full[i..]) - {p} == SetOf(full[i + 1..]);
        VotedFactsAll(s0, Snap(), full);
        i := i + 1;
      }
      assert SetOf(full[i..]) == {};
      return NoAction;
    }

    /**
     Handles a transaction. A new one is stored, or remembered as invalid; complete proposes are handled; and a received
     block that waited only for it is committed.
     */
    method HandleTx(tx: Tx) returns (outcome: TxOutcome, action: RoundAction)
      requires Valid() && Settled(Conf(), Snap())
      modifies this
      ensures Gets(Conf(), old(Snap()), Snap())
      ensures action == Panicked ==> Stuck(Conf(), Snap())
      ensures action != Panicked ==> Valid() && Settled(Conf(), Snap()) && old(epoch) <= epoch && old(chain) <= chain
      ensures outcome == AlreadyProcessed <==> tx in old(Known())
      ensures outcome == AlreadyProcessed ==> Snap() == old(Snap()) && action == NoAction
      ensures action != Panicked && epoch == old(epoch) && outcome != AlreadyProcessed ==>
        && Known() == (if outcome == Accepted then old(Known()) + {tx} else old(Known()))
        && invalid == (if outcome == Accepted then old(invalid) else old(invalid) + {tx})
      ensures action != Panicked ==> isEnabled == old(isEnabled) && KeepsDone(Conf(), old(Snap()), Snap())
      ensures action == Panicked && epoch == old(epoch) ==>
        TxPanics(Conf(), old(Snap()), tx, outcome == Accepted, persistTxsImmediately)
      ensures outcome != AlreadyProcessed && epoch == old(epoch) && lockedRound == old(lockedRound) ==>
        (action == Panicked <==> TxPanics(Conf(), old(Snap()), tx, outcome == Accepted, persistTxsImmediately))
      ensures BlockTxPanics(old(Snap()), tx, outcome == Accepted) ==>
        outcome == AlreadyProcessed || epoch > old(epoch) || action == Panicked
      ensures outcome == Invalid ==> |old(chain)| > 0 && !check(Last(old(chain)), tx)
      ensures outcome == Accepted ==> |old(chain)| > 0 && check(Last(old(chain)), tx)
    {
      hide Ok, Stuck, Gets, SettledBut, OnlyVoted, QueueWithin, TxReceived, BlockWaits, KeepsDone, TxPanics;
      hide BlockTxPanics;
      ghost var c, s0 := Conf(), Snap();
      GetsNothing(c, s0, s0);
      KeepsDoneSelf(c, s0);
      if tx in txCache {
        return AlreadyProcessed, NoAction;
      }
      if tx in pool || tx in committed {
        return AlreadyProcessed, NoAction;
      }
      QueueIsWithin(c, s0);
      InvalidFails(c, s0, tx);
      var ok, full := StoreTx(tx);
      outcome := if ok then Accepted else Invalid;
      ghost var s1 := Snap();
      TxReceivedSettles(c, s0, tx, ok, persistTxsImmediately, SetOf(full));
      TxReceivedContext(c, s0, tx, ok, persistTxsImmediately, epoch + 1);
      TxPanicsIs(c, s0, tx, ok, persistTxsImmediately, full);
      action := ActOnTx(tx, full, s0, ok);
      GetsThen(c, s0, s1, Snap());
      if action != Panicked {
        KeepsDoneThen(c, s0, s1, Snap());
      }
    }

    /** Handles the proposes that a stored transaction completes, and then the incomplete block. */
    method ActOnTx(tx: Tx, full: seq<Propose>, ghost s0: State, ghost ok: bool) returns (action: RoundAction)
      requires Valid() && SettledBut(Conf(), Snap(), SetOf(full)) && Settled(Conf(), s0)
      requires Snap() == TxReceived(s0, tx, ok, persistTxsImmediately) && tx !in s0.Known()
      requires tx in s0.invalid ==> !ok
      requires forall p :: p in full ==> Full(proposes, p)
      requires forall i, j :: 0 <= i < j < |full| ==> full[i] != full[j]
      requires QueueWithin(Snap(), epoch + 1)
      modifies this
      ensures Gets(Conf(), old(Snap()), Snap())
      ensures action == Panicked ==> Stuck(Conf(), Snap())
      ensures action != Panicked ==> Valid() && Settled(Conf(), Snap()) && old(epoch) <= epoch && old(chain) <= chain
      ensures action != Panicked ==> isEnabled == old(isEnabled) && KeepsDone(Conf(), old(Snap()), Snap())
      ensures action != Panicked && epoch == old(epoch) ==> Known() == old(Known()) && invalid == old(invalid)
      ensures action == Panicked && epoch == old(epoch) ==>
        BlockTxPanics(s0, tx, ok) || exists p :: p in full && FullPanics(Conf(), old(Snap()), p)
      ensures epoch == old(epoch) && BlockTxPanics(s0, tx, ok) ==> action == Panicked
      ensures epoch == old(epoch) && lockedRound == old(lockedRound) && action != Panicked ==>
        forall p :: p in full ==> !FullPanics(Conf(), old(Snap()), p)
    {
      hide Ok, Stuck, Gets, SettledBut, OnlyVoted, QueueWithin, TxReceived, BlockWaits, KeepsDone, BlockTxPanics;
      hide FullPanics;
      hide InNewEpoch, ToldLess;
      ghost var c, s1, bound := Conf(), Snap(), epoch + 1;
      TxReceivedFrame(s0, tx, ok, persistTxsImmediately);
      action := HandleFullProposes(full, bound);
      ghost var s2 := Snap();
      if action == Panicked {
        return;
      }
      if action == NoAction {
        TxVoted(c, s0, tx, ok, persistTxsImmediately, s2);
        VotingKeepsDone(c, s1, s2);
      } else {
        NewEpochHas(c, s1, s2, bound);
        NewEpochKeepsDone(c, s1, s2, bound);
        NoBlockTx(s2, tx);
      }
      action := TellBlock(tx, s0, ok);
      GetsThen(c, s1, s2, Snap());
      GetsGrows(c, s2, Snap());
      if action != Panicked {
        KeepsDoneThen(c, s1, s2, Snap());
      }
    }

    method TellBlock(tx: Tx, ghost s0: State, ghost ok: bool) returns (action: RoundAction)
      requires Valid() && SettledBut(Conf(), Snap(), {}) && QueueFuture(epoch, round, queued)
      requires incomplete.None? || ToldLess(Snap(), s0, tx, ok)
      requires s0.epoch <= epoch && s0.chain <= chain
      modifies this
      ensures Gets(Conf(), old(Snap()), Snap())
      ensures action == Panicked ==> Stuck(Conf(), Snap())
      ensures action != Panicked ==> Valid() && Settled(Conf(), Snap()) && s0.epoch <= epoch && s0.chain <= chain
      ensures action != Panicked ==> isEnabled == old(isEnabled) && KeepsDone(Conf(), old(Snap()), Snap())
      ensures (action == Panicked && epoch == old(epoch)) <==> BlockTxPanics(old(Snap()), tx, tx !in old(invalid))
      ensures action != Panicked ==>
        || epoch > old(epoch)
        || (&& epoch == old(epoch) && Known() == old(Known()) && invalid == old(invalid)
            && lockedRound == old(lockedRound))
    {
      hide Ok, Stuck, Gets, SettledBut, KeepsDone, BlockPanics, Committing;
      ghost var c, s1 := Conf(), Snap();
      GetsNothing(c, s1, s1);
      action := RemoveUnknownTransaction(tx);
      ghost var s2 := Snap();
      GetsNothing(c, s1, s2);
      GrowthKeepsDone(c, s1, s2);
      if s1.incomplete.Some? {
        BlockPanicsIs(s1, s2, s1.incomplete.value.block);
      }
      if action == Panicked {
        assert s2 == s1;
        InvalidTxStuck(c, s1, tx);
        return;
      }
      if incomplete.None? {
        return;
      }
      BlockTold(c, s1, s0, tx, ok);
      LastUnknown(s1.incomplete.value.unknown, tx);
      assert s2 == s1.(incomplete := Some(s1.incomplete.value.(unknown := s1.incomplete.value.unknown - {tx})));
      if action == NewEpoch {
        action := HandleFullBlock();
        GetsThen(c, s1, s2, Snap());
        if action != Panicked {
          KeepsDoneThen(c, s1, s2, Snap());
        }
      }
    }

    // ---- The environment

    /** Other nodes put messages on the wire; none of them votes under this node's id. */
    method Deliver(m: Message)
      requires Valid() && Settled(Conf(), Snap())
      requires id == Some(m.Validator()) ==> m.ProposeMsg?
      modifies this`wire
      ensures Valid() && Settled(Conf(), Snap())
      ensures wire == old(wire) + [m]
    {
      hide Ok;
      DeliveredKeeps(Conf(), Snap(), m);
      wire := wire + [m];
    }

    /** The pool of cached transactions is written to the database. */
    method FlushTxsIntoPool()
      requires Valid() && Settled(Conf(), Snap())
      modifies this`txCache, this`pool
      ensures Valid() && Settled(Conf(), Snap())
      ensures txCache == {} && Known() == old(Known())
    {
      hide Ok, SettledBut;
      FlushedKeeps(Conf(), Snap());
      pool := pool + txCache;
      txCache := {};
    }

    /** A node after the genesis block, with an empty network. */
    constructor (n: nat, id: Option<nat>, key: nat, check: Check, persist: bool, connectList: set<nat>)
      requires n > 0 && (id.Some? ==> id.value < n)
      ensures Valid() && Settled(Conf(), Snap())
      ensures this.n == n && this.id == id && this.wire == []
      ensures Snap().View(Conf()) == Local(id, 1, 1, 0, None, [Genesis], check)
      ensures Snap() == State(true, 1, 1, 0, None, [Genesis], map[], {}, map[], map[], map[], map[], [], map[], map[],
                              None, {}, {}, {}, {}, [])
    {
      this.n, this.id, this.key, this.check, this.persistTxsImmediately := n, id, key, check, persist;
      this.connectList, isEnabled, clock, jumps, wire := connectList, true, 0, [], [];
      epoch, round, lockedRound, lockedPropose, chain := 1, 1, 0, None, [Genesis];
      proposes, blocks, prevotes, precommits, ourPrevotes, ourPrecommits := map[], {}, map[], map[], map[], map[];
      queued, confirmed, validatorsRounds, incomplete := [], map[], map[], None;
      txCache, pool, committed, invalid := {}, {}, {}, {};
    }
  }

  datatype TxOutcome = Accepted | AlreadyProcessed | Invalid

  /** Except that the incomplete block has not been told of `tx`, it waits as in `s0`. */
  ghost predicate ToldLess(s: State, s0: State, tx: Tx, ok: bool) {
    && BlockWaits(s0)
    && s.incomplete == s0.incomplete
    && s.invalid == (if ok then s0.invalid else s0.invalid + {tx})
    && s.Known() == (if ok then s0.Known() + {tx} else s0.Known())
  }

  lemma TxReceivedContext(c: Config, s: State, tx: Tx, ok: bool, persist: bool, bound: nat)
    requires QueueWithin(s, bound)
    ensures var s' := TxReceived(s, tx, ok, persist);
      && QueueWithin(s', bound) && s'.epoch == s.epoch && s'.chain == s.chain && s'.round == s.round
      && s'.queued == s.queued && Gets(c, s, s') && s'.enabled == s.enabled && s'.lockedRound == s.lockedRound
      && s'.Known() == (if ok then s.Known() + {tx} else s.Known())
      && s'.invalid == (if ok then s.invalid else s.invalid + {tx})
  {
    GetsNothing(c, s, TxReceived(s, tx, ok, persist));
  }

  lemma TxVoted(c: Config, s: State, tx: Tx, ok: bool, persist: bool, s2: State)
    requires Settled(c, s) && OnlyVoted(TxReceived(s, tx, ok, persist), s2) && (tx in s.invalid ==> !ok)
    ensures ToldLess(s2, s, tx, ok) && QueueFuture(s2.epoch, s2.round, s2.queued)
    ensures s2.epoch == s.epoch && s2.chain == s.chain && s2.enabled == s.enabled
    ensures s2.Known() == TxReceived(s, tx, ok, persist).Known() && s2.invalid == TxReceived(s, tx, ok, persist).invalid
    ensures BlockTxPanics(s2, tx, tx !in s2.invalid) <==> BlockTxPanics(s, tx, ok)
  {
    KnownGrows(s, TxReceived(s, tx, ok, persist), tx, ok, persist);
  }

  lemma BlockTold(c: Config, s: State, s0: State, tx: Tx, ok: bool)
    requires Ok(c, s) && SettledBut(c, s, {}) && QueueFuture(s.epoch, s.round, s.queued)
    requires s.incomplete.Some? && ToldLess(s, s0, tx, ok) && tx !in s.invalid
    ensures var ib := s.incomplete.value;
      var s' := s.(incomplete := Some(ib.(unknown := ib.unknown - {tx})));
      Ok(c, s') && (ib.unknown - {tx} != {} ==> Settled(c, s'))
  {
    var ib := s.incomplete.value;
    IncompleteKeeps(c, s, ib.(unknown := ib.unknown - {tx}));
  }

  lemma FlushedKeeps(c: Config, s: State)
    requires Ok(c, s) && Settled(c, s)
    ensures var s' := s.(pool := s.pool + s.txCache, txCache := {});
      Ok(c, s') && Settled(c, s') && s'.Known() == s.Known()
  {
    var s' := s.(pool := s.pool + s.txCache, txCache := {});
    assert s'.Known() == s.Known();
    VotesIgnoreProposals(c, s, s');
  }

  /**
   The round of a message was noted: the known round of its validator rose to it, and if that was news, a jump is
   scheduled to the highest round that more validators than can be Byzantine have reached, if that is a later one.
   */
  ghost predicate Noted(
    n: nat, e: nat, round: nat, rounds: map<nat, nat>, rounds': map<nat, nat>,
    jumps: seq<(nat, nat)>, jumps': seq<(nat, nat)>, m: Message)
    requires n > 0
  {
    var v := m.Validator();
    var known := if v in rounds then rounds[v] else 0;
    && rounds' == rounds[v := if m.Round() > known then m.Round() else known]
    && if m.Round() <= known || (forall q :: q > round ==> |Reached(rounds', q)| <= MaxFaulty(n)) then jumps' == jumps
       else exists r: nat ::
         && r > round && jumps' == jumps + [(e, r)]
         && |Reached(rounds', r)| > MaxFaulty(n) && forall q :: q > r ==> |Reached(rounds', q)| <= MaxFaulty(n)
  }

  lemma NotedRounds(
    n: nat, e: nat, round: nat, rounds: map<nat, nat>, rounds': map<nat, nat>,
    jumps: seq<(nat, nat)>, jumps': seq<(nat, nat)>, m: Message)
    requires n > 0 && Noted(n, e, round, rounds, rounds', jumps, jumps', m)
    ensures rounds' == rounds[m.Validator() := if m.Validator() in rounds then rounds[m.Validator()] else 0]
      || rounds' == rounds[m.Validator() := m.Round()]
  {
  }

  function Missing(txs: seq<Tx>, known: set<Tx>): set<Tx> { set t | t in txs && t !in known }

  ghost function SetOf(ps: seq<Propose>): set<Propose> { set p | p in ps }

  const MAX_PROPOSES_FOR_SORTING := 10

  lemma SortedIsSame(ps: seq<Propose>, qs: seq<Propose>)
    requires multiset(qs) == multiset(ps)
    requires forall i, j :: 0 <= i < j < |ps| ==> ps[i] != ps[j]
    ensures forall p :: p in ps <==> p in qs
    ensures forall i, j :: 0 <= i < j < |qs| ==> qs[i] != qs[j]
  {
    forall p ensures p in ps <==> p in qs {
      assert p in ps <==> p in multiset(ps);
      assert p in qs <==> p in multiset(qs);
    }
    forall i, j | 0 <= i < j < |qs| ensures qs[i] != qs[j] {
      if qs[i] == qs[j] {
        assert qs == qs[..i] + [qs[i]] + qs[i + 1..j] + [qs[j]] + qs[j + 1..];
        assert multiset(ps)[qs[i]] >= 2;
        OnceIfDistinct(ps, qs[i]);
      }
    }
  }

  lemma {:induction false} OnceIfDistinct(ps: seq<Propose>, p: Propose)
    requires forall i, j :: 0 <= i < j < |ps| ==> ps[i] != ps[j]
    ensures multiset(ps)[p] <= 1
    decreases |ps|
  {
    if ps != [] {
      var k := |ps| - 1;
      assert ps == ps[..k] + [ps[k]];
      OnceIfDistinct(ps[..k], p);
      if ps[k] == p {
        assert p !in ps[..k];
      }
    }
  }

  lemma VotedFactsAll(s: State, s': State, ps: seq<Propose>)
    requires OnlyVoted(s, s') && forall p :: p in ps ==> Full(s.proposes, p)
    ensures forall p :: p in ps ==> Full(s'.proposes, p)
    ensures s'.epoch == s.epoch
  {
  }

  lemma QueueWithinMore(s: State, bound: nat, bound': nat)
    requires QueueWithin(s, bound) && bound <= bound'
    ensures QueueWithin(s, bound')
  {
  }

  lemma BlockStored(c: Config, s: State, ib: IncompleteBlock)
    requires Ok(c, s) && Settled(c, s) && BlockAccepted(c.n, s.epoch, s.chain, ib.block, ib.txs, s.wire)
    requires ib.unknown == Missing(ib.txs, s.Known())
    requires forall t :: t in ib.txs && t in s.invalid ==> t in s.Known()
    ensures Ok(c, s.(incomplete := Some(ib)))
    ensures ib.unknown != {} ==> Settled(c, s.(incomplete := Some(ib)))
  {
    assert InvalidOk(s.invalid, s.Known(), c.check, Last(s.chain));
    IncompleteKeeps(c, s, ib);
  }

  lemma BlockWasAccepted(c: Config, s: State)
    requires Ok(c, s) && s.incomplete.Some?
    ensures var ib := s.incomplete.value;
      && BlockAccepted(c.n, s.epoch, s.chain, ib.block, ib.txs, s.wire)
      && ib.block.Block? && ib.block.epoch.Some? && ib.block.proposer.Some? && ib.block.txs == ib.txs
      && |s.chain| > 0
  {
  }

  lemma IncompleteDropped(c: Config, s: State)
    requires Ok(c, s)
    ensures Ok(c, s.(incomplete := None)) && |s.chain| > 0
  {
    VotesIgnoreProposals(c, s, s.(incomplete := None));
  }

  lemma BlockExecuted(c: Config, s: State, b: Block)
    requires Ok(c, s) && Extends(b, Last(s.chain))
    ensures Ok(c, s.(blocks := s.blocks + {b}))
  {
    PendingIgnoresVotes(c, s, s.(blocks := s.blocks + {b}));
  }

  lemma MayCommitReceived(c: Config, s: State, b: Block, txs: seq<Tx>) returns (r: nat)
    requires Ok(c, s) && b in s.blocks && BlockAccepted(c.n, s.epoch, s.chain, b, txs, s.wire)
    ensures b.Block? && b.epoch.Some? && MayCommit(c.n, s.View(c), s.wire, b, r)
  {
    r :| PrecommitQuorum(c.n, s.wire, b.epoch.value, r, b);
    assert Extends(b, Last(s.chain));
  }

  lemma InvalidPrevotedStuck(c: Config, s: State, r: nat, p: Propose)
    requires Ok(c, s) && Majority(c.n, s.prevotes, (r, p)) && p in s.proposes && !s.proposes[p].valid
    ensures Stuck(c, s)
  {
    assert Majority(c.n, s.prevotes, (r, p)) && (r, p).1 in s.proposes;
  }

  lemma WrongBlockStuck(c: Config, s: State, r: nat, p: Propose, b: Block)
    requires |s.chain| > 0 && Majority(c.n, s.precommits, (r, b)) && Named(s.epoch, r, p, b, s.wire)
    requires p in s.proposes && (!s.proposes[p].valid || BlockOf(p) != b)
    ensures Stuck(c, s)
  {
  }

  lemma BackInTimeStuck(c: Config, s: State, b: Block, r: nat)
    requires MayCommit(c.n, s.View(c), s.wire, b, r) && b.epoch.value < s.epoch
    ensures Stuck(c, s)
  {
  }

  lemma BadTxsStuck(c: Config, s: State, b: Block, txs: seq<Tx>)
    requires |s.chain| > 0 && BlockAccepted(c.n, s.epoch, s.chain, b, txs, s.wire)
    requires !(forall t :: t in txs ==> !RefusedTx(s, t) && (t in s.invalid ==> t in s.Known()))
    ensures Stuck(c, s)
  {
  }

  lemma BadBlockStuck(c: Config, s: State, b: Block)
    requires |s.chain| > 0 && b.Block? && BlockAccepted(c.n, s.epoch, s.chain, b, b.txs, s.wire)
    requires CreateBlock(Last(s.chain), b.proposer.value, b.epoch.value, b.txs, b.skip) != b
    ensures Stuck(c, s)
  {
  }

  lemma InvalidTxStuck(c: Config, s: State, tx: Tx)
    requires Ok(c, s) && s.incomplete.Some? && tx in s.invalid
    ensures Stuck(c, s)
  {
  }

  lemma ExecutableHere(c: Config, s: State, p: Propose)
    requires Ok(c, s) && p in s.proposes
    ensures |s.chain| > 0 && p.prev == Last(s.chain)
    ensures s.proposes[p].block.Some? ==> s.proposes[p].block.value == BlockOf(p) && BlockOf(p) in s.blocks
  {
  }

  lemma PrecommitNamed(c: Config, s: State, m: Precommit)
    requires PrecommitMsg(m) in s.wire && m.epoch == s.epoch
    ensures Named(s.epoch, m.round, m.propose, m.block, s.wire)
  {
    assert PrecommitFor(PrecommitMsg(m), s.epoch, m.round, m.block);
  }

  lemma PrecommitContext(c: Config, s: State, m: Precommit, bound: nat)
    requires m.validator < c.n && Sized(c.n, s.precommits, (m.round, m.block)) && QueueWithin(s, bound)
    ensures var s' := PrecommitGot(c, s, m);
      && s'.View(c) == s.View(c) && s'.wire == s.wire && s'.queued == s.queued && s'.enabled == s.enabled
      && s'.proposes == s.proposes && QueueWithin(s', bound)
  {
  }

  /** What a precommit leaves that completes no +2/3, or whose propose is waited for. */
  lemma PrecommitLeaves(c: Config, s: State, s': State, m: Precommit, bound: nat)
    requires Ok(c, s) && Settled(c, s) && QueueWithin(s, bound) && PrecommitMsg(m) in s.wire
    requires m.validator < c.n && m.epoch == s.epoch && Sized(c.n, s.precommits, (m.round, m.block))
    requires c.id == Some(m.validator) ==> m.round in s.ourPrecommits
    requires var s1 := PrecommitGot(c, s, m);
      || (!Majority(c.n, s1.precommits, (m.round, m.block)) && s' == s1)
      || (!Full(s.proposes, m.propose) && s' == Confirmed(s1, m.propose, m.round, m.block))
    ensures Settled(c, s') && QueueWithin(s', bound) && KeepsDone(c, s, s') && KeepsOwn(s.ourPrevotes, s'.ourPrevotes)
    ensures s'.epoch == s.epoch && s'.round == s.round && s'.chain == s.chain && s'.incomplete == s.incomplete
    ensures s'.enabled == s.enabled && (m.round <= s.round ==> Handled(c, s', PrecommitMsg(m)))
  {
    hide Ok, SettledBut, Majority;
    PrecommitGotSettles(c, s, m);
    PrecommitIsCounted(c, s, m);
    GrowthKeepsDone(c, s, s');
  }

  lemma NewEpochHas(c: Config, s: State, s': State, bound: nat)
    requires InNewEpoch(c, s, s', bound)
    ensures Ok(c, s') && Settled(c, s') && QueueWithin(s', bound) && s.epoch < s'.epoch <= bound + 1
    ensures s.chain <= s'.chain && s'.incomplete == None && s'.enabled == s.enabled
  {
  }

  lemma QuietMessage(c: Config, s: State, m: Message)
    ensures KeepsOwn(s.ourPrevotes, s.ourPrevotes)
    ensures m.Epoch() < s.epoch ==> Done(c, s, m)
    ensures !s.enabled || m.Epoch() != s.epoch || m.Round() > s.round ==> !MessagePanics(c, s, m)
  {
  }

  lemma QueuedKeepsDone(c: Config, s: State, s': State, m: Message)
    requires s' == s.(queued := s.queued + [m], rounds := s'.rounds)
    ensures KeepsDone(c, s, s') && Done(c, s', m)
  {
    GrowthKeepsDone(c, s, s');
  }

  lemma DispatchedIsDone(c: Config, s: State, s': State, m: Message)
    requires m.Epoch() == s.epoch <= s'.epoch && (s'.epoch == s.epoch ==> Handled(c, s', m))
    ensures Done(c, s', m)
  {
  }

  lemma ReceivedExecutes(c: Config, s: State, b: Block)
    requires Ok(c, s) && b in s.blocks && BlockAccepted(c.n, s.epoch, s.chain, b, b.txs, s.wire)
    ensures BlockPanics(s, b) <==> b.epoch.value < s.epoch
  {
    assert Extends(b, Last(s.chain));
  }

  lemma BlockPanicsIs(s: State, s': State, b: Block)
    requires s'.chain == s.chain && s'.epoch == s.epoch
    ensures BlockPanics(s, b) == BlockPanics(s', b)
    ensures |s.chain| > 0 && b.Block? && b.epoch.Some? && b.proposer.Some? ==> (BlockPanics(s, b) <==>
      CreateBlock(Last(s.chain), b.proposer.value, b.epoch.value, b.txs, b.skip) != b || b.epoch.value < s.epoch)
  {
  }

  lemma ResponsePanicsIs(s: State, b: Block, txs: seq<Tx>, found: bool, unknown: set<Tx>)
    requires b !in s.blocks
    requires found <==> forall t :: t in txs ==> !RefusedTx(s, t) && (t in s.invalid ==> t in s.Known())
    requires found ==> unknown == Missing(txs, s.Known())
    ensures ResponsePanics(s, b, txs) <==> !found || (unknown == {} && BlockPanics(s, b))
  {
    if !found {
      var t :| t in txs && !(!RefusedTx(s, t) && (t in s.invalid ==> t in s.Known()));
      assert BadTx(s, t);
    } else {
      assert unknown == {} <==> forall t :: t in txs ==> t in s.Known() by {
        forall t | t in txs ensures t in unknown <==> t !in s.Known() {}
      }
    }
  }

  /** Voting makes no complete propose bad, and one that is bad stays so unless the lock is raised. */
  lemma VotedPanics(c: Config, s: State, s': State, p: Propose)
    requires OnlyVoted(s, s') && p in s.proposes
    ensures FullPanics(c, s', p) ==> FullPanics(c, s, p)
    ensures s'.lockedRound == s.lockedRound && FullPanics(c, s, p) ==> FullPanics(c, s', p)
  {
    if !s.proposes[p].valid {
      forall r: nat ensures Majority(c.n, s.prevotes, (r, p)) == Majority(c.n, s'.prevotes, (r, p)) {
        var k := (r, p);
        assert k.1 in s.proposes && !s.proposes[k.1].valid;
      }
    }
  }

  lemma LastUnknown(unknown: set<Tx>, tx: Tx)
    ensures unknown - {tx} == {} <==> unknown <= {tx}
  {
    if unknown - {tx} == {} {
      forall t | t in unknown ensures t == tx {
        assert t !in unknown - {tx};
      }
    }
  }

  lemma NoBlockTx(s: State, tx: Tx)
    requires s.incomplete == None
    ensures forall ok :: !BlockTxPanics(s, tx, ok)
  {
  }

  lemma TxReceivedFrame(s: State, tx: Tx, ok: bool, persist: bool)
    ensures var s' := TxReceived(s, tx, ok, persist);
      s'.epoch == s.epoch && s'.chain == s.chain && s'.lockedRound == s.lockedRound && s'.enabled == s.enabled
  {
  }

  lemma TxPanicsIs(c: Config, s: State, tx: Tx, ok: bool, persist: bool, full: seq<Propose>)
    requires tx !in s.Known() && forall p :: p in full <==> Full(TxReceived(s, tx, ok, persist).proposes, p)
    ensures TxPanics(c, s, tx, ok, persist) <==>
      BlockTxPanics(s, tx, ok) || exists p :: p in full && FullPanics(c, TxReceived(s, tx, ok, persist), p)
    ensures KeepsDone(c, s, TxReceived(s, tx, ok, persist))
  {
    TxKeepsDone(c, s, tx, ok, persist);
  }

  lemma TxKeepsDone(c: Config, s: State, tx: Tx, ok: bool, persist: bool)
    requires tx !in s.Known()
    ensures KeepsDone(c, s, TxReceived(s, tx, ok, persist))
  {
    var s' := TxReceived(s, tx, ok, persist);
    forall t ensures RefusedTx(s, t) == RefusedTx(s', t) {}
    forall m | Handled(c, s, m) ensures Handled(c, s', m) {}
  }

  lemma InvalidFails(c: Config, s: State, tx: Tx)
    requires Ok(c, s)
    ensures tx in s.invalid ==> !c.check(Last(s.chain), tx)
  {
  }

  lemma BlockKeepsDone(c: Config, s: State, s': State)
    requires s' == s.(blocks := s'.blocks, incomplete := s'.incomplete)
    ensures KeepsDone(c, s, s') && Gets(c, s, s') && s'.enabled == s.enabled
  {
    GrowthKeepsDone(c, s, s');
    GetsNothing(c, s, s');
  }

  lemma KnownExecutes(c: Config, s: State, b: Block)
    requires Ok(c, s) && b.Block? && BlockAccepted(c.n, s.epoch, s.chain, b, b.txs, s.wire)
    ensures b in s.blocks ==> CreateBlock(Last(s.chain), b.proposer.value, b.epoch.value, b.txs, b.skip) == b
  {
    assert b in s.blocks ==> Extends(b, Last(s.chain));
  }

  lemma InvalidIsUnknown(c: Config, s: State)
    requires Ok(c, s)
    ensures s.invalid !! s.Known()
  {
  }

  lemma ExecutedFrame(c: Config, s: State, p: Propose)
    requires p in s.proposes
    ensures var s' := Executed(s, p);
      && s'.View(c) == s.View(c) && s'.wire == s.wire && s'.queued == s.queued && s'.enabled == s.enabled
      && s'.precommits == s.precommits && BlockOf(p) in s'.blocks
      && p in s'.proposes && s'.proposes[p].valid == s.proposes[p].valid
  {
  }

  lemma CommittedFrame(c: Config, s: State, b: Block, dropped: set<Tx>, bound: nat)
    requires b.Block? && b.epoch.Some? && QueueWithin(s, bound)
    ensures var s' := Committed(s, b, dropped);
      && s'.queued == s.queued && s'.enabled == s.enabled && QueueWithin(s', bound) && s'.epoch == b.epoch.value + 1
      && s'.chain == (if b.skip then s.chain else s.chain + [b]) && s'.incomplete == None
      && SettledBut(c, s', {}) && BlockWaits(s')
  {
    CommittedIsSettled(c, s, b, dropped);
  }

  lemma CommittedQueueDone(c: Config, s: State, s1: State, s2: State)
    requires s1.queued == s.queued && s1.enabled == s.enabled && KeepsDone(c, s1, s2)
    ensures QueueDone(c, s, s2)
  {
    forall m | s.enabled && m in s.queued ensures Done(c, s2, m) {
      assert Done(c, s1, m);
    }
  }

  lemma CommittingPrefix(chain: seq<Block>, b: Block, chain1: seq<Block>, chain2: seq<Block>)
    requires b.Block? && chain1 == (if b.skip then chain else chain + [b]) && chain1 <= chain2
    ensures Committing(chain, b, chain2) && chain <= chain2
  {
  }

  lemma PrecommitSentNamed(c: Config, s: State, t: int)
    requires CanPrecommit(c, s)
    ensures var p := s.lockedPropose.value; Named(s.epoch, s.lockedRound, p, BlockOf(p), PrecommitSent(c, s, t).wire)
  {
    var m := PrecommitMsg(OwnPrecommit(c, s, t));
    assert m in PrecommitSent(c, s, t).wire && PrecommitFor(m, s.epoch, s.lockedRound, BlockOf(s.lockedPropose.value));
  }

  lemma LockedHere(c: Config, s: State, p: Propose)
    requires s.lockedRound >= s.round && Locking(c, s, p, {}, {}, s.round) && s.round in s.ourPrevotes
    requires PrevotedAll(c.id, s.lockedRound, s.proposes, s.ourPrevotes, {}) && PrecommittedLock(c, s)
    requires forall k :: k in s.prevotes ==> k.0 <= s.round
    ensures SettledBut(c, s, {})
  {
  }

  lemma QueueIsWithin(c: Config, s: State)
    requires Ok(c, s)
    ensures QueueWithin(s, s.epoch + 1) && (s.lockedPropose.None? ==> s.lockedRound == 0) && |s.chain| > 0 && c.n > 0
  {
  }

  lemma SettledEmptyQueue(c: Config, s: State)
    requires SettledBut(c, s, {}) && BlockWaits(s)
    ensures Settled(c, s.(queued := []))
  {
  }

  lemma LockIsFull(c: Config, s: State)
    requires Ok(c, s) && s.lockedPropose.Some?
    ensures Full(s.proposes, s.lockedPropose.value) && s.proposes[s.lockedPropose.value].valid && s.lockedRound > 0
    ensures s.lockedPropose.value.round <= s.round
  {
  }

  lemma VotedContext(s: State, s': State)
    requires OnlyVoted(s, s')
    ensures s'.queued == s.queued && (BlockWaits(s) ==> BlockWaits(s'))
  {
  }

  lemma SameEntry<T>(own: map<nat, T>, r: nat, m: T)
    ensures r in own && own[r] == m ==> own[r := m] == own
  {
  }

  lemma NewEpochUnchanged(c: Config, s: State, s1: State, s2: State, bound: nat)
    requires s1.epoch == s.epoch && s1.chain == s.chain && s1.queued == s.queued && s1.enabled == s.enabled
    requires InNewEpoch(c, s1, s2, bound)
    ensures InNewEpoch(c, s, s2, bound)
  {
  }

  lemma MessageQueued(c: Config, s: State, m: Message, bound: nat)
    requires Ok(c, s) && Settled(c, s) && m in s.wire && m.Validator() < c.n && m.Epoch() <= bound
    requires m.Epoch() == s.epoch + 1 || (m.Epoch() == s.epoch && m.Round() > s.round)
    requires QueueWithin(s, bound)
    ensures c.n > 0 && Ok(c, s.(queued := s.queued + [m])) && Settled(c, s.(queued := s.queued + [m]))
    ensures QueueWithin(s.(queued := s.queued + [m]), bound)
  {
    QueuedAreSent(c, s);
    QueueKeeps(c, s, s.queued + [m]);
  }

  lemma RoundNoted(c: Config, s: State, m: Message, rounds: map<nat, nat>)
    requires Ok(c, s) && Settled(c, s) && m in s.wire && m.Validator() < c.n && s.epoch <= m.Epoch() <= s.epoch + 1
    requires rounds == s.rounds[m.Validator() := if m.Validator() in s.rounds then s.rounds[m.Validator()] else 0]
      || rounds == s.rounds[m.Validator() := m.Round()]
    ensures Ok(c, s.(rounds := rounds)) && Settled(c, s.(rounds := rounds))
  {
    if rounds == s.rounds[m.Validator() := m.Round()] {
      RoundKeeps(c, s, m.Validator(), m.Round(), m);
    } else if m.Validator() in s.rounds {
      assert rounds == s.rounds;
    } else {
      RoundKeeps(c, s, m.Validator(), 0, m);
    }
  }

  lemma QueueUnchanged(s: State, s': State, bound: nat)
    requires s.queued == s'.queued && QueueWithin(s, bound)
    ensures QueueWithin(s', bound)
  {
  }

  lemma SettledAfter(c: Config, s: State, s1: State, s2: State)
    requires Settled(c, s) && s1.epoch == s.epoch && s1.round == s.round && s1.queued == s.queued
    requires s1.incomplete == s.incomplete && OnlyVoted(s1, s2) && SettledBut(c, s2, {})
    requires s1.txCache == s.txCache && s1.pool == s.pool && s1.committed == s.committed && s1.invalid == s.invalid
    ensures Settled(c, s2)
  {
  }

  lemma KnownRounds(c: Config, s: State, p: Propose)
    requires Ok(c, s) && p in s.proposes
    ensures p.round <= s.round && s.lockedRound <= s.round
  {
  }

  lemma ConfirmedHasMajority(c: Config, s: State, p: Propose)
    requires Ok(c, s) && p in s.confirmed
    ensures Majority(c.n, s.precommits, s.confirmed[p])
    ensures Named(s.epoch, s.confirmed[p].0, p, s.confirmed[p].1, s.wire)
  {
  }

  lemma QueuedAreSent(c: Config, s: State)
    requires Ok(c, s)
    ensures forall m :: m in s.queued ==> m in s.wire && m.Validator() < c.n && m.Epoch() <= s.epoch + 1
  {
  }

  lemma SameOwnPrevotes(s: State, s': State)
    requires s.ourPrevotes == s'.ourPrevotes && s.lockedRound == s'.lockedRound && s.lockedPropose == s'.lockedPropose
    requires s.round == s'.round && NoIncompatiblePrevotes(s)
    ensures NoIncompatiblePrevotes(s')
  {
  }

  lemma NotPrecommittedYet(c: Config, s: State, r: nat)
    requires Ok(c, s) && s.lockedRound < r
    ensures r !in s.ourPrecommits
  {
  }
}
