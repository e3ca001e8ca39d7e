# Exonum in Dafny

A model of the parts of the Exonum blockchain framework whose correctness is hardest to see: the
consensus of a node and of a network of nodes, the storage overlay of MerkleDB, the hash of a
Merkelized list, the encoding of keys, and two smaller algorithms around them.

## What is proved

**Consensus.** `Protocol` describes what a node may do as actions on its local view and on the
history of all messages. `Agreement`, `Network` and `Safety` prove, for every run with fewer than a
third of Byzantine validators, that one epoch has one block with a precommit quorum, that the chains
of honest nodes never diverge (over many epochs, with skip blocks and with blocks fetched from other
nodes), that no transaction is in two blocks, that only leaders' blocks are committed, that honest
validators do not equivocate, and that every later prevote of a validator that precommitted is
justified. `Node` is the imperative handler of a node, method by method as in the source. Every method
is proved

- to perform only protocol actions (`Gets`), so that what holds of all runs holds of the handlers;
- to keep the invariant `Ok` (vote counts, own votes, propose tracking, lock, queue, known rounds);
- to leave nothing undone (`Settled`): no majority that is not locked on, no prevote or precommit that is
  due, no confirmed propose of another validator that is complete, no message of a reached round in the
  queue. A propose of the node's own that was confirmed before it was sent may stay confirmed, and a block
  may wait for the wrong propose: see the findings;
- to terminate, although `Commit` and `HandleConsensus` call each other through the queue;
- to lose no message (`KeepsDone`): each one received is of a past epoch, waits in the queue, or has had
  its effect;
- to panic only in a state that satisfies `Stuck`, whose cases are the panics of the source; the handlers
  of messages, blocks and transactions panic, while the epoch does not change, exactly under a condition
  on the state before the call (`MessagePanics`, `ResponsePanics`, `TxPanics`). `NodeSafety.WhyStuck`
  gives their causes in a run. The propose timeout of an auditor is a panic apart.

**MerkleDB.** A fork is a working patch over a patch over a snapshot. `Forks` proves that it behaves
as a plain map with a checkpoint, with the run-time borrow discipline included. `Iteration` proves
the merging iterator exact, `Backups` that backups undo merges, also in stacks. `Merkle` proves the
in-place root computation equal to the level-by-level definition, and the root and the list hash binding. `Keys`
proves round trips and order of keys for every width.

**Others.** The median time of a block lies between honest times (`MedianTime`), a jump of rounds
follows an honest validator (`RoundJump`, `NodeSafety`), and responses to a request for transactions
are complete and packed (`Responses`).

## Conventions

- A hash is represented by the value it is the hash of, except in `Merkle`, where the hash function
  is a parameter. Signatures are represented by the message history: a message signed by an honest
  validator is in it.
- A panic is the result `Panicked`, or a failed borrow or merge. Panics that cannot happen are
  assertions or preconditions.
- Clocks, timers and the choice of transactions for a propose are parameters or fields.
- `Conf` and `Snap` give the constants and the whole state of a node as values. Most lemmas are about
  these values.
- `bound` and other ghost parameters of handlers serve the termination proof only.

## Findings

Where the source does not do what its documentation or an assertion in it says.

- `handle_majority_precommits` (exonum-node/src/consensus.rs:612-618) asserts that the propose of a
  precommit majority executes to the precommitted block, and blames the majority of validators
  otherwise. The propose is the one named by the last precommit, so a single Byzantine precommit for
  the right block that names another complete propose makes an honest node panic:
  `Findings.WrongPrecommitPanics` gives a run with four validators and a state of a node in it. (That the
  state meets the invariants of the handlers is proved, not that a sequence of handler calls leads to it.)
  `Findings.BlockHashAssertion` gives the exact condition, and that no honest precommit meets it.
  `handle_full_propose` (exonum-node/src/consensus.rs:436-440) fails in the same way for a propose that
  was confirmed before it was complete: `Findings.WrongProposePanics`, and exactly when, in
  `Node.NodeHandler.CommitConfirmed`. The assertion on a block received from another node does hold in
  every run (`NodeSafety.AcceptedBlocksExecute`).
- For the same reason a block may wait although it has +2/3 precommits and its propose is complete, valid
  and executed (exonum-node/src/consensus.rs:571-590): only the propose named by the last precommit counts.
  `Findings.CompleteBlockWaits` gives the state. A precommit neither commits nor panics exactly if it does not
  complete +2/3 or names an incomplete propose (`Node.NodeHandler.HandlePrecommit`), and
  `Findings.WhyBlockWaits` says what such a block waits for.
- `remove_unknown_transaction` (exonum-node/src/state.rs:1050-1067) is documented to panic on an invalid
  transaction of the incomplete block. It panics on any invalid transaction while a block is
  incomplete: `Findings.UnrelatedTxPanics` has a run without Byzantine validators; exactly then, by
  `Node.NodeHandler.RemoveUnknownTransaction`.
- The panics on a propose with an invalid transaction and +2/3 prevotes, or on such a block
  (exonum-node/src/consensus.rs:544-552, exonum-node/src/state.rs:1216-1217), blame the majority of
  validators. If the check of a transaction depends on the block, honest validators are enough, because a
  transaction in the pool is not checked again: `Findings.LateTxPanics`. If it does not, no propose with
  an invalid transaction gathers +2/3 prevotes (`NodeSafety.NoInvalidPrevoted`); in general the check has
  changed its mind (`NodeSafety.InvalidPrevotedChanged`, `NodeSafety.AcceptedInvalidChanged`).
- `add_propose` (exonum-node/src/state.rs:1128-1174) refuses committed transactions, so that no
  transaction is in two blocks (`Safety.NoTransactionTwice`), but not a transaction listed twice
  (`Findings.DuplicatesAreAccepted`), and every listed transaction is executed
  (exonum/src/blockchain/mod.rs:634). After the run of `Findings.CommittedTwice` an honest chain has a
  transaction twice. By `Safety.CommittedOnceUnlessRepeated` this happens exactly if an honest validator
  has precommitted, for a block of the chain, a propose that repeats a transaction.
- `handle_propose_timeout` (exonum-node/src/consensus.rs:1011-1019) returns for a node that is no
  validator, but asks before for its own prevote, on which an auditor panics
  (exonum-node/src/state.rs:1088-1094): `Node.NodeHandler.HandleProposeTimeout`. The source sets this
  timeout for a leader only.
- `send_transactions_by_hash` (exonum-node/src/requests.rs:99-128) sends an empty response first if the
  first transaction does not fit into any response, and only then (`Responses.EmptyResponse`).

## Model

| member | source | states |
|---|---|---|
| `Quorums.MaxFaultyIsTight` | exonum-node/src/state.rs:765-768 | f = (n + 2) / 3 - 1 is the largest number of Byzantine validators below a third: 3f < n, and 3(f + 1) >= n |
| `Quorums.QuorumsShareHonest` | exonum/src/helpers/mod.rs:60-62 | two sets of validators of the size of a Byzantine quorum share an honest validator whenever fewer than a third are Byzantine |
| `Quorums.QuorumIsTight` | exonum/src/helpers/mod.rs:60-62 | a quorum is the least number above two thirds of n, and n without the largest tolerated number of Byzantine validators |
| `Quorums.HonestAreQuorum` | exonum/src/helpers/mod.rs:60-62 | the validators that are not Byzantine are a quorum if and only if fewer than a third are Byzantine |
| `Protocol.LeadersTakeTurns` | exonum-node/src/state.rs:734-738 | the leader of the next round, and of the same round of the next epoch, is the next validator by id, the first after the last |
| `Protocol.EveryoneLeadsOnce` | exonum-node/src/state.rs:734-738 | among n rounds in a row each validator leads exactly one |
| `VoteCounting.CountIsVoters` | exonum-node/src/state.rs:307-344 | the running count of `Votes` is the number of different validators among the collected messages |
| `VoteCounting.Votes.Insert` | exonum-node/src/state.rs:321-328 | a vote is counted and stored exactly if its validator has not voted before; validity of the count is kept |
| `VoteCounting.CountedPrevotesAreQuorum` | exonum-node/src/state.rs:1262-1267 | a counted majority of prevotes is a quorum of different validators that sent them |
| `VoteCounting.PrecommitsAreQuorum` | exonum-node/src/state.rs:1336-1341 | a list of precommits by enough different validators is a quorum of validators that sent them |
| `Agreement.OneProposePerRound` | exonum-node/src/consensus.rs:534-558 | in one round only one propose can gather +2/3 prevotes |
| `Agreement.HonestPrecommit` | exonum-node/src/consensus.rs:377-401 | every precommit quorum has an honest precommit, so its block is the execution of a propose with +2/3 prevotes in that round |
| `Agreement.NoRivalQuorum` | exonum-node/src/consensus.rs:628-670 | once a propose has a precommit quorum in a round, no later round of the epoch sees a prevote quorum for another propose, at any position of the message history |
| `Agreement.Agreement` | exonum-node/src/consensus.rs:567-670 | two precommit quorums of one epoch, in whatever rounds, are for the same block |
| `Agreement.TipsDescend` | exonum-node/src/consensus.rs:710-766 | of two nodes in epochs e <= e', the last block of the first is an ancestor of, or equal to, the last block of the second; equal epochs have equal last blocks |
| `Network.PrevoteKeepsLocal` | exonum-node/src/consensus.rs:1229-1255 | a prevote that the locking rules allow keeps the invariant of a node: no equivocation, justified locks |
| `Network.PrecommitKeepsLocal` | exonum-node/src/consensus.rs:1258-1281 | the same for a precommit of the locked propose by a node without incompatible prevotes |
| `Network.CommitRaisesEpoch` | exonum-node/src/state.rs:920-925 | a block that a node may commit never belongs to an epoch before the node's own, although only its height and previous hash are compared |
| `Network.CommitKeepsLocal` | exonum-node/src/consensus.rs:710-766 | committing an ordinary or skip block keeps the chain well linked, the node's epoch justified by a quorum, and raises the epoch |
| `Network.StepKeepsNetInv` | exonum-node/src/consensus.rs:103-157 | every step of an honest node and every message of a Byzantine validator keeps the invariant of the whole network |
| `Network.RunKeepsNetInv` | exonum-node/src/consensus.rs:103-157 | the invariant holds in every state of every run |
| `Safety.AgreementInEveryRun` | exonum-node/src/consensus.rs:534-670 | in no state of any run with fewer than n/3 Byzantine validators do two different blocks of one epoch both have a precommit quorum |
| `Safety.ChainsAgree` | exonum-node/src/consensus.rs:304-349 | at any time of a run the chains of two honest nodes are prefixes of one another, and equal if the nodes are in the same epoch |
| `Safety.RunAdvances` | exonum-node/src/state.rs:858-864 | over any run a node's chain only grows, every added block raises its epoch, and within an epoch its round and locked round never fall and its lock changes only to a later round |
| `Safety.CommitsRaiseEpoch` | exonum-node/src/state.rs:920-954 | every commit of a run, also of a skip, is of the node's epoch or a later one and leaves the node above it for good |
| `Safety.ChainConsistency` | exonum-node/src/consensus.rs:225-349 | the chains of two honest nodes observed at any two times of a run are prefixes of one another |
| `Safety.NoTransactionTwice` | exonum-node/src/state.rs:1128-1174 | in every run no transaction is in two blocks of an honest node's chain, because committed transactions are refused in proposes and every quorum has an honest precommitter |
| `Safety.BlocksArePrecommitted` | exonum-node/src/consensus.rs:710-766 | every block after the genesis block of an honest node's chain is that of a propose which an honest validator has precommitted |
| `Safety.QuorumIsForLeader` | exonum-node/src/consensus.rs:183-190 | in a run of two validators or more, a propose with +2/3 prevotes is by the leader of its round |
| `Safety.BlocksAreByLeaders` | exonum-node/src/consensus.rs:183-190 | in a run of two validators or more, every block of an honest node's chain was proposed by the leader of its round |
| `Safety.HonestVotesSuffice` | exonum-node/src/state.rs:820-822 | if all validators that are not Byzantine prevote for a propose in a round, or precommit a block, it has a quorum |
| `Safety.CommittedOnceUnlessRepeated` | exonum/src/blockchain/mod.rs:632-636 | in every run, no transaction is at two positions of an honest node's chain if and only if no block of the chain repeats one in its own list, and if and only if no honest validator has precommitted, for a block of the chain, a propose that lists a transaction twice |
| `Safety.HonestValidatorsDoNotEquivocate` | exonum-node/src/state.rs:1234-1310 | an honest validator has one prevote and one precommit per round, none for a round it has not reached, and no precommit above its lock |
| `Safety.LockJustification` | exonum-node/src/state.rs:1344-1359 | if an honest validator precommits in round r, each of its prevotes in a later round is for the same propose or was sent when its propose had +2/3 prevotes in a round between |
| `NodeState.CountedLockJustification` | exonum-node/src/state.rs:1344-1359 | the same as the node sees it: the newer +2/3 prevotes are ones it has counted |
| `NodeState.CountedBeforePrevote` | exonum-node/src/consensus.rs:1229-1255 | a node that is about to prevote against its own precommit of an earlier round has already counted +2/3 prevotes for the new propose in a round between |
| `NodeState.OneAuthorPerRound` | exonum-node/src/consensus.rs:183-190 | all tracked proposes of one round that are not the node's own have one author |
| `NodeState.RefusedIsCommitted` | exonum-node/src/state.rs:1140-1158 | for a node that keeps the invariant, a transaction is refused exactly if it is in a block of the chain |
| `NodeState.CompleteIsPooled` | exonum-node/src/state.rs:1134-1174 | for such a node, a tracked propose is complete and valid exactly if all its transactions are in the pool or the cache |
| `NodeState.IncompatibleOnWire` | exonum-node/src/state.rs:1344-1359 | the node has no incompatible prevotes exactly if all prevotes that it has sent for rounds after its lock are for the locked propose |
| `NodeState.SettledMeans` | exonum-node/src/consensus.rs:628-670 | a settled node is locked in or after every round with +2/3 counted prevotes for a complete propose; unlocked, it has prevoted for all complete valid proposes, locked, in its round; and it has precommitted its lock exactly if all prevotes it sent for later rounds are for it |
| `NodeState.NothingIsLost` | exonum-node/src/consensus.rs:813-817 | a queued message of the present or a later epoch is still queued or has had its effect: a vote is marked, the leader's propose on the last block is tracked unless it has a committed transaction |
| `NodeState.HonestPrevotesLock` | exonum-node/src/consensus.rs:534-558 | a settled node that has counted the prevotes of all honest validators for a complete propose is locked in that round or later |
| `NodeState.HonestPrecommitsComplete` | exonum-node/src/consensus.rs:673-707 | the last precommit of the honest validators for a block completes +2/3 |
| `Safety.HandlerIsRun` | exonum-node/src/consensus.rs:103-157 | whatever sequence of protocol actions a handler performs continues a run of the network, so that the theorems apply to it |
| `NodeSafety.HandlersKeepChainsConsistent` | exonum-node/src/consensus.rs:710-818 | a handler call only extends the node's chain, and the result is consistent with every honest chain at every time of the run |
| `NodeSafety.AcceptedBlocksExecute` | exonum-node/src/consensus.rs:459-501 | in a run, no block to be committed belongs to an earlier epoch, and every accepted block executes to itself, so the hash assertion of a received block holds |
| `NodeSafety.AcceptedBlocksAreFresh` | exonum-node/src/state.rs:1204-1227 | in a run, an accepted block has no committed transaction, so the panic on one is unreachable |
| `NodeSafety.WrongBlockIsFaulty` | exonum-node/src/consensus.rs:612-618 | a precommit that names a propose of another block does not come from an honest validator |
| `Findings.BlockHashAssertion` | exonum-node/src/consensus.rs:604-618 | for a node of a run: when a precommit completes +2/3 and its propose is complete and valid, the assertion on the block hash fails exactly if that propose differs, in more than the round, from the one that honest validators precommitted; then it is not from an honest validator |
| `NodeSafety.PrevotedTxsPassed` | exonum-node/src/state.rs:1134-1174 | in a run, every transaction of a propose with +2/3 prevotes has passed the check on some block below the propose |
| `NodeSafety.InvalidPrevotedChanged` | exonum-node/src/consensus.rs:544-552 | for a node of a run: a propose with an invalid transaction and +2/3 prevotes means that the check passed a transaction on a block of the chain and fails it on the last one |
| `NodeSafety.NoInvalidPrevoted` | exonum-node/src/consensus.rs:544-552 | in a run, if the check of a transaction does not depend on the block, no propose with an invalid transaction gathers +2/3 prevotes, so the panic on one is unreachable |
| `NodeSafety.AcceptedInvalidChanged` | exonum-node/src/state.rs:1204-1227 | for a node of a run: an invalid transaction in an accepted block means the same change of the check |
| `NodeSafety.WhyStuck` | exonum-node/src/consensus.rs:544-618 | for a node of a run, every state in which it panics has one of three causes: a Byzantine precommit that names a propose which the node cannot commit for the block, a check that changed its mind about a transaction, or an invalid transaction while a block is incomplete |
| `Findings.WrongPrecommitPanics` | exonum-node/src/consensus.rs:673-707 | a run with four validators, one of them Byzantine; a state of an honest node that has the node's view of the run and meets the invariants; and a precommit of the run on which the node panics in that state |
| `Findings.WrongProposePanics` | exonum-node/src/consensus.rs:432-440 | the same run, and a state in which the precommit came before the propose that it names; the node then panics on the propose |
| `Findings.CompleteBlockWaits` | exonum-node/src/consensus.rs:571-590 | in that state the block has +2/3 counted precommits, and its propose is complete, valid and executed, but it is not committed |
| `Findings.WhyBlockWaits` | exonum-node/src/consensus.rs:571-590 | for a node of a run: a block of a complete propose with +2/3 counted precommits waits only because one of them names a propose that is not complete, or one of the node's own; if that precommit is honest, the two proposes differ in nothing but the round |
| `Findings.UnrelatedTxPanics` | exonum-node/src/state.rs:1050-1067 | a run without Byzantine validators, a state of a node in it with an incomplete block, and an invalid transaction outside that block on which the node panics, unlike the documentation says |
| `Findings.LateTxPanics` | exonum-node/src/consensus.rs:544-552 | a run without Byzantine validators in which the check depends on the block, and a state of a node in it that panics on the prevote for a propose |
| `Findings.DuplicatesAreAccepted` | exonum-node/src/state.rs:1128-1174 | a propose that lists a known transaction twice passes every check of a propose |
| `Findings.CommittedTwice` | exonum/src/blockchain/mod.rs:632-636 | a run with four validators, one of them Byzantine, after which the chain of an honest node has a block with the same transaction twice |
| `NodeSafety.JumpFollowsHonest` | exonum-node/src/state.rs:743-782 | a round to jump to was announced or passed by an honest validator in a message of the same or the next epoch |
| `NodeState.PrevoteSentKeeps` | exonum-node/src/consensus.rs:1229-1255 | sending a prevote keeps the node invariant: counts, own votes and message history stay in step |
| `NodeState.PrecommitSentKeeps` | exonum-node/src/consensus.rs:1258-1281 | sending a precommit for the lock keeps the node invariant and is an allowed protocol action |
| `NodeState.CommittedKeeps` | exonum-node/src/consensus.rs:710-818 | a commit keeps the node invariant, with fresh vote tables and the surviving queue, and is an allowed protocol action |
| `NodeState.TxReceivedTracks` | exonum-node/src/state.rs:975-988 | after a transaction is received, each propose waits exactly for its transactions that are unknown and not invalid, and is invalid exactly if it has an invalid one |
| `NodeState.TxReceivedSettles` | exonum-node/src/consensus.rs:832-895 | after a transaction is received, all that is left to act on are the proposes it completed |
| `NodeState.LockingDone` | exonum-node/src/consensus.rs:628-670 | when the locking loop ends, no propose with +2/3 prevotes is left unlocked |
| `Node.NodeHandler.AddPrevote` | exonum-node/src/state.rs:1234-1259 | the vote is counted once and the result says whether there are +2/3; its precondition is that the node does not contradict its own prevote |
| `Node.NodeHandler.AddPrecommit` | exonum-node/src/state.rs:1282-1310 | the same for precommits |
| `Node.NodeHandler.HaveIncompatiblePrevotes` | exonum-node/src/state.rs:1344-1359 | true exactly if an own prevote in a round after the lock, up to the current one, is for another propose |
| `Node.NodeHandler.BroadcastPrevote` | exonum-node/src/consensus.rs:1229-1255 | puts the prevote with the current locked round on the wire and counts it, as an allowed protocol action |
| `Node.NodeHandler.CheckProposeAndBroadcastPrevote` | exonum-node/src/consensus.rs:355-373 | prevotes exactly if the propose has no invalid transactions |
| `Node.NodeHandler.BroadcastPrecommit` | exonum-node/src/consensus.rs:1258-1281 | puts the precommit for the locked propose on the wire and counts it, as an allowed protocol action |
| `Node.NodeHandler.Execute` | exonum-node/src/consensus.rs:1154-1181 | the block of a propose is its execution on the last block; executed once, remembered afterwards |
| `Node.NodeHandler.Lock` | exonum-node/src/state.rs:858-864 | the lock moves to a strictly later round |
| `Node.NodeHandler.LockAtRound` | exonum-node/src/consensus.rs:637-664 | locks, and precommits exactly if the node is a validator without incompatible prevotes |
| `Node.NodeHandler.LockOn` | exonum-node/src/consensus.rs:628-670 | performs only allowed protocol actions; afterwards the node has prevoted in all rounds up to the current one, is locked on the propose, has precommitted the lock exactly if it has no incompatible prevotes, and misses no later round with +2/3 prevotes; a panic leaves it in a later epoch |
| `Node.NodeHandler.HandleMajorityPrevotes` | exonum-node/src/consensus.rs:534-558 | locks only upwards and precommits as above; panics in the same epoch exactly if the round is after the lock and the propose has an invalid transaction |
| `Node.NodeHandler.HandleMajorityPrecommits` | exonum-node/src/consensus.rs:567-625 | commits the block if its propose is complete, otherwise remembers exactly that it is confirmed; panics in the same epoch exactly if the complete propose is invalid or executes to another block |
| `Node.NodeHandler.CommitPropose` | exonum-node/src/consensus.rs:601-625 | commits the block; panics in the same epoch exactly if the propose is invalid or executes to another block |
| `Node.NodeHandler.ExecuteAndCommit` | exonum-node/src/consensus.rs:612-625 | commits the block; panics in the same epoch exactly if the propose executes to another block |
| `Node.NodeHandler.HandleFullPropose` | exonum-node/src/consensus.rs:408-452 | afterwards nothing is left to do for the propose: prevoted unless locked, locked on every majority, precommitted, committed if confirmed; within the epoch it panics exactly if the propose is invalid with +2/3 prevotes after the lock, or is confirmed for a block it does not execute to |
| `Node.NodeHandler.CommitConfirmed` | exonum-node/src/consensus.rs:435-449 | commits the block confirmed earlier; panics in the same epoch exactly if the propose executes to another one |
| `Node.NodeHandler.Commit` | exonum-node/src/consensus.rs:710-818 | extends the chain by the block, enters a later epoch and drains the queue, of which no message is lost: each is of a past epoch, queued again, or has had its effect; the mutual recursion with `HandleConsensus` terminates for any queue; panics in the same epoch exactly on a block of an earlier one |
| `Node.NodeHandler.ApplyBlock` | exonum-node/src/consensus.rs:719-792 | the whole new state of a commit: chain, epoch after the block's, round 1, no lock, empty tables, committed transactions leave pool and cache |
| `Node.NodeHandler.EnterEpoch` | exonum-node/src/state.rs:920-941 | all that belongs to an epoch is reset |
| `Node.NodeHandler.AddPropose` | exonum-node/src/state.rs:1128-1174 | a propose is added exactly if it is new and has no committed transaction outside the pool, and then waits exactly for its unknown transactions |
| `Node.NodeHandler.HandlePropose` | exonum-node/src/consensus.rs:160-221 | a propose that is a skip with transactions, on another block or not by the leader changes nothing; otherwise it is tracked, unless refused, and nothing is left to act on; the panic condition is exact |
| `Node.NodeHandler.HandlePrevote` | exonum-node/src/consensus.rs:504-530 | the vote is counted and nothing is left to act on; panics in the same epoch exactly if it completes +2/3 after the lock for a complete propose with an invalid transaction |
| `Node.NodeHandler.HandlePrecommit` | exonum-node/src/consensus.rs:673-707 | the vote is counted, the block committed if its propose is complete, and nothing is left to act on; it neither commits nor panics exactly if it does not complete +2/3 or the propose it names is not complete; panics in the same epoch exactly if it completes +2/3 and names a complete propose that is invalid or executes to another block |
| `Node.NodeHandler.UpdateValidatorRound` | exonum-node/src/state.rs:743-782 | the result is the largest round that more than f validators have reached, if that is later than the current one and the message was news; the known rounds only rise |
| `Node.NodeHandler.QueueMessage` | exonum-node/src/consensus.rs:126-147 | the message is queued, the known round of its validator rises to it, and if that is news a jump is scheduled to exactly the highest round that more than f validators have reached, if it is later than the current one |
| `Node.NodeHandler.HandleConsensus` | exonum-node/src/consensus.rs:103-157 | messages of other epochs change nothing, later ones are queued, and the rest have their effect: a well-formed propose is tracked unless refused, a vote is counted; no message that was done or queued is lost; only allowed protocol actions are performed, the call terminates, the round stays within an epoch, nothing is left to act on, and within the epoch the panic condition is exact |
| `Node.NodeHandler.DrainQueue` | exonum-node/src/consensus.rs:981-984 | every queued message is of a past epoch, queued again or has had its effect, and nothing done before is undone; although handling may commit blocks and refill the queue, it terminates and leaves nothing to act on |
| `Node.NodeHandler.ProcessNewRound` | exonum-node/src/consensus.rs:967-985 | a locked validator has prevoted in the new round for the propose it was locked on; no queued message is lost; nothing is left to act on |
| `Node.NodeHandler.HandleNewRound` | exonum-node/src/consensus.rs:951-964 | jumps exactly to a later round of the same height |
| `Node.NodeHandler.HandleRoundTimeout` | exonum-node/src/consensus.rs:989-1001 | moves to the next round exactly if the timeout is for the current one |
| `Node.NodeHandler.HandleProposeTimeout` | exonum-node/src/consensus.rs:1006-1053 | an unlocked validator that has not prevoted sends exactly one propose on the last block, tracks it and prevotes for it; otherwise nothing changes, and an unlocked auditor panics; any other panic leaves it in a later epoch |
| `BlockProofs.ValidatePrecommits` | exonum-node/src/consensus.rs:1284-1355 | accepts exactly lists of at least a quorum and at most n precommits, by different validators, signed by them, for one block, epoch and round |
| `BlockProofs.ValidPrecommitsAreQuorum` | exonum-node/src/consensus.rs:1284-1355 | accepted precommits with authentic signatures are a precommit quorum |
| `BlockProofs.QuorumIsAccepted` | exonum-node/src/consensus.rs:1284-1355 | the messages of every precommit quorum, of whatever size, give a list of precommits that is accepted |
| `Node.NodeHandler.ResponseIsAcceptable` | exonum-node/src/consensus.rs:225-294 | for every block with a precommit quorum that continues the chain there is a response that is accepted |
| `Node.NodeHandler.ValidateBlockResponse` | exonum-node/src/consensus.rs:225-294 | accepts exactly responses for this node that continue its chain and have accepted precommits |
| `Node.NodeHandler.HandleBlock` | exonum-node/src/consensus.rs:304-349 | an unacceptable response changes nothing; an accepted block is committed, or kept with exactly its unknown transactions; panics in the same epoch exactly if the block has a committed or invalid transaction, or is complete and executes to another block or is of an earlier epoch |
| `Node.NodeHandler.FindUnknown` | exonum-node/src/state.rs:1204-1227 | finds exactly the unknown transactions of a block, and fails exactly on a committed or an invalid one |
| `Node.NodeHandler.HandleFullBlock` | exonum-node/src/consensus.rs:459-501 | commits the received block and enters a later epoch; panics in the same epoch exactly if it executes to another block or is of an earlier epoch |
| `Node.NodeHandler.CheckIncompleteProposes` | exonum-node/src/state.rs:975-1040 | every propose is told of the transaction; returns exactly the complete ones, each once, latest rounds first when there are at most ten |
| `Node.NodeHandler.RemoveUnknownTransaction` | exonum-node/src/state.rs:1055-1067 | the incomplete block waits for exactly one transaction less; asks for its commit when none is left; panics exactly on an invalid one |
| `Node.NodeHandler.HandleTx` | exonum-node/src/consensus.rs:832-908 | the outcome is decided by whether the transaction is known and passes the check; it is stored or remembered as invalid; all proposes and the block it completes are acted on; within the epoch it panics only if a completed propose is bad, the transaction is invalid while any block is incomplete, or the completed block panics, and always so if the lock did not move |
| `Node.NodeHandler.FlushTxsIntoPool` | exonum-node/src/events_impl.rs:135-154 | moves the cache into the pool without changing what is known |
| `Node.NodeHandler.constructor` | exonum-node/src/state.rs:541-603 | a new node satisfies the invariant, in the first epoch after the genesis block |
| `RoundJump.HighestReached` | exonum-node/src/state.rs:774-781 | sorting the known rounds downwards and taking the one at index f gives the highest round that more than f validators have reached |
| `RoundJump.SomeHonestReached` | exonum-node/src/state.rs:743-782 | one of more than f validators is honest |
| `MedianTime.MedianPrecommitsTime` | components/explorer/src/lib.rs:825-833 | the time at the middle of the sorted times: no more than half are earlier, more than half are not later; the Unix epoch for no precommits |
| `MedianTime.MedianIsUnique` | components/explorer/src/lib.rs:825-833 | that description fits only one time |
| `MedianTime.MedianOfAscending` | components/explorer/src/lib.rs:825-833 | a time fits the description of the median of an ascending list exactly if it is the one at half the length |
| `MedianTime.MedianBetweenHonest` | exonum-node/src/consensus.rs:1284-1355 | for accepted precommits the median lies between the times of two honest validators |
| `Responses.SendTransactionsByHash` | exonum-node/src/requests.rs:99-128 | the responses concatenate to exactly the known transactions in request order; each is within the limit or has a single transaction; none could have taken the next transaction |
| `Responses.RequestedConcat` | exonum-node/src/requests.rs:99-128 | the answer to a list of hashes is the answers to its parts, one after the other |
| `Responses.RequestedOne` | exonum-node/src/requests.rs:99-128 | the answer to one hash is its transaction, or nothing if that is unknown |
| `Responses.EmptyResponse` | exonum-node/src/requests.rs:110-118 | an empty response is sent exactly if the first transaction does not fit into any, and only as the first response |
| `Changes.ViewChanges.Get` | components/merkledb/src/db.rs:75-88 | what the changes say of a key is what the changed index has, and otherwise the layer below decides |
| `Changes.ViewChanges.Contains` | components/merkledb/src/db.rs:90-105 | the same for membership |
| `Changes.JoinedComposes` | components/merkledb/src/db.rs:280-293 | merging newer changes into older ones has the effect of one after the other, also when either cleared the index |
| `Changes.Patch.Get` | components/merkledb/src/db.rs:724-730 | a read from a patch is a read from the snapshot with the changes made |
| `Changes.Patch.Contains` | components/merkledb/src/db.rs:732-738 | the same for membership |
| `Forks.MergedShows` | components/merkledb/src/db.rs:250-294 | after merging a working patch the patch alone shows every index as before |
| `Forks.BorrowsAndCells` | components/merkledb/src/db.rs:252-272 | once all borrows are dropped, and only then, every cell is full with a single pointer, so merging cannot panic |
| `Forks.BorrowShows` | components/merkledb/src/db.rs:155-179 | a live borrow has the changes written so far |
| `Forks.Fork.constructor` | components/merkledb/src/db.rs:864-876 | a fork of a patch shows what the patch shows, and nothing is borrowed |
| `Forks.Fork.Changes` | components/merkledb/src/db.rs:203-225 | an exclusive borrow succeeds exactly if there is no other; it takes all changes written so far and loses none |
| `Forks.Fork.ReadonlyChanges` | components/merkledb/src/db.rs:229-247 | a shared borrow succeeds exactly if there is no exclusive one |
| `Forks.Fork.Drop` | components/merkledb/src/db.rs:181-192 | dropping a borrow loses no change; an exclusive one finds its cell present and empty |
| `Forks.Fork.GetBytes` | components/merkledb/src/views/mod.rs:188-194 | a read through a borrow is a read from the plain map |
| `Forks.Fork.ContainsRawKey` | components/merkledb/src/views/mod.rs:196-202 | the same for membership |
| `Forks.Fork.Put` | components/merkledb/src/views/mod.rs:407-415 | afterwards the key reads as the value; no other key, no other index and no checkpoint has changed |
| `Forks.Fork.Remove` | components/merkledb/src/views/mod.rs:418-425 | afterwards the key is absent; nothing else has changed |
| `Forks.Fork.Clear` | components/merkledb/src/db.rs:62-65 | afterwards the index has no key; no other index and no checkpoint has changed |
| `Forks.Fork.MergeInto` | components/merkledb/src/db.rs:250-294 | every index of the working patch is merged, its namespace recorded; panics exactly if something is borrowed |
| `Forks.Fork.Flush` | components/merkledb/src/db.rs:776-783 | the checkpoint becomes the current state; panics exactly if something is borrowed |
| `Forks.Fork.Rollback` | components/merkledb/src/db.rs:813-817 | the current state becomes the checkpoint |
| `Forks.Fork.IntoPatch` | components/merkledb/src/db.rs:833-856 | the patch of a fork shows exactly what the fork showed |
| `Forks.Fork.Perform` | components/merkledb/src/db.rs:776-817 | any sequence of puts, removals, clears, flushes and rollbacks on any indexes does what it does to a plain map with a checkpoint, and nothing panics |
| `Forks.LastWriteIsRead` | components/merkledb/src/db.rs:776-817 | after any sequence of operations an entry reads as its last write (put, removal or clear) left it, unless something was rolled back since |
| `Forks.UnwrittenIsRead` | components/merkledb/src/db.rs:776-817 | without a write and a rollback it reads as before |
| `Forks.RollbackIsRead` | components/merkledb/src/db.rs:813-817 | after a rollback, until the next write, it reads as at the last flush before the rollback |
| `Forks.FirstCheckpointIsRead` | components/merkledb/src/db.rs:813-817 | and as at the beginning, if there was no flush |
| `Iteration.StepIsRight` | components/merkledb/src/db.rs:1075-1109 | each kind of step yields the least entry left, or drops a deletion without changing what is left |
| `Iteration.YieldsOne` | components/merkledb/src/db.rs:1155-1181 | the entry to be yielded and what is then left are determined by what is left, so a peek shows what the following next returns |
| `Iteration.ForkIter.Next` | components/merkledb/src/db.rs:1116-1153 | yields the least of the entries left and leaves the others, skipping deletions; terminates |
| `Iteration.ForkIter.Peek` | components/merkledb/src/db.rs:1155-1181 | shows the least of the entries left and loses nothing |
| `Iteration.ChangesIter.Next` | components/merkledb/src/views/mod.rs:468-480 | the same over the changes of a cleared index |
| `Iteration.ChangesIter.Peek` | components/merkledb/src/views/mod.rs:482-499 | the same over the changes of a cleared index |
| `Iteration.Drain` | components/merkledb/src/db.rs:1116-1153 | repeated next yields exactly the entries left, in strictly ascending order |
| `Iteration.FromKeyOverlaid` | components/merkledb/src/db.rs:740-756 | merging the streams from a start key on is iterating over the merged index from that key on |
| `Iteration.FromKeyIs` | components/merkledb/src/db.rs:740-756 | the entries from a key on are those of the key itself and of all keys after it, with their values; from the empty key on, all |
| `Iteration.IterPatch` | components/merkledb/src/db.rs:740-756 | the iterator over an index of a patch has exactly its entries from the start key on, that one included |
| `Iteration.IterFork` | components/merkledb/src/views/mod.rs:204-222 | the iterator over a borrowed index has exactly the entries that the fork shows from the start key on, that one included |
| `Backups.BackupUndoesChange` | components/merkledb/src/db.rs:648-660 | the reverse of changes to an index restores its entries, also if they cleared it |
| `Backups.BackupTouches` | components/merkledb/src/db.rs:648-660 | the reverse touches only the keys that were changed or cleared, and clears nothing |
| `Backups.BackupRestores` | components/merkledb/src/db.rs:640-678 | merging the backup of a merge restores every index |
| `Backups.BackupsRestoreInReverse` | components/merkledb/src/db.rs:589-623 | for any stack of merges, applying the backups in reverse order restores each earlier state |
| `Backups.MergeMakesPatch` | components/merkledb/src/db.rs:551-567 | a merged database shows what the patch showed |
| `Backups.Database.Merge` | components/merkledb/src/backends/temporarydb.rs:85-134 | the store has in every index the entries with the changes made, index by index and key by key |
| `Backups.Database.MergeWithBackup` | components/merkledb/src/db.rs:640-678 | merges, and returns the patch whose merge restores the store |
| `Merkle.RootHash` | components/merkledb/src/hash.rs:195-228 | the loop that overwrites the array it is still reading terminates and gives the root defined level by level, for every length; zero for the empty list |
| `Merkle.Layout` | components/merkledb/src/hash.rs:56-112 | the hashed inputs read back: value after byte 0, one or two hashes after byte 1, little-endian length and root after byte 2 |
| `Merkle.KindsDiffer` | components/merkledb/src/hash.rs:39-70 | inputs for values, branches, single branches and lists are different, whatever they hold |
| `Merkle.SmallRoots` | components/merkledb/src/hash.rs:195-228 | the roots of lists of up to three values, written out |
| `Merkle.RootBinds` | components/merkledb/src/hash.rs:207-227 | two different levels of the same length and root have two colliding nodes above them |
| `Merkle.RootOfBinds` | components/merkledb/src/hash.rs:195-228 | two different nonempty lists with the same root, also of different lengths, yield two different byte strings, each hashed for its list, with the same hash |
| `Merkle.ListNodeBinds` | components/merkledb/src/hash.rs:103-112 | the final hash input determines the length, up to 64 bits, and the root |
| `Merkle.HashListBinds` | components/merkledb/src/hash.rs:76-126 | two different lists with the same hash yield two different byte strings, each hashed for its list, with the same hash |
| `Merkle.EncodedListBinds` | components/merkledb/src/hash.rs:124-126 | the same for lists of values with an injective encoding |
| `ByteStrings.BelowIsLexicographic` | components/merkledb/src/keys.rs:137-152 | in the order of keys the first differing byte decides, and a proper prefix comes first |
| `Keys.UnsignedRoundTrip` | components/merkledb/src/keys.rs:137-152 | an unsigned key of any width reads back as written |
| `Keys.UnsignedOrder` | components/merkledb/src/keys.rs:137-152 | byte order of unsigned keys of any width is numeric order |
| `Keys.OffsetAddsHalf` | components/merkledb/src/keys.rs:116-130 | the wrapping sum with the least value, reinterpreted, adds half the range; reading subtracts it |
| `Keys.SignedRoundTrip` | components/merkledb/src/keys.rs:154-169 | a signed key of any width reads back as written |
| `Keys.SignedOrder` | components/merkledb/src/keys.rs:154-169 | byte order of signed keys of any width is numeric order |
| `Keys.DateBounds` | components/merkledb/src/keys.rs:295-313 | dates are 64-bit seconds and 32-bit nanoseconds, and their keys have 12 bytes |
| `Keys.DateRoundTrip` | components/merkledb/src/keys.rs:295-313 | a date key reads back as written |
| `Keys.DateOrder` | components/merkledb/src/keys.rs:295-313 | byte order of date keys is the order of seconds, then nanoseconds |
| `Keys.WriteUnsigned` | components/merkledb/src/keys.rs:143-146 | writes the encoding into the buffer and nothing else |
| `Keys.WriteDate` | components/merkledb/src/keys.rs:300-306 | writes the whole 12-byte key |

## Left out

- Crash recovery: the round and votes restored after a restart are not modelled, and all claims are for runs without restarts.
- Validator-set changes: the validators are fixed.
- Signatures, SHA-256, Protobuf encoding and network transport: see the conventions above.
- Block execution: deterministic and total; a block is determined by its parent, proposer, epoch, transactions and kind. State hashes and error outcomes are not modelled.
- Requests to peers, peer states, statuses, timers and timeouts: the handlers are modelled without sending requests; timeouts and round jumps arrive as calls. The jump that the source schedules is recorded in `jumps`.
- Saving of consensus messages and proposes to the database, logging, plugins and API.
- `State` and `NodeHandler` of the source are one class here; collections that the source mutates are fields holding values.
- Node.NodeHandler.Commit: the assertion that a new epoch is later than the old one is a debug assertion in the source; the model panics on it, as debug builds do. The debug assertion that no other propose is confirmed for the same block is left out, as in release builds: a later confirmation is simply stored.
- Node.NodeHandler.CleanPool: the pool manager, which may drop any transactions from the pool after a commit, is pluggable; the model allows any set.
- Node.NodeHandler.HandleProposeTimeout: the transactions of an own propose are a parameter, known to the node; the choice between them, pool limits and skip proposals by plugins are not modelled.
- Node.NodeHandler.HandleTx: the propose timeout that a new transaction may start is not modelled. If completed proposes move the lock, the panic condition is one-way: which of several completed proposes is handled first is not determined by the source when there are more than ten.
- Iteration.IterFork: the entries below the working patch are collected before the merge starts, where the source pulls them one at a time; laziness of iterators is not modelled.
- Iteration.Range: stands for the ordered maps of the Rust library.
- Backups.Database.Merge: one store entry per index; the prefixing of keys by index ids within a column family, and I/O errors, are not modelled.
- Forks.Fork.IntoPatch: the update of the state aggregator is not modelled; namespaces of changed indexes are recorded.
- Forks.Fork.Rollback: that nothing is borrowed is a precondition; the Rust borrow checker ensures it.
- Migrations, scratchpads, persistent iterators, proof lists and proof maps, and hashing of Merkelized maps.
- Keys.DateRoundTrip: dates are pairs of seconds and nanoseconds; the calendar and its range checks are not modelled.
- Responses.SendTransactionsByHash: a maximal message length below the size of an empty response is excluded by a precondition, as the configuration check excludes it.
- Liveness, leader rotation, block ranges of the explorer, the connect list, demo services, command line and front ends: easy, or in need of timing assumptions that the source does not state.
