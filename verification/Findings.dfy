/** Where the code does not do what its documentation says: an input for each case, and when exactly it happens. */
module Findings {
  import opened Messages
  import opened Options
  import opened Quorums
  import opened Protocol
  import opened VoteCounting
  import opened Network
  import opened Safety
  import opened NodeState
  import opened NodeSafety
  import opened WitnessRuns
  import A = Agreement

  // ---- The block hash assertion on a precommit

  /**
   When a precommit completes +2/3 for its block and its propose is complete and valid, the assertion on the block hash
   fails exactly if the propose it names differs, in more than the round, from the one that honest validators
   precommitted; and then it is not from an honest validator.
   */
  lemma BlockHashAssertion(c: Config, s: State, run: seq<Net>, t: nat, k: nat, m: Precommit) returns (h: Message)
    requires Run(run) && t < |run| && TakesPart(c, s, run[t], k) && Ok(c, s)
    requires PrecommitMsg(m) in s.wire && m.validator < c.n && m.epoch == s.epoch
    requires Sized(c.n, s.precommits, (m.round, m.block))
    requires Majority(c.n, PrecommitGot(c, s, m).precommits, (m.round, m.block))
    requires Full(s.proposes, m.propose) && s.proposes[m.propose].valid
    ensures h in s.wire && HonestValidator(run[t], h.Validator()) && PrecommitFor(h, s.epoch, m.round, m.block)
    ensures PrecommitPanics(c, s, m) <==> m.propose.(round := 0) != h.precommit.propose.(round := 0)
    ensures PrecommitPanics(c, s, m) ==> !HonestValidator(run[t], m.validator)
  {
    hide Ok, Run, Majority, PrecommitPanics, PrecommitGot;
    PrecommitGotKeeps(c, s, m);
    PrecommitPanicsIs(c, s, m);
    SameWire(c, s, m);
    MajorityIsPrecommitQuorum(c, PrecommitGot(c, s, m), m.round, m.block);
    h := HonestBehind(run, t, s.epoch, m.round, m.block);
    SameBlock(m.propose, h.precommit.propose);
    if PrecommitPanics(c, s, m) {
      WrongBlockIsFaulty(c, s, run, t, k, PrecommitMsg(m));
    }
  }

  lemma SameWire(c: Config, s: State, m: Precommit)
    requires m.validator < c.n && Sized(c.n, s.precommits, (m.round, m.block))
    ensures PrecommitGot(c, s, m).wire == s.wire && PrecommitGot(c, s, m).epoch == s.epoch
  {
  }

  lemma HonestBehind(run: seq<Net>, t: nat, e: nat, r: nat, b: Block) returns (h: Message)
    requires Run(run) && t < |run| && PrecommitQuorum(run[t].n, run[t].wire, e, r, b)
    ensures h in run[t].wire && HonestValidator(run[t], h.Validator()) && PrecommitFor(h, e, r, b)
    ensures b == BlockOf(h.precommit.propose)
  {
    RunKeepsNetInv(run, t);
    NetInvGivesRecords(run[t]);
    h := A.HonestPrecommit(run[t].n, run[t].faulty, run[t].wire, e, r, b);
  }

  /** A block does not depend on the round of its propose, and on all else of it. */
  lemma SameBlock(p: Propose, q: Propose)
    ensures BlockOf(p) == BlockOf(q) <==> p.(round := 0) == q.(round := 0)
  {
  }

  // ---- A run in which it fails

  const RIGHT := Propose(2, 1, 1, Genesis, [], false)
  const OTHER := Propose(2, 1, 1, Genesis, [], true)
  const WRONG := Precommit(2, 1, 1, OTHER, BlockOf(RIGHT), 0)

  function FinalWire(): (w: Wire)
    ensures |w| == 8
  {
    FourWire(RIGHT, OTHER, WRONG)
  }

  const CONFIG: Config := Config(4, Some(0), ALWAYS)

  function Prevoted(): Votes {
    Votes([PrevoteBy(RIGHT, 0), PrevoteBy(RIGHT, 1), PrevoteBy(RIGHT, 3)], [true, true, false, true], 3)
  }

  function Precommitted(): Votes {
    Votes([PrecommitBy(RIGHT, 0), PrecommitBy(RIGHT, 1)], [true, true, false, false], 2)
  }

  function Completed(): Votes {
    Votes([PrecommitBy(RIGHT, 0), PrecommitBy(RIGHT, 1), PrecommitMsg(WRONG)], [true, true, true, false], 3)
  }

  /** The node with id 0 at the end of the run: it is locked on `RIGHT`, has executed it and precommitted its block. */
  function NodeZero(others: Proposes, precommits: Votes, confirmed: map<Propose, (nat, Block)>): State {
    State(
      true, 1, 1, 1, Some(RIGHT), [Genesis],
      others[RIGHT := ProposeState({}, true, Some(BlockOf(RIGHT)))], {BlockOf(RIGHT)},
      map[(1, RIGHT) := Prevoted()], map[(1, BlockOf(RIGHT)) := precommits],
      map[1 := PrevoteBy(RIGHT, 0).prevote], map[1 := PrecommitBy(RIGHT, 0).precommit],
      [], confirmed, map[], None, {}, {}, {}, {}, FinalWire())
  }

  /** It has both proposes of the leader, but not yet the leader's precommit. */
  function BeforeWrong(): State { NodeZero(map[OTHER := ProposeState({}, true, None)], Precommitted(), map[]) }

  /** It has the leader's precommit, but not yet the propose which that names. */
  function BeforeOther(): State { NodeZero(map[], Completed(), map[OTHER := (1, BlockOf(RIGHT))]) }

  lemma PrevotesValid()
    ensures Prevoted().Valid(4)
  {
    var votes := Prevoted();
    forall v: nat | v < 4 && votes.validators[v] ensures exists m :: m in votes.messages && m.Validator() == v {
      assert v == 0 || v == 1 || v == 3;
      var m := votes.messages[if v == 3 then 2 else v];
      assert m in votes.messages && m.Validator() == v;
    }
  }

  lemma PrecommitsValid()
    ensures Precommitted().Valid(4) && Completed().Valid(4)
  {
    var two, three := Precommitted(), Completed();
    forall v: nat | v < 4 && two.validators[v] ensures exists m :: m in two.messages && m.Validator() == v {
      assert two.messages[v] in two.messages && two.messages[v].Validator() == v;
    }
    forall v: nat | v < 4 && three.validators[v] ensures exists m :: m in three.messages && m.Validator() == v {
      assert three.messages[v] in three.messages && three.messages[v].Validator() == v;
    }
  }

  lemma NodeZeroCounts(precommits: Votes)
    requires precommits == Precommitted() || precommits == Completed()
    ensures PrevotesOk(4, 1, 1, map[(1, RIGHT) := Prevoted()], FinalWire())
    ensures PrecommitsOk(4, 1, map[(1, BlockOf(RIGHT)) := precommits], FinalWire())
  {
    hide Votes.Valid;
    PrevotesValid();
    PrecommitsValid();
    var w := FinalWire();
    assert w[2] == PrevoteBy(RIGHT, 0) && w[3] == PrevoteBy(RIGHT, 1) && w[4] == PrevoteBy(RIGHT, 3);
    assert w[5] == PrecommitBy(RIGHT, 0) && w[6] == PrecommitBy(RIGHT, 1) && w[7] == PrecommitMsg(WRONG);
  }

  lemma NodeZeroOwn()
    ensures OwnPrevotesOk(Some(0), 1, map[1 := PrevoteBy(RIGHT, 0).prevote], FinalWire())
    ensures OwnPrecommitsOk(Some(0), 1, map[1 := PrecommitBy(RIGHT, 0).precommit], FinalWire())
    ensures OwnVotes(Locked4(0, RIGHT), 0, FinalWire())
  {
    var w := FinalWire();
    assert w[2] == PrevoteBy(RIGHT, 0) && w[5] == PrecommitBy(RIGHT, 0);
    forall m | m in w
      ensures IsPrevote(m, 0, 1) ==> m == PrevoteBy(RIGHT, 0)
      ensures IsPrecommit(m, 0, 1) ==> m == PrecommitBy(RIGHT, 0)
      ensures m.Epoch() == 1
    {
      var i :| 0 <= i < 8 && w[i] == m;
    }
  }

  lemma WrongIsNamed()
    ensures Named(1, 1, OTHER, BlockOf(RIGHT), FinalWire())
  {
    assert FinalWire()[7] == PrecommitMsg(WRONG);
  }

  lemma NodeZeroVotes(others: Proposes, precommits: Votes, confirmed: map<Propose, (nat, Block)>)
    requires
      || (precommits == Precommitted() && confirmed == map[])
      || (precommits == Completed() && confirmed == map[OTHER := (1, BlockOf(RIGHT))])
    ensures VotesOk(CONFIG, NodeZero(others, precommits, confirmed))
  {
    hide PrevotesOk, PrecommitsOk, OwnPrevotesOk, OwnPrecommitsOk, OwnVotes, FinalWire, Named;
    NodeZeroCounts(precommits);
    NodeZeroOwn();
    WrongIsNamed();
  }

  lemma BeforeWrongProposals()
    ensures ProposalsOk(CONFIG, BeforeWrong())
  {
    hide FinalWire;
  }

  lemma BeforeWrongOk()
    ensures Ok(CONFIG, BeforeWrong())
  {
    hide VotesOk, ProposalsOk, FinalWire, FourWire, Votes.Valid;
    BeforeWrongProposals();
    NodeZeroVotes(map[OTHER := ProposeState({}, true, None)], Precommitted(), map[]);
  }

  lemma BeforeWrongSettled()
    ensures Settled(CONFIG, BeforeWrong())
  {
  }

  lemma BeforeOtherOk()
    ensures Ok(CONFIG, BeforeOther())
  {
    hide VotesOk, FinalWire, FourWire, Votes.Valid;
    NodeZeroVotes(map[], Completed(), map[OTHER := (1, BlockOf(RIGHT))]);
  }

  lemma BeforeOtherSettled()
    ensures Settled(CONFIG, BeforeOther())
  {
    hide Named;
    WrongIsNamed();
  }

  lemma WrongRun() returns (run: seq<Net>)
    ensures Run(run) && run[|run| - 1].n == 4 && |run[|run| - 1].faulty| == 1
    ensures run[|run| - 1] == Four(Locked4(0, RIGHT), Locked4(1, RIGHT), FinalWire())
  {
    run := FourRun(RIGHT, OTHER, WRONG);
  }

  /**
   One Byzantine validator among four is enough for the assertion on the block hash to fail at an honest node: its
   precommit is for the right block but names another complete propose, and completes +2/3. The state has the node's
   view of a run, and is one that the handlers' invariants allow.
   */
  lemma WrongPrecommitPanics() returns (run: seq<Net>)
    ensures Run(run) && run[|run| - 1].n == 4 && |run[|run| - 1].faulty| == 1
    ensures TakesPart(CONFIG, BeforeWrong(), run[|run| - 1], 0)
    ensures Ok(CONFIG, BeforeWrong()) && Settled(CONFIG, BeforeWrong())
    ensures PrecommitMsg(WRONG) in BeforeWrong().wire && MessagePanics(CONFIG, BeforeWrong(), PrecommitMsg(WRONG))
  {
    hide Run, Ok, Settled;
    run := WrongRun();
    BeforeWrongOk();
    BeforeWrongSettled();
    assert FinalWire()[7] == PrecommitMsg(WRONG);
  }

  /** If the propose comes after the precommit that names it, the same assertion for confirmed proposes fails. */
  lemma WrongProposePanics() returns (run: seq<Net>)
    ensures Run(run) && run[|run| - 1].n == 4 && |run[|run| - 1].faulty| == 1
    ensures TakesPart(CONFIG, BeforeOther(), run[|run| - 1], 0)
    ensures Ok(CONFIG, BeforeOther()) && Settled(CONFIG, BeforeOther())
    ensures ProposeMsg(OTHER) in BeforeOther().wire && MessagePanics(CONFIG, BeforeOther(), ProposeMsg(OTHER))
  {
    hide Run, Ok, Settled;
    run := WrongRun();
    BeforeOtherOk();
    BeforeOtherSettled();
    assert FinalWire()[1] == ProposeMsg(OTHER);
  }

  /**
   Until then the node does not commit a block that has +2/3 counted precommits, although the propose of the block is
   complete, valid and executed: the precommit that completed +2/3 names another propose, and only that one is waited
   for.
   */
  lemma CompleteBlockWaits() returns (run: seq<Net>)
    ensures Run(run) && run[|run| - 1].n == 4 && |run[|run| - 1].faulty| == 1
    ensures TakesPart(CONFIG, BeforeOther(), run[|run| - 1], 0)
    ensures Ok(CONFIG, BeforeOther()) && Settled(CONFIG, BeforeOther())
    ensures var s := BeforeOther();
      && Majority(4, s.precommits, (1, BlockOf(RIGHT)))
      && Full(s.proposes, RIGHT) && s.proposes[RIGHT].valid && s.proposes[RIGHT].block == Some(BlockOf(RIGHT))
      && Last(s.chain) != BlockOf(RIGHT) && s.confirmed.Keys == {OTHER} && OTHER !in s.proposes
  {
    hide Run, Ok, Settled;
    run := WrongRun();
    BeforeOtherOk();
    BeforeOtherSettled();
  }

  /**
   A complete block with +2/3 counted precommits waits only because one of them names another propose, which is not
   complete, or one of the node's own; and if that one is honest, the proposes differ in nothing but the round.
   */
  lemma WhyBlockWaits(c: Config, s: State, run: seq<Net>, t: nat, k: nat, r: nat, q: Propose) returns (m: Message)
    requires Run(run) && t < |run| && TakesPart(c, s, run[t], k) && Settled(c, s)
    requires Majority(c.n, s.precommits, (r, BlockOf(q))) && Full(s.proposes, q)
    ensures m in s.wire && PrecommitFor(m, s.epoch, r, BlockOf(q)) && m.precommit.propose in s.confirmed
    ensures !Full(s.proposes, m.precommit.propose) || c.id == Some(m.precommit.propose.validator)
    ensures HonestValidator(run[t], m.Validator()) ==> m.precommit.propose.(round := 0) == q.(round := 0)
  {
    hide Run, Majority;
    var p :| p in s.confirmed && Named(s.epoch, r, p, BlockOf(q), s.wire);
    m :| m in s.wire && PrecommitFor(m, s.epoch, r, BlockOf(q)) && m.precommit.propose == p;
    SameBlock(p, q);
    if HonestValidator(run[t], m.Validator()) {
      HonestPrecommitBacked(run, t, m);
    }
  }

  // ---- A transaction twice in one propose

  /** No check of a propose looks for a transaction that it lists twice. */
  lemma DuplicatesAreAccepted(c: Config, s: State, tx: Tx, r: nat)
    requires Ok(c, s) && (tx in s.pool || tx in s.txCache)
    ensures var p := Propose(LeaderOf(c.n, s.epoch, r), s.epoch, r, Last(s.chain), [tx, tx], false);
      Proposable(c, s, p) && forall t :: t in p.txs ==> !RefusedTx(s, t)
  {
  }

  const DOUBLE := Propose(2, 1, 1, Genesis, [7, 7], false)
  const SECOND := Precommit(2, 1, 1, DOUBLE, BlockOf(DOUBLE), 0)

  lemma DoubleQuorum()
    ensures PrecommitQuorum(4, FourWire(DOUBLE, DOUBLE, SECOND), 1, 1, BlockOf(DOUBLE))
  {
    var w := FourWire(DOUBLE, DOUBLE, SECOND);
    var voters := {0, 1, 2};
    assert w[5] == PrecommitBy(DOUBLE, 0) && w[6] == PrecommitBy(DOUBLE, 1) && w[7] == PrecommitBy(DOUBLE, 2);
    forall v | v in voters ensures v in Precommitters(4, w, 1, 1, BlockOf(DOUBLE)) {
      assert PrecommitBy(DOUBLE, v) in w && IsPrecommit(PrecommitBy(DOUBLE, v), v, 1);
    }
    SubsetCardinality(voters, Precommitters(4, w, 1, 1, BlockOf(DOUBLE)));
  }

  /**
   A leader that lists a transaction twice has it committed twice, by honest nodes, in one block: in this run no other
   rule is broken. When exactly it happens is `Safety.CommittedOnceUnlessRepeated`.
   */
  lemma CommittedTwice() returns (run: seq<Net>)
    ensures Run(run) && run[|run| - 1].n == 4 && |run[|run| - 1].faulty| == 1 && 0 in run[|run| - 1].nodes
    ensures run[|run| - 1].nodes[0].chain == [Genesis, BlockOf(DOUBLE)]
    ensures !CommittedOnce(run[|run| - 1].nodes[0].chain)
  {
    hide Run, FourWire, PrecommitQuorum;
    var w := FourWire(DOUBLE, DOUBLE, SECOND);
    run := FourRun(DOUBLE, DOUBLE, SECOND);
    DoubleQuorum();
    var l' := Local(Some(0), 2, 1, 0, None, [Genesis, BlockOf(DOUBLE)], ALWAYS);
    run := HonestActs(run, 0, Commit(BlockOf(DOUBLE), 1), l', w);
    assert TxAt(l'.chain, 1, 0, 7) && TxAt(l'.chain, 1, 1, 7);
  }

  // ---- An invalid transaction while a block is incomplete

  const AUDITOR: Config := Config(1, None, (b: Block, t: Tx) => t != 2)

  const WAITED := Propose(0, 1, 1, Genesis, [1], false)

  /** An auditor that got the block of the only validator in a response, but not yet its transaction. */
  function AuditorState(): State {
    State(
      true, 1, 1, 0, None, [Genesis], map[], {}, map[], map[], map[], map[], [], map[], map[],
      Some(IncompleteBlock(BlockOf(WAITED), [1], {1})), {}, {}, {}, {}, SoloWire(WAITED))
  }

  /**
   A node that waits for the transaction 1 of a block panics on the invalid transaction 2, which is not in the block;
   the documentation has it panic only on transactions of the block.
   */
  lemma UnrelatedTxPanics() returns (run: seq<Net>)
    ensures Run(run) && run[|run| - 1].faulty == {} && TakesPart(AUDITOR, AuditorState(), run[|run| - 1], 1)
    ensures var s := AuditorState();
      && Ok(AUDITOR, s) && Settled(AUDITOR, s)
      && s.incomplete.Some? && 2 !in s.incomplete.value.txs && 2 !in s.Known() && !AUDITOR.check(Last(s.chain), 2)
      && BlockTxPanics(s, 2, false)
  {
    hide Run, PrecommitQuorum;
    run := SoloRun(AUDITOR.check, WAITED);
    var s := AuditorState();
    assert s.wire[2] == PrecommitBy(WAITED, 0);
    SoloBacked(s.wire, WAITED);
    assert BlockAccepted(1, 1, [Genesis], BlockOf(WAITED), [1], s.wire);
  }

  // ---- A check that changes its mind

  /** Transactions are valid on top of the genesis block only. */
  const EARLY: Config := Config(1, None, (b: Block, t: Tx) => b == Genesis)

  const FIRST := Propose(0, 1, 1, Genesis, [], false)
  const LATE := Propose(0, 2, 1, BlockOf(FIRST), [7], false)

  function LateWire(): Wire { SoloWire(FIRST) + [ProposeMsg(LATE), PrevoteBy(LATE, 0)] }

  /** An auditor that received the transaction after the first block, and the propose that has it. */
  function LateState(): State {
    State(
      true, 2, 1, 0, None, [Genesis, BlockOf(FIRST)], map[LATE := ProposeState({}, false, None)], {}, map[], map[],
      map[], map[], [], map[], map[], None, {}, {}, {}, {7}, LateWire())
  }

  lemma LatePassed()
    ensures Passed(EARLY.check, [Genesis, BlockOf(FIRST)], 7) && !EARLY.check(BlockOf(FIRST), 7)
    ensures ChainTxs([Genesis, BlockOf(FIRST)]) == {}
  {
    var chain := [Genesis, BlockOf(FIRST)];
    assert chain[0] == Genesis && EARLY.check(Genesis, 7);
    assert chain[..1] == [Genesis] && [Genesis][..0] == [];
    assert ChainTxs([Genesis]) == ChainTxs([]);
  }

  lemma LateRun() returns (run: seq<Net>)
    ensures Run(run)
    ensures run[|run| - 1] == Solo(Next(Some(0), FIRST, EARLY.check), Next(None, FIRST, EARLY.check), LateWire())
  {
    hide Run;
    var v, a := Next(Some(0), FIRST, EARLY.check), Next(None, FIRST, EARLY.check);
    assert map[0 := v, 1 := a][0 := v] == map[0 := v, 1 := a];
    var w := SoloWire(FIRST);
    run := SoloCommit(EARLY.check, FIRST);
    run := HonestActs(run, 0, SendPropose(LATE), v, w + [ProposeMsg(LATE)]);
    LatePassed();
    run := HonestActs(run, 0, SendPrevote(1, LATE), v, w + [ProposeMsg(LATE)] + [PrevoteBy(LATE, 0)]);
    assert w + [ProposeMsg(LATE)] + [PrevoteBy(LATE, 0)] == LateWire();
  }

  lemma LateOk()
    ensures Ok(EARLY, LateState())
  {
    LatePassed();
    assert LATE.txs[0] == 7;
  }

  lemma LateSettled()
    ensures Settled(EARLY, LateState())
  {
  }

  /**
   If the check of a transaction depends on the block, honest validators alone make a node panic: a transaction from the
   pool of a validator has become invalid, which only a node that receives it later notices. Without such a change no
   propose with an invalid transaction gathers +2/3 prevotes: see `NodeSafety.InvalidPrevotedChanged`.
   */
  lemma LateTxPanics() returns (run: seq<Net>)
    ensures Run(run) && run[|run| - 1].faulty == {} && TakesPart(EARLY, LateState(), run[|run| - 1], 1)
    ensures Ok(EARLY, LateState()) && Settled(EARLY, LateState())
    ensures PrevoteBy(LATE, 0) in LateState().wire && MessagePanics(EARLY, LateState(), PrevoteBy(LATE, 0))
    ensures CheckChanged(EARLY, LateState(), 7)
  {
    hide Run, Ok, Settled, Passed;
    run := LateRun();
    LateOk();
    LateSettled();
    LatePassed();
    assert LateWire()[4] == PrevoteBy(LATE, 0);
  }
}
