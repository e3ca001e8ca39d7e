/** Runs of small networks, step by step: the inputs of `Findings`. */
module WitnessRuns {
  import opened Messages
  import opened Options
  import opened Quorums
  import opened Protocol
  import opened Network
  import opened Safety

  predicate Opening(p: Propose, leader: nat) {
    p.validator == leader && p.epoch == 1 && p.round == 1 && p.prev == Genesis
  }

  function PrevoteBy(p: Propose, i: nat): Message { PrevoteMsg(Prevote(i, p.epoch, 1, p, 0)) }

  function PrecommitBy(p: Propose, i: nat): Message { PrecommitMsg(Precommit(i, p.epoch, 1, p, BlockOf(p), 0)) }

  function Unlocked(id: Option<nat>, check: Check): Local { Local(id, 1, 1, 0, None, [Genesis], check) }

  function Locked(id: Option<nat>, p: Propose, check: Check): Local { Local(id, 1, 1, 1, Some(p), [Genesis], check) }

  lemma ByzantineSends(run: seq<Net>, m: Message) returns (run': seq<Net>)
    requires Run(run) && m.Validator() in run[|run| - 1].faulty
    ensures var net := run[|run| - 1]; Run(run') && run'[|run'| - 1] == net.(wire := net.wire + [m])
  {
    var net := run[|run| - 1];
    run' := run + [net.(wire := net.wire + [m])];
    assert ByzantineStep(net, run'[|run|], m);
    forall t: nat | t + 1 < |run'| ensures StepAt(run', t) {
      assert t + 1 < |run| ==> StepAt(run, t);
    }
  }

  lemma HonestActs(run: seq<Net>, k: nat, a: Action, l': Local, w': Wire) returns (run': seq<Net>)
    requires Run(run) && k in run[|run| - 1].nodes
    requires var net := run[|run| - 1];
      && Enabled(net.n, net.nodes[k], net.wire, a)
      && l' == Apply(net.n, net.nodes[k], net.wire, a)
      && w' == Emit(net.n, net.nodes[k], net.wire, a)
    ensures var net := run[|run| - 1]; Run(run') && run'[|run'| - 1] == net.(nodes := net.nodes[k := l'], wire := w')
  {
    var net := run[|run| - 1];
    var net' := net.(nodes := net.nodes[k := l'], wire := w');
    ExtendRun(run, net', k, a);
    run' := run + [net'];
  }

  /** An unlocked validator may prevote for an opening propose whose transactions pass the check. */
  lemma MayPrevoteOpening(n: nat, i: nat, check: Check, w: Wire, p: Propose)
    requires n > 0 && Opening(p, LeaderOf(n, 1, 1)) && (forall t :: t in p.txs ==> check(Genesis, t))
    requires forall m :: m in w ==> !IsPrevote(m, i, 1)
    ensures MayPrevote(n, Unlocked(Some(i), check), w, 1, p)
  {
    assert Genesis in [Genesis];
  }

  lemma MayPrecommitOpening(i: nat, check: Check, w: Wire, p: Propose)
    requires Opening(p, p.validator)
    requires forall m :: m in w ==> !IsPrecommit(m, i, 1) && (m.PrevoteMsg? ==> m.prevote.round == 1)
    ensures MayPrecommit(Locked(Some(i), p, check), w)
  {
    assert [Genesis][..0] == [];
    assert ChainTxs([Genesis]) == ChainTxs([]);
  }

  // ---- Four validators, of which the one with id 2 is Byzantine and leads the first round

  const ALWAYS: Check := (b: Block, t: Tx) => true

  function Four(l0: Local, l1: Local, w: Wire): Net {
    Net(4, {2}, map[0 := l0, 1 := l1, 3 := Unlocked(Some(3), ALWAYS)], w, ALWAYS)
  }

  /** Two proposes of the leader, the honest votes for the first of them, and a precommit of the leader. */
  function FourWire(p: Propose, q: Propose, last: Precommit): (w: Wire)
    ensures |w| == 8
  {
    [ProposeMsg(p), ProposeMsg(q), PrevoteBy(p, 0), PrevoteBy(p, 1), PrevoteBy(p, 3),
     PrecommitBy(p, 0), PrecommitBy(p, 1), PrecommitMsg(last)]
  }

  function Unlocked4(i: nat): Local { Unlocked(Some(i), ALWAYS) }

  function Locked4(i: nat, p: Propose): Local { Locked(Some(i), p, ALWAYS) }

  lemma FourPropose(p: Propose, q: Propose, last: Precommit) returns (run: seq<Net>)
    requires Opening(p, 2) && Opening(q, 2)
    ensures Run(run) && run[|run| - 1] == Four(Unlocked4(0), Unlocked4(1), FourWire(p, q, last)[..2])
  {
    run := [Four(Unlocked4(0), Unlocked4(1), [])];
    assert Init(run[0]);
    run := ByzantineSends(run, ProposeMsg(p));
    run := ByzantineSends(run, ProposeMsg(q));
    assert FourWire(p, q, last)[..2] == [] + [ProposeMsg(p)] + [ProposeMsg(q)];
  }

  lemma OnePrevote(run: seq<Net>, i: nat, w: Wire, p: Propose) returns (run': seq<Net>)
    requires Run(run) && i in {0, 1, 3} && run[|run| - 1] == Four(Unlocked4(0), Unlocked4(1), w)
    requires Opening(p, 2) && forall m :: m in w ==> !IsPrevote(m, i, 1)
    ensures Run(run') && run'[|run'| - 1] == Four(Unlocked4(0), Unlocked4(1), w + [PrevoteBy(p, i)])
  {
    hide Run, MayPrevote;
    var net := Four(Unlocked4(0), Unlocked4(1), w);
    MayPrevoteOpening(4, i, ALWAYS, w, p);
    run' := HonestActs(run, i, SendPrevote(1, p), net.nodes[i], w + [PrevoteBy(p, i)]);
    assert net.nodes[i := net.nodes[i]] == net.nodes;
  }

  lemma FourPrevote(p: Propose, q: Propose, last: Precommit) returns (run: seq<Net>)
    requires Opening(p, 2) && Opening(q, 2)
    ensures Run(run) && run[|run| - 1] == Four(Unlocked4(0), Unlocked4(1), FourWire(p, q, last)[..5])
  {
    hide Run;
    var w := FourWire(p, q, last);
    run := FourPropose(p, q, last);
    run := OnePrevote(run, 0, w[..2], p);
    assert w[..2] + [PrevoteBy(p, 0)] == w[..3];
    run := OnePrevote(run, 1, w[..3], p);
    assert w[..3] + [PrevoteBy(p, 1)] == w[..4];
    run := OnePrevote(run, 3, w[..4], p);
    assert w[..4] + [PrevoteBy(p, 3)] == w[..5];
  }

  lemma FourQuorum(p: Propose, q: Propose, last: Precommit)
    requires Opening(p, 2)
    ensures PrevoteQuorum(4, FourWire(p, q, last)[..5], 1, 1, p)
  {
    var w := FourWire(p, q, last)[..5];
    var voters := {0, 1, 3};
    assert w[2] == PrevoteBy(p, 0) && w[3] == PrevoteBy(p, 1) && w[4] == PrevoteBy(p, 3);
    forall v | v in voters ensures v in Prevoters(4, w, 1, 1, p) {
      assert PrevoteBy(p, v) in w && IsPrevote(PrevoteBy(p, v), v, 1);
    }
    SubsetCardinality(voters, Prevoters(4, w, 1, 1, p));
  }

  lemma FourLock(p: Propose, q: Propose, last: Precommit) returns (run: seq<Net>)
    requires Opening(p, 2) && Opening(q, 2)
    ensures Run(run) && run[|run| - 1] == Four(Locked4(0, p), Locked4(1, p), FourWire(p, q, last)[..5])
  {
    hide Run, FourWire, PrevoteQuorum;
    var w := FourWire(p, q, last)[..5];
    run := FourPrevote(p, q, last);
    FourQuorum(p, q, last);
    var start := Four(Unlocked4(0), Unlocked4(1), w);
    run := HonestActs(run, 0, Lock(1, p), Locked4(0, p), w);
    assert start.nodes[0 := Locked4(0, p)] == Four(Locked4(0, p), Unlocked4(1), w).nodes;
    run := HonestActs(run, 1, Lock(1, p), Locked4(1, p), w);
    assert start.nodes[0 := Locked4(0, p)][1 := Locked4(1, p)] == Four(Locked4(0, p), Locked4(1, p), w).nodes;
  }

  lemma OnePrecommit(run: seq<Net>, i: nat, w: Wire, p: Propose) returns (run': seq<Net>)
    requires Run(run) && i in {0, 1} && run[|run| - 1] == Four(Locked4(0, p), Locked4(1, p), w) && Opening(p, 2)
    requires forall m :: m in w ==> !IsPrecommit(m, i, 1) && (m.PrevoteMsg? ==> m.prevote.round == 1)
    ensures Run(run') && run'[|run'| - 1] == Four(Locked4(0, p), Locked4(1, p), w + [PrecommitBy(p, i)])
  {
    hide Run, MayPrecommit;
    var net := Four(Locked4(0, p), Locked4(1, p), w);
    MayPrecommitOpening(i, ALWAYS, w, p);
    run' := HonestActs(run, i, SendPrecommit(0), net.nodes[i], w + [PrecommitBy(p, i)]);
    assert net.nodes[i := net.nodes[i]] == net.nodes;
  }

  /** Two honest validators lock on the first propose and precommit it; then the Byzantine one sends its precommit. */
  lemma FourRun(p: Propose, q: Propose, last: Precommit) returns (run: seq<Net>)
    requires Opening(p, 2) && Opening(q, 2) && last.validator == 2
    ensures Run(run) && run[|run| - 1] == Four(Locked4(0, p), Locked4(1, p), FourWire(p, q, last))
  {
    hide Run;
    var w := FourWire(p, q, last);
    run := FourLock(p, q, last);
    run := OnePrecommit(run, 0, w[..5], p);
    assert w[..5] + [PrecommitBy(p, 0)] == w[..6];
    run := OnePrecommit(run, 1, w[..6], p);
    assert w[..6] + [PrecommitBy(p, 1)] == w[..7];
    run := ByzantineSends(run, PrecommitMsg(last));
    assert w[..7] + [PrecommitMsg(last)] == w;
  }

  // ---- One validator and one auditor

  function Solo(l0: Local, l1: Local, w: Wire): Net { Net(1, {}, map[0 := l0, 1 := l1], w, l0.check) }

  function SoloWire(p: Propose): (w: Wire)
    ensures |w| == 3
  {
    [ProposeMsg(p), PrevoteBy(p, 0), PrecommitBy(p, 0)]
  }

  lemma SoloQuorum(w: Wire, p: Propose)
    requires PrevoteBy(p, 0) in w
    ensures PrevoteQuorum(1, w, p.epoch, 1, p)
  {
    assert IsPrevote(PrevoteBy(p, 0), 0, p.epoch);
    assert 0 in Prevoters(1, w, p.epoch, 1, p);
    SubsetCardinality({0}, Prevoters(1, w, p.epoch, 1, p));
  }

  lemma SoloBacked(w: Wire, p: Propose)
    requires PrecommitBy(p, 0) in w
    ensures PrecommitQuorum(1, w, p.epoch, 1, BlockOf(p))
  {
    assert IsPrecommit(PrecommitBy(p, 0), 0, p.epoch);
    assert 0 in Precommitters(1, w, p.epoch, 1, BlockOf(p));
    SubsetCardinality({0}, Precommitters(1, w, p.epoch, 1, BlockOf(p)));
  }

  lemma SoloPropose(check: Check, p: Propose) returns (run: seq<Net>)
    requires Opening(p, 0) && (forall t :: t in p.txs ==> check(Genesis, t))
    ensures Run(run)
    ensures run[|run| - 1] == Solo(Unlocked(Some(0), check), Unlocked(None, check), [ProposeMsg(p), PrevoteBy(p, 0)])
  {
    var v, a := Unlocked(Some(0), check), Unlocked(None, check);
    var nodes := map[0 := v, 1 := a];
    assert nodes[0 := v] == nodes;
    run := [Solo(v, a, [])];
    assert Init(run[0]);
    run := HonestActs(run, 0, SendPropose(p), v, [ProposeMsg(p)]);
    MayPrevoteOpening(1, 0, check, [ProposeMsg(p)], p);
    run := HonestActs(run, 0, SendPrevote(1, p), v, [ProposeMsg(p), PrevoteBy(p, 0)]);
  }

  /** The validator proposes, prevotes, locks and precommits. */
  lemma SoloRun(check: Check, p: Propose) returns (run: seq<Net>)
    requires Opening(p, 0) && (forall t :: t in p.txs ==> check(Genesis, t))
    ensures Run(run) && run[|run| - 1] == Solo(Locked(Some(0), p, check), Unlocked(None, check), SoloWire(p))
  {
    hide Run, PrevoteQuorum, MayPrecommit;
    var v, v', a := Unlocked(Some(0), check), Locked(Some(0), p, check), Unlocked(None, check);
    var w := [ProposeMsg(p), PrevoteBy(p, 0)];
    run := SoloPropose(check, p);
    SoloQuorum(w, p);
    run := HonestActs(run, 0, Lock(1, p), v', w);
    assert map[0 := v, 1 := a][0 := v'] == map[0 := v', 1 := a];
    MayPrecommitOpening(0, check, w, p);
    run := HonestActs(run, 0, SendPrecommit(0), v', w + [PrecommitBy(p, 0)]);
    assert map[0 := v', 1 := a][0 := v'] == map[0 := v', 1 := a];
  }

  function Next(id: Option<nat>, p: Propose, check: Check): Local {
    Local(id, 2, 1, 0, None, [Genesis, BlockOf(p)], check)
  }

  /** Then both commit the block. */
  lemma SoloCommit(check: Check, p: Propose) returns (run: seq<Net>)
    requires Opening(p, 0) && !p.skip && (forall t :: t in p.txs ==> check(Genesis, t))
    ensures Run(run) && run[|run| - 1] == Solo(Next(Some(0), p, check), Next(None, p, check), SoloWire(p))
  {
    hide Run, PrecommitQuorum;
    var v, v', a, a' := Locked(Some(0), p, check), Next(Some(0), p, check), Unlocked(None, check), Next(None, p, check);
    var w := SoloWire(p);
    run := SoloRun(check, p);
    assert w[2] == PrecommitBy(p, 0);
    SoloBacked(w, p);
    run := HonestActs(run, 0, Commit(BlockOf(p), 1), v', w);
    assert map[0 := v, 1 := a][0 := v'] == map[0 := v', 1 := a];
    run := HonestActs(run, 1, Commit(BlockOf(p), 1), a', w);
    assert map[0 := v', 1 := a][1 := a'] == map[0 := v', 1 := a'];
  }
}
