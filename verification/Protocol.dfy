/**
 What one node may do, as atomic actions over the messages put on the wire so far.

 The wire is the sequence of all consensus messages ever sent, in sending order. A node that counts
 votes counts messages of this sequence, so "has +2/3 votes" implies "+2/3 votes are on the wire".
 The imperative handlers in `NodeHandler` are proved to perform sequences of these actions.
 */
module Protocol {
  import opened Messages
  import opened Options
  import opened Quorums
  import opened Division

  type Wire = seq<Message>

  /** The part of a node's state the safety of consensus depends on; `id` is `None` for an auditor. */
  datatype Local = Local(
    id: Option<nat>,
    epoch: nat,
    round: nat,
    lockedRound: nat,
    lockedPropose: Option<Propose>,
    chain: seq<Block>,
    check: Check)

  predicate IsPrevote(m: Message, v: nat, e: nat) {
    m.PrevoteMsg? && m.prevote.validator == v && m.prevote.epoch == e
  }

  predicate IsPrecommit(m: Message, v: nat, e: nat) {
    m.PrecommitMsg? && m.precommit.validator == v && m.precommit.epoch == e
  }

  ghost predicate PrevoteOnWire(w: Wire, v: nat, e: nat, r: nat, p: Propose) {
    exists m :: m in w && IsPrevote(m, v, e) && m.prevote.round == r && m.prevote.propose == p
  }

  ghost predicate PrecommitOnWire(w: Wire, v: nat, e: nat, r: nat, b: Block) {
    exists m :: m in w && IsPrecommit(m, v, e) && m.precommit.round == r && m.precommit.block == b
  }

  ghost function Prevoters(n: nat, w: Wire, e: nat, r: nat, p: Propose): set<nat> {
    set v | v in Ids(n) && PrevoteOnWire(w, v, e, r, p)
  }

  ghost function Precommitters(n: nat, w: Wire, e: nat, r: nat, b: Block): set<nat> {
    set v | v in Ids(n) && PrecommitOnWire(w, v, e, r, b)
  }

  ghost predicate PrevoteQuorum(n: nat, w: Wire, e: nat, r: nat, p: Propose) {
    |Prevoters(n, w, e, r, p)| >= ByzantineQuorum(n)
  }

  ghost predicate PrecommitQuorum(n: nat, w: Wire, e: nat, r: nat, b: Block) {
    |Precommitters(n, w, e, r, b)| >= ByzantineQuorum(n)
  }

  // ---- Leaders

  /** The validator that proposes in a round. */
  function LeaderOf(n: nat, e: nat, r: nat): nat
    requires n > 0
  {
    (e + r) % n
  }

  /** The validators take turns, in the order of their ids, from round to round and from epoch to epoch. */
  lemma LeadersTakeTurns(n: nat, e: nat, r: nat)
    requires n > 0
    ensures LeaderOf(n, 0, 0) == 0 && LeaderOf(n, e, r) < n
    ensures LeaderOf(n, e, r + 1) == if LeaderOf(n, e, r) + 1 < n then LeaderOf(n, e, r) + 1 else 0
    ensures LeaderOf(n, e + 1, r) == LeaderOf(n, e, r + 1)
  {
    Successor(e + r, n);
  }

  lemma Successor(x: nat, n: nat)
    requires n > 0
    ensures (x + 1) % n == if x % n + 1 < n then x % n + 1 else 0
  {
    var q, m := x / n, x % n;
    assert x == q * n + m;
    if m + 1 < n {
      RemainderIs(x + 1, q, n, m + 1);
    } else {
      assert (q + 1) * n == q * n + n;
      RemainderIs(x + 1, q + 1, n, 0);
    }
  }

  /** Among `n` rounds in a row every validator leads exactly one. */
  lemma EveryoneLeadsOnce(n: nat, e: nat, r: nat, v: nat) returns (q: nat)
    requires v < n
    ensures r <= q < r + n && LeaderOf(n, e, q) == v
    ensures forall q' :: r <= q' < r + n && LeaderOf(n, e, q') == v ==> q' == q
  {
    hide LeaderOf;
    LeadersTakeTurns(n, e, r);
    var first := LeaderOf(n, e, r);
    forall x | r <= x < r + n
      ensures LeaderOf(n, e, x) == if first + (x - r) < n then first + (x - r) else first + (x - r) - n
    {
      LeaderAfter(n, e, r, x - r);
    }
    q := r + if v >= first then v - first else v + n - first;
  }

  lemma {:induction false} LeaderAfter(n: nat, e: nat, r: nat, d: nat)
    requires d < n
    ensures var first := LeaderOf(n, e, r); LeaderOf(n, e, r + d) == if first + d < n then first + d else first + d - n
  {
    if d > 0 {
      LeaderAfter(n, e, r, d - 1);
      LeadersTakeTurns(n, e, r + d - 1);
    }
  }

  datatype Action =
    | SendPropose(propose: Propose)
    | SendPrevote(round: nat, propose: Propose)
    | Lock(round: nat, propose: Propose)
    | SendPrecommit(time: int)
    | AdvanceRound(round: nat)
    | Commit(block: Block, round: nat)

  function Last(chain: seq<Block>): Block
    requires |chain| > 0
  {
    chain[|chain| - 1]
  }

  /** The transaction passed the check on top of some block of the chain. */
  ghost predicate Passed(check: Check, chain: seq<Block>, t: Tx) { exists b :: b in chain && check(b, t) }

  /** The propose is of the epoch, and by the leader of its round or by the validator itself. */
  ghost predicate InTurn(n: nat, e: nat, i: nat, p: Propose) {
    p.epoch == e && (p.validator == i || (n > 0 && p.validator == LeaderOf(n, e, p.round)))
  }

  /**
   A validator prevotes at most once per round, for a propose on its last block whose transactions have passed its
   check, and never against its lock without a newer quorum.
   */
  ghost predicate MayPrevote(n: nat, l: Local, w: Wire, r: nat, p: Propose) {
    && l.id.Some?
    && r <= l.round
    && InTurn(n, l.epoch, l.id.value, p)
    && |l.chain| > 0
    && p.prev == Last(l.chain)
    && (forall t :: t in p.txs ==> Passed(l.check, l.chain, t))
    && (forall m :: m in w && IsPrevote(m, l.id.value, l.epoch) ==> m.prevote.round != r)
    && (|| l.lockedRound == 0
        || (l.lockedRound < r && l.lockedPropose == Some(p))
        || (l.lockedRound < r && PrevoteQuorum(n, w, l.epoch, r, p)))
  }

  /** A validator precommits its lock if it has no later prevote for something else. */
  ghost predicate MayPrecommit(l: Local, w: Wire) {
    && l.id.Some?
    && l.lockedRound > 0
    && l.lockedPropose.Some?
    && |l.chain| > 0
    && l.lockedPropose.value.epoch == l.epoch
    && l.lockedPropose.value.prev == Last(l.chain)
    && (forall t :: t in l.lockedPropose.value.txs ==> t !in ChainTxs(l.chain))
    && (forall m :: m in w && IsPrecommit(m, l.id.value, l.epoch) ==> m.precommit.round != l.lockedRound)
    && (forall m :: m in w && IsPrevote(m, l.id.value, l.epoch) && m.prevote.round > l.lockedRound
          ==> m.prevote.propose == l.lockedPropose.value)
  }

  /**
   A block is committed on +2/3 precommits. Either it is of the node's epoch, or it came in a
   `BlockResponse`, for which only the height and, for a pseudo-block, the epoch are compared.
   */
  ghost predicate MayCommit(n: nat, l: Local, w: Wire, b: Block, r: nat) {
    && |l.chain| > 0
    && b.Block?
    && b.epoch.Some?
    && b.prev == Last(l.chain)
    && b.height == (if b.skip then Height(b.prev) else Height(b.prev) + 1)
    && PrecommitQuorum(n, w, b.epoch.value, r, b)
    && (|| b.epoch.value == l.epoch
        || b.height == |l.chain|
        || (b.height + 1 == |l.chain| && l.epoch <= b.epoch.value))
  }

  ghost predicate Enabled(n: nat, l: Local, w: Wire, a: Action) {
    && |l.chain| > 0
    && match a
       case SendPropose(p) => l.id == Some(p.validator)
       case SendPrevote(r, p) => MayPrevote(n, l, w, r, p)
       case Lock(r, p) => l.lockedRound < r <= l.round && PrevoteQuorum(n, w, l.epoch, r, p)
       case SendPrecommit(_) => MayPrecommit(l, w)
       case AdvanceRound(r) => l.round < r
       case Commit(b, r) => MayCommit(n, l, w, b, r)
  }

  ghost function Apply(n: nat, l: Local, w: Wire, a: Action): (l': Local)
    requires Enabled(n, l, w, a)
  {
    match a
    case SendPropose(_) => l
    case SendPrevote(_, _) => l
    case Lock(r, p) => l.(lockedRound := r, lockedPropose := Some(p))
    case SendPrecommit(_) => l
    case AdvanceRound(r) => l.(round := r)
    case Commit(b, _) =>
      Local(l.id, b.epoch.value + 1, 1, 0, None, if b.skip then l.chain else l.chain + [b], l.check)
  }

  ghost function Emit(n: nat, l: Local, w: Wire, a: Action): (w': Wire)
    requires Enabled(n, l, w, a)
    ensures w <= w'
  {
    match a
    case SendPropose(p) => w + [ProposeMsg(p)]
    case SendPrevote(r, p) => w + [PrevoteMsg(Prevote(l.id.value, l.epoch, r, p, l.lockedRound))]
    case SendPrecommit(t) =>
      var p := l.lockedPropose.value;
      w + [PrecommitMsg(Precommit(l.id.value, l.epoch, l.lockedRound, p, BlockOf(p), t))]
    case Lock(_, _) => w
    case AdvanceRound(_) => w
    case Commit(_, _) => w
  }

  /** The actions `acts`, taken one after the other, lead from `(l, w)` to `(l', w')`. */
  ghost predicate Performs(n: nat, l: Local, w: Wire, acts: seq<Action>, l': Local, w': Wire)
    decreases |acts|
  {
    if acts == [] then l' == l && w' == w
    else
      && Enabled(n, l, w, acts[0])
      && Performs(n, Apply(n, l, w, acts[0]), Emit(n, l, w, acts[0]), acts[1..], l', w')
  }

  ghost predicate Reaches(n: nat, l: Local, w: Wire, l': Local, w': Wire) {
    exists acts :: Performs(n, l, w, acts, l', w')
  }

  lemma ReachesSelf(n: nat, l: Local, w: Wire)
    ensures Reaches(n, l, w, l, w)
  {
    assert Performs(n, l, w, [], l, w);
  }

  lemma ReachesOne(n: nat, l: Local, w: Wire, a: Action)
    requires Enabled(n, l, w, a)
    ensures Reaches(n, l, w, Apply(n, l, w, a), Emit(n, l, w, a))
  {
    assert [a][1..] == [];
    assert Performs(n, l, w, [a], Apply(n, l, w, a), Emit(n, l, w, a));
  }

  lemma {:induction false} PerformsConcat(
    n: nat, l: Local, w: Wire, acts: seq<Action>, l1: Local, w1: Wire, more: seq<Action>, l2: Local, w2: Wire)
    requires Performs(n, l, w, acts, l1, w1) && Performs(n, l1, w1, more, l2, w2)
    ensures Performs(n, l, w, acts + more, l2, w2)
    decreases |acts|
  {
    hide Enabled, Apply, Emit;
    if acts == [] {
      assert acts + more == more;
    } else {
      PerformsConcat(n, Apply(n, l, w, acts[0]), Emit(n, l, w, acts[0]), acts[1..], l1, w1, more, l2, w2);
      assert (acts + more)[1..] == acts[1..] + more;
    }
  }

  lemma ReachesThen(n: nat, l: Local, w: Wire, l1: Local, w1: Wire, l2: Local, w2: Wire)
    requires Reaches(n, l, w, l1, w1) && Reaches(n, l1, w1, l2, w2)
    ensures Reaches(n, l, w, l2, w2)
  {
    var acts :| Performs(n, l, w, acts, l1, w1);
    var more :| Performs(n, l1, w1, more, l2, w2);
    PerformsConcat(n, l, w, acts, l1, w1, more, l2, w2);
  }

  lemma {:induction false} PerformsGrows(n: nat, l: Local, w: Wire, acts: seq<Action>, l': Local, w': Wire)
    requires Performs(n, l, w, acts, l', w')
    ensures w <= w'
    decreases |acts|
  {
    if acts != [] {
      PerformsGrows(n, Apply(n, l, w, acts[0]), Emit(n, l, w, acts[0]), acts[1..], l', w');
    }
  }
}
