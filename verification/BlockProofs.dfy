/** The precommits that authenticate a block received from another node. */
module BlockProofs {
  import opened Messages
  import opened Quorums
  import opened Protocol
  import opened VoteCounting

  /** A signed precommit; the public keys of the validators are their ids. */
  datatype SignedPrecommit = SignedPrecommit(author: nat, payload: Precommit)

  datatype BlockResponse =
    BlockResponse(to: nat, author: nat, block: Block, precommits: seq<SignedPrecommit>, txs: seq<Tx>)

  /** Signed by the validator it names, for the given block, epoch and round. */
  predicate ValidPrecommit(n: nat, block: Block, epoch: nat, round: nat, p: SignedPrecommit) {
    && p.payload.validator < n
    && p.author == p.payload.validator
    && p.payload.block == block
    && p.payload.epoch == epoch
    && p.payload.round == round
  }

  /** +2/3 valid precommits of one round by different validators. */
  ghost predicate ValidPrecommits(n: nat, precommits: seq<SignedPrecommit>, epoch: nat, block: Block) {
    && ByzantineQuorum(n) <= |precommits| <= n
    && (forall i, j :: 0 <= i < j < |precommits| ==> precommits[i].payload.validator != precommits[j].payload.validator)
    && (forall i :: 0 <= i < |precommits| ==>
          ValidPrecommit(n, block, epoch, precommits[0].payload.round, precommits[i]))
  }

  method ValidatePrecommits(n: nat, precommits: seq<SignedPrecommit>, epoch: nat, block: Block) returns (ok: bool)
    ensures ok <==> ValidPrecommits(n, precommits, epoch, block)
  {
    if |precommits| < ByzantineQuorum(n) || |precommits| > n {
      return false;
    }
    var validators := {};
    var round := precommits[0].payload.round;
    var i := 0;
    while i < |precommits|
      invariant 0 <= i <= |precommits|
      invariant forall v :: v in validators <==> exists j :: 0 <= j < i && precommits[j].payload.validator == v
      invariant forall j, k :: 0 <= j < k < i ==> precommits[j].payload.validator != precommits[k].payload.validator
      invariant forall j :: 0 <= j < i ==> ValidPrecommit(n, block, epoch, round, precommits[j])
    {
      var p := precommits[i];
      if p.payload.validator in validators {
        return false;
      }
      validators := validators + {p.payload.validator};
      if !ValidPrecommit(n, block, epoch, round, p) {
        return false;
      }
      i := i + 1;
    }
    return true;
  }

  /** A signature of a validator proves that it sent the message. */
  ghost predicate Authentic(n: nat, precommits: seq<SignedPrecommit>, w: Wire) {
    forall p :: p in precommits && p.author < n && p.author == p.payload.validator ==> PrecommitMsg(p.payload) in w
  }

  /** Whoever has the messages of a precommit quorum can build a list of precommits that is accepted. */
  lemma QuorumIsAccepted(n: nat, w: Wire, epoch: nat, round: nat, block: Block)
    returns (precommits: seq<SignedPrecommit>)
    requires PrecommitQuorum(n, w, epoch, round, block)
    ensures ValidPrecommits(n, precommits, epoch, block) && Authentic(n, precommits, w)
    ensures |precommits| == |Precommitters(n, w, epoch, round, block)|
  {
    var voters := Precommitters(n, w, epoch, round, block);
    SubsetCardinality(voters, Ids(n));
    precommits := Collected(n, w, epoch, round, block, voters);
  }

  /** One precommit of each of the validators. */
  lemma {:induction false} Collected(n: nat, w: Wire, epoch: nat, round: nat, block: Block, voters: set<nat>)
    returns (precommits: seq<SignedPrecommit>)
    requires voters <= Precommitters(n, w, epoch, round, block)
    ensures |precommits| == |voters|
    ensures forall i :: 0 <= i < |precommits| ==>
      && precommits[i].payload.validator in voters && PrecommitMsg(precommits[i].payload) in w
      && ValidPrecommit(n, block, epoch, round, precommits[i])
    ensures forall i, j :: 0 <= i < j < |precommits| ==>
      precommits[i].payload.validator != precommits[j].payload.validator
    decreases |voters|
  {
    if voters == {} {
      precommits := [];
    } else {
      var v :| v in voters;
      var rest := Collected(n, w, epoch, round, block, voters - {v});
      var m :| m in w && IsPrecommit(m, v, epoch) && m.precommit.round == round && m.precommit.block == block;
      precommits := rest + [SignedPrecommit(v, m.precommit)];
    }
  }

  lemma ValidPrecommitsAreQuorum(n: nat, precommits: seq<SignedPrecommit>, epoch: nat, block: Block, w: Wire)
    requires ValidPrecommits(n, precommits, epoch, block) && Authentic(n, precommits, w)
    ensures PrecommitQuorum(n, w, epoch, precommits[0].payload.round, block)
  {
    var round := precommits[0].payload.round;
    var messages := seq(|precommits|, i requires 0 <= i < |precommits| => PrecommitMsg(precommits[i].payload));
    forall m | m in messages ensures m in w && PrecommitFor(m, epoch, round, block) && m.Validator() < n {
      var i :| 0 <= i < |messages| && messages[i] == m;
      assert ValidPrecommit(n, block, epoch, round, precommits[i]);
      assert precommits[i] in precommits;
    }
    PrecommitsAreQuorum(n, messages, w, epoch, round, block);
  }
}
