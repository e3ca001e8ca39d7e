/** Consensus messages and blocks. A hash is represented by the value it is the hash of. */
module Messages {

  import opened Options

  type Tx = nat

  /** The check of a transaction on top of a block. */
  type Check = (Block, Tx) -> bool

  /** A block header; `prev` is the hash of the previous block. A skip pseudo-block keeps the height of `prev`. */
  datatype Block =
    | Genesis
    | Block(height: nat, prev: Block, txs: seq<Tx>, skip: bool, epoch: Option<nat>, proposer: Option<nat>)

  function Height(b: Block): nat { if b.Genesis? then 0 else b.height }

  datatype Propose = Propose(validator: nat, epoch: nat, round: nat, prev: Block, txs: seq<Tx>, skip: bool)

  datatype Prevote = Prevote(validator: nat, epoch: nat, round: nat, propose: Propose, lockedRound: nat)

  datatype Precommit =
    Precommit(validator: nat, epoch: nat, round: nat, propose: Propose, block: Block, time: int)

  datatype Message =
    | ProposeMsg(propose: Propose)
    | PrevoteMsg(prevote: Prevote)
    | PrecommitMsg(precommit: Precommit)
  {
    function Validator(): nat {
      match this
      case ProposeMsg(p) => p.validator
      case PrevoteMsg(v) => v.validator
      case PrecommitMsg(c) => c.validator
    }

    function Epoch(): nat {
      match this
      case ProposeMsg(p) => p.epoch
      case PrevoteMsg(v) => v.epoch
      case PrecommitMsg(c) => c.epoch
    }

    function Round(): nat {
      match this
      case ProposeMsg(p) => p.round
      case PrevoteMsg(v) => v.round
      case PrecommitMsg(c) => c.round
    }
  }

  function TxSet(txs: seq<Tx>): set<Tx> { set t | t in txs }

  /** Execution of a block on top of `prev`: an ordinary block is one higher, a skip is not. */
  function CreateBlock(prev: Block, proposer: nat, epoch: nat, txs: seq<Tx>, skip: bool): Block {
    Block(if skip then Height(prev) else Height(prev) + 1, prev, txs, skip, Some(epoch), Some(proposer))
  }

  function BlockOf(p: Propose): Block { CreateBlock(p.prev, p.validator, p.epoch, p.txs, p.skip) }

  /** What a block records of its propose. Its height is that of the previous ordinary block, or one more. */
  lemma BlockRecords(p: Propose)
    ensures var b := BlockOf(p);
      && b.prev == p.prev && b.txs == p.txs && b.skip == p.skip
      && b.epoch == Some(p.epoch) && b.proposer == Some(p.validator)
      && b.height - Height(p.prev) == (if p.skip then 0 else 1)
  {
  }

  /** The last ordinary block once `b` is committed. */
  function TipAfter(b: Block): Block
    requires b.Block?
  {
    if b.skip then b.prev else b
  }

  /** All ancestors of a block, oldest first. */
  function Path(b: Block): seq<Block> {
    if b.Genesis? then [Genesis] else Path(b.prev) + [b]
  }

  function TxList(b: Block): seq<Tx> { if b.Genesis? then [] else b.txs }

  function TxsOf(b: Block): set<Tx> { if b.Genesis? then {} else TxSet(b.txs) }

  /** All transactions of a chain. */
  function ChainTxs(chain: seq<Block>): set<Tx> {
    if chain == [] then {} else ChainTxs(chain[..|chain| - 1]) + TxsOf(chain[|chain| - 1])
  }

  /** None of the transactions is in `prev` or a block before it. */
  ghost predicate Fresh(prev: Block, txs: seq<Tx>) { forall t :: t in txs ==> t !in ChainTxs(Path(prev)) }
}
