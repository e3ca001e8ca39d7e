/** Answering a request for transactions within the limit on the size of a message. */
module Responses {
  import opened ByteStrings

  const PUBLIC_KEY_LENGTH := 32
  const SIGNATURE_LENGTH := 64
  const SIGNED_MESSAGE_MIN_SIZE := PUBLIC_KEY_LENGTH + SIGNATURE_LENGTH + 8
  const TX_RES_EMPTY_SIZE := SIGNED_MESSAGE_MIN_SIZE + PUBLIC_KEY_LENGTH + 8
  const TX_RES_PB_OVERHEAD_PAYLOAD := 8

  function TxSize(tx: Bytes): nat { |tx| + TX_RES_PB_OVERHEAD_PAYLOAD }

  function Size(txs: seq<Bytes>): nat {
    if txs == [] then 0 else Size(txs[..|txs| - 1]) + TxSize(txs[|txs| - 1])
  }

  /** The requested transactions that are known, in the order of the request. */
  function Requested(hashes: seq<nat>, known: map<nat, Bytes>): seq<Bytes> {
    if hashes == [] then [] else
      var last := hashes[|hashes| - 1];
      Requested(hashes[..|hashes| - 1], known) + if last in known then [known[last]] else []
  }

  /** A list is answered one hash after the other, each with its transaction or with nothing. */
  lemma {:induction false} RequestedConcat(a: seq<nat>, b: seq<nat>, known: map<nat, Bytes>)
    ensures Requested(a + b, known) == Requested(a, known) + Requested(b, known)
    decreases |b|
  {
    if b == [] {
      assert a + b == a;
    } else {
      var init := b[..|b| - 1];
      assert (a + b)[..|a + b| - 1] == a + init;
      RequestedConcat(a, init, known);
    }
  }

  lemma RequestedOne(hash: nat, known: map<nat, Bytes>)
    ensures Requested([hash], known) == if hash in known then [known[hash]] else []
  {
    assert [hash][..0] == [];
  }

  /** The sizes of a response without transactions and of a transaction in it. */
  lemma Sizes(tx: Bytes)
    ensures TX_RES_EMPTY_SIZE == 144 && Size([tx]) == TxSize(tx) == |tx| + 8
  {
    assert [tx][..0] == [];
  }

  function Flatten(responses: seq<seq<Bytes>>): seq<Bytes> {
    if responses == [] then [] else Flatten(responses[..|responses| - 1]) + responses[|responses| - 1]
  }

  /**
   Every response is within the limit, or holds a single transaction and is not the first; and none could have taken the
   first transaction of the next one.
   */
  ghost predicate Packed(responses: seq<seq<Bytes>>, limit: nat) {
    && (forall i :: 0 <= i < |responses| ==> Size(responses[i]) <= limit || (|responses[i]| == 1 && i > 0))
    && (forall i :: 0 < i < |responses| ==>
          responses[i] != [] && Size(responses[i - 1]) + TxSize(responses[i][0]) > limit)
  }

  /** Sends the known ones of the requested transactions in as many responses as needed. */
  method SendTransactionsByHash(hashes: seq<nat>, known: map<nat, Bytes>, maxMessageLen: nat)
    returns (sent: seq<seq<Bytes>>)
    requires maxMessageLen >= TX_RES_EMPTY_SIZE
    ensures Flatten(sent) == Requested(hashes, known)
    ensures Packed(sent, maxMessageLen - TX_RES_EMPTY_SIZE)
    ensures sent == [] <==> Requested(hashes, known) == []
  {
    hide Packed, Flatten, Size;
    sent := [];
    var txs := [];
    var txsSize := 0;
    var unoccupied := maxMessageLen - TX_RES_EMPTY_SIZE;
    NothingSent(unoccupied);
    assert sent + [txs] == [[]];
    var i := 0;
    while i < |hashes|
      invariant 0 <= i <= |hashes|
      invariant txsSize == Size(txs)
      invariant Flatten(sent) + txs == Requested(hashes[..i], known)
      invariant Packed(sent + [txs], unoccupied) && (sent != [] ==> txs != [])
    {
      assert hashes[..i + 1][..i] == hashes[..i];
      var hash := hashes[i];
      if hash in known {
        sent, txs, txsSize := AddTx(sent, txs, txsSize, known[hash], unoccupied);
      }
      i := i + 1;
    }
    assert hashes[..i] == hashes;
    if txs != [] {
      FlattenOneMore(sent, txs);
      sent := sent + [txs];
    } else {
      AllSent(sent, unoccupied);
    }
  }

  /** Adds a transaction to the response being filled, or sends that one and starts the next. */
  method AddTx(sent: seq<seq<Bytes>>, txs: seq<Bytes>, txsSize: nat, raw: Bytes, unoccupied: nat)
    returns (sent': seq<seq<Bytes>>, txs': seq<Bytes>, txsSize': nat)
    requires txsSize == Size(txs) && Packed(sent + [txs], unoccupied)
    ensures Flatten(sent') + txs' == Flatten(sent) + txs + [raw]
    ensures txsSize' == Size(txs') && Packed(sent' + [txs'], unoccupied) && txs' != []
  {
    hide Packed, Flatten;
    sent', txs', txsSize' := sent, txs, txsSize;
    if txsSize' + |raw| + TX_RES_PB_OVERHEAD_PAYLOAD > unoccupied {
      NextResponse(sent, txs, raw, unoccupied);
      FlattenOneMore(sent, txs);
      sent' := sent' + [txs'];
      txs' := [];
      txsSize' := 0;
    } else {
      OneMoreTx(sent, txs, raw, unoccupied);
    }
    assert (txs' + [raw])[..|txs'|] == txs';
    txsSize' := txsSize' + |raw| + TX_RES_PB_OVERHEAD_PAYLOAD;
    txs' := txs' + [raw];
  }

  lemma FlattenOneMore(sent: seq<seq<Bytes>>, txs: seq<Bytes>)
    ensures Flatten(sent + [txs]) == Flatten(sent) + txs
  {
    assert (sent + [txs])[..|sent|] == sent;
  }

  lemma NothingSent(limit: nat)
    ensures Packed([[]], limit) && Flatten([]) == [] && Size([]) == 0
  {
  }

  lemma AllSent(sent: seq<seq<Bytes>>, limit: nat)
    requires Packed(sent + [[]], limit)
    ensures sent == [] && Packed(sent, limit) && Flatten(sent) == []
  {
    var all := sent + [[]];
    assert all[|sent|] == [];
  }

  lemma NextResponse(sent: seq<seq<Bytes>>, txs: seq<Bytes>, raw: Bytes, limit: nat)
    requires Packed(sent + [txs], limit) && Size(txs) + TxSize(raw) > limit
    ensures Packed(sent + [txs] + [[raw]], limit)
  {
    hide Size;
    var all := sent + [txs];
    var all' := all + [[raw]];
    assert all'[|all|] == [raw] && all'[|all| - 1] == txs;
    forall i | 0 <= i < |all'|
      ensures Size(all'[i]) <= limit || (|all'[i]| == 1 && i > 0)
      ensures i > 0 ==> all'[i] != [] && Size(all'[i - 1]) + TxSize(all'[i][0]) > limit
    {
      if i < |all| {
        assert all'[i] == all[i] && (i > 0 ==> all'[i - 1] == all[i - 1]);
      }
    }
  }

  lemma OneMoreTx(sent: seq<seq<Bytes>>, txs: seq<Bytes>, raw: Bytes, limit: nat)
    requires Packed(sent + [txs], limit) && Size(txs) + TxSize(raw) <= limit
    ensures Packed(sent + [txs + [raw]], limit)
  {
    var all, all' := sent + [txs], sent + [txs + [raw]];
    assert forall i :: 0 <= i < |sent| ==> all'[i] == all[i];
    assert (txs + [raw])[..|txs|] == txs;
    assert |sent| > 0 ==> all[|sent|] == txs;
  }

  lemma {:induction false} FlattenFirst(sent: seq<seq<Bytes>>)
    requires sent != []
    ensures Flatten(sent) == sent[0] + Flatten(sent[1..])
    decreases |sent|
  {
    var init, last, rest := sent[..|sent| - 1], sent[|sent| - 1], sent[1..];
    if |sent| == 1 {
      assert init == [] && rest == [];
      assert Flatten(sent) == [] + last;
    } else {
      FlattenFirst(init);
      assert init[0] == sent[0];
      assert rest[|rest| - 1] == last && rest[..|rest| - 1] == init[1..];
      assert Flatten(sent) == (sent[0] + Flatten(init[1..])) + last;
      assert (sent[0] + Flatten(init[1..])) + last == sent[0] + (Flatten(init[1..]) + last);
    }
  }

  lemma {:induction false} SizeOfFirst(txs: seq<Bytes>)
    requires txs != []
    ensures Size(txs) >= TxSize(txs[0])
    decreases |txs|
  {
    if |txs| > 1 {
      SizeOfFirst(txs[..|txs| - 1]);
    }
  }

  /** An empty response is sent exactly if the first transaction does not fit into one, and it is the first response. */
  lemma EmptyResponse(sent: seq<seq<Bytes>>, limit: nat)
    requires Packed(sent, limit) && Flatten(sent) != []
    ensures forall i :: 0 < i < |sent| ==> sent[i] != []
    ensures sent != [] && (sent[0] == [] <==> TxSize(Flatten(sent)[0]) > limit)
  {
    FlattenFirst(sent);
    if sent[0] == [] {
      assert sent[1..] != [];
      FlattenFirst(sent[1..]);
      assert Flatten(sent)[0] == sent[1][0];
    } else {
      SizeOfFirst(sent[0]);
    }
  }
}
