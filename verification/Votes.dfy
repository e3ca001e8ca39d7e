/** Vote counting: a bit per validator and a counter, so that each validator is counted once. */
module VoteCounting {
  import opened Messages
  import opened Quorums
  import opened Protocol

  /** Votes for one subject. `validators` marks who has voted; `count` is their number. */
  datatype Votes = Votes(messages: seq<Message>, validators: seq<bool>, count: nat) {

    ghost predicate Valid(n: nat) {
      && |validators| == n
      && count == |messages|
      && (forall m :: m in messages ==> m.Validator() < n && validators[m.Validator()])
      && (forall v: nat :: v < n && validators[v] ==> exists m :: m in messages && m.Validator() == v)
      && (forall i, j :: 0 <= i < j < |messages| ==> messages[i].Validator() != messages[j].Validator())
    }

    /** A second vote of the same validator is dropped. */
    function Insert(m: Message): (votes: Votes)
      requires m.Validator() < |validators|
      ensures Valid(|validators|) ==> votes.Valid(|validators|)
      ensures |votes.validators| == |validators|
      ensures forall x :: x in votes.messages ==> x in messages || x == m
      ensures messages <= votes.messages
      ensures Valid(|validators|) ==> exists x :: x in votes.messages && x.Validator() == m.Validator()
      ensures Valid(|validators|) ==>
        votes.messages ==
          if exists x :: x in messages && x.Validator() == m.Validator() then messages else messages + [m]
      ensures votes.count >= count
    {
      if validators[m.Validator()] then this
      else
        var votes := Votes(messages + [m], validators[m.Validator() := true], count + 1);
        assert m in votes.messages;
        assert forall x :: x in messages ==> x in votes.messages;
        votes
    }
  }

  function NoVotes(n: nat): (votes: Votes)
    ensures votes.Valid(n)
  {
    Votes([], seq(n, _ => false), 0)
  }

  ghost function Voters(messages: seq<Message>): (voters: set<nat>) {
    set m | m in messages :: m.Validator()
  }

  /** The counter is the number of distinct validators that voted. */
  lemma {:induction false} CountIsVoters(messages: seq<Message>)
    requires forall i, j :: 0 <= i < j < |messages| ==> messages[i].Validator() != messages[j].Validator()
    ensures |Voters(messages)| == |messages|
  {
    if messages == [] {
      assert Voters(messages) == {};
    } else {
      var k := |messages| - 1;
      CountIsVoters(messages[..k]);
      assert messages == messages[..k] + [messages[k]];
      assert Voters(messages) == Voters(messages[..k]) + {messages[k].Validator()};
    }
  }

  predicate PrevoteFor(m: Message, e: nat, r: nat, p: Propose) {
    m.PrevoteMsg? && m.prevote.epoch == e && m.prevote.round == r && m.prevote.propose == p
  }

  predicate PrecommitFor(m: Message, e: nat, r: nat, b: Block) {
    m.PrecommitMsg? && m.precommit.epoch == e && m.precommit.round == r && m.precommit.block == b
  }

  /** Enough counted prevotes, all of them sent, are a quorum on the wire. */
  lemma CountedPrevotesAreQuorum(n: nat, votes: Votes, w: Wire, e: nat, r: nat, p: Propose)
    requires votes.Valid(n) && votes.count >= ByzantineQuorum(n)
    requires forall m :: m in votes.messages ==> m in w && PrevoteFor(m, e, r, p)
    ensures PrevoteQuorum(n, w, e, r, p)
  {
    CountIsVoters(votes.messages);
    forall v | v in Voters(votes.messages) ensures v in Prevoters(n, w, e, r, p) {
      var m :| m in votes.messages && m.Validator() == v;
      assert IsPrevote(m, v, e);
    }
    SubsetCardinality(Voters(votes.messages), Prevoters(n, w, e, r, p));
  }

  /** Precommits of enough distinct validators, all of them sent, are a quorum on the wire. */
  lemma PrecommitsAreQuorum(n: nat, messages: seq<Message>, w: Wire, e: nat, r: nat, b: Block)
    requires |messages| >= ByzantineQuorum(n)
    requires forall i, j :: 0 <= i < j < |messages| ==> messages[i].Validator() != messages[j].Validator()
    requires forall m :: m in messages ==> m in w && PrecommitFor(m, e, r, b) && m.Validator() < n
    ensures PrecommitQuorum(n, w, e, r, b)
  {
    CountIsVoters(messages);
    forall v | v in Voters(messages) ensures v in Precommitters(n, w, e, r, b) {
      var m :| m in messages && m.Validator() == v;
      assert IsPrecommit(m, v, e);
    }
    SubsetCardinality(Voters(messages), Precommitters(n, w, e, r, b));
  }
}
