/** The single-decree Paxos acceptor and proposer of consensus_algorithms.py.

    An acceptor's state is a value (`AcceptorState`) and its two handlers are
    pure steps on it; the class `PaxosAcceptor` is proved to perform them.
    A proposer runs both phases against a sequence of distinct acceptors; its
    run is specified by `Round` on the acceptors' states. */
module Paxos {
  import opened Common

  /** Proposed values are opaque strings; the empty string plays the part of
      Python's falsy values. */
  type Value = string

  /** Python's truth test on an `accepted_value`. */
  predicate Truthy(v: Option<Value>)
  {
    v.Some? && v.value != ""
  }

  datatype AcceptorState = AcceptorState(promisedN: int, acceptedN: int, acceptedValue: Option<Value>)

  /** A promise carries the pair accepted so far; a refusal carries nothing. */
  datatype PrepareReply = Promise(acceptedN: int, acceptedValue: Option<Value>) | Refusal

  /** The outcome of a successful run: the chosen value and its proposal number. */
  datatype Chosen = Chosen(value: Value, proposalNumber: int)

  const NoMajorityPromises := "Failed to get majority promises"
  const NoMajorityAccepts := "Failed to get majority accepts"

  function InitialAcceptor(): AcceptorState
  {
    AcceptorState(-1, -1, None)
  }

  // ---------------------------------------------------------------------------
  // Acceptor
  // ---------------------------------------------------------------------------

  /** Phase 1 at an acceptor. */
  function PrepareStep(s: AcceptorState, n: int): (AcceptorState, PrepareReply)
  {
    if n > s.promisedN then (s.(promisedN := n), Promise(s.acceptedN, s.acceptedValue))
    else (s, Refusal)
  }

  /** Phase 2 at an acceptor. */
  function AcceptStep(s: AcceptorState, n: int, v: Value): (AcceptorState, bool)
  {
    if n >= s.promisedN then (AcceptorState(n, n, Some(v)), true)
    else (s, false)
  }

  /** An acceptor never holds an accepted number above its promise. */
  predicate AcceptorInv(s: AcceptorState)
  {
    s.acceptedN <= s.promisedN
  }

  /** A prepare promises exactly when `n` is above every number promised so
      far, and then reports the accepted pair; a refusal reports nothing and
      changes nothing.  The promise never goes down and the accepted pair is
      untouched. */
  lemma PrepareSpec(s: AcceptorState, n: int, r: (AcceptorState, PrepareReply))
    requires r == PrepareStep(s, n)
    ensures r.1.Promise? <==> n > s.promisedN
    ensures r.1.Promise? ==> r.1 == Promise(s.acceptedN, s.acceptedValue) && r.0.promisedN == n
    ensures r.1.Refusal? ==> r.0 == s
    ensures r.0.promisedN >= s.promisedN
    ensures r.0.acceptedN == s.acceptedN && r.0.acceptedValue == s.acceptedValue
    ensures AcceptorInv(s) ==> AcceptorInv(r.0)
  {
  }

  /** An accept succeeds exactly when `n` is at least the promise, and then the
      acceptor promises and accepts `n` with value `v`; neither number ever
      goes down while the invariant holds. */
  lemma AcceptSpec(s: AcceptorState, n: int, v: Value, r: (AcceptorState, bool))
    requires r == AcceptStep(s, n, v)
    ensures r.1 <==> n >= s.promisedN
    ensures r.1 ==> r.0 == AcceptorState(n, n, Some(v))
    ensures !r.1 ==> r.0 == s
    ensures r.0.promisedN >= s.promisedN
    ensures AcceptorInv(s) ==> AcceptorInv(r.0) && r.0.acceptedN >= s.acceptedN
  {
  }

  // ---------------------------------------------------------------------------
  // Proposer, phase 1
  // ---------------------------------------------------------------------------

  /** Every acceptor after receiving `prepare(n)`. */
  function Prepared(views: seq<AcceptorState>, n: int): (r: seq<AcceptorState>)
    ensures |r| == |views|
    ensures forall i :: 0 <= i < |views| ==> r[i] == PrepareStep(views[i], n).0
  {
    seq(|views|, i requires 0 <= i < |views| => PrepareStep(views[i], n).0)
  }

  /** The acceptors' replies to `prepare(n)`, in acceptor order. */
  function Replies(views: seq<AcceptorState>, n: int): (r: seq<PrepareReply>)
    ensures |r| == |views|
    ensures forall i :: 0 <= i < |views| ==> r[i] == PrepareStep(views[i], n).1
  {
    seq(|views|, i requires 0 <= i < |views| => PrepareStep(views[i], n).1)
  }

  /** Promises among the first `k` replies. */
  function PromiseCount(replies: seq<PrepareReply>, k: nat): (c: nat)
    requires k <= |replies|
    ensures c <= k
  {
    if k == 0 then 0 else PromiseCount(replies, k - 1) + (if replies[k - 1].Promise? then 1 else 0)
  }

  /** A reply the scan for the highest accepted pair can pick: a promise with a
      truthy accepted value and an accepted number above the scan's start, -1. */
  predicate Eligible(r: PrepareReply)
  {
    r.Promise? && Truthy(r.acceptedValue) && r.acceptedN > -1
  }

  /** The scan of the first `k` replies for the highest accepted pair, as
      `(highest_n, highest_accepted)`: it starts from `(-1, None)` and takes a
      reply only when its number is strictly higher, so ties keep the earlier. */
  function Highest(replies: seq<PrepareReply>, k: nat): (h: (int, Option<Value>))
    requires k <= |replies|
    ensures h.1.None? <==> h.0 == -1
    ensures h.1.Some? ==> exists i :: 0 <= i < k && Eligible(replies[i])
                                      && replies[i].acceptedN == h.0 && replies[i].acceptedValue == h.1
    ensures forall i :: 0 <= i < k && Eligible(replies[i]) ==> replies[i].acceptedN <= h.0
  {
    if k == 0 then (-1, None)
    else
      var h := Highest(replies, k - 1);
      var r := replies[k - 1];
      if r.Promise? && Truthy(r.acceptedValue) && r.acceptedN > h.0 then (r.acceptedN, r.acceptedValue)
      else h
  }

  // ---------------------------------------------------------------------------
  // Proposer, phase 2
  // ---------------------------------------------------------------------------

  /** Every acceptor after receiving `accept(n, v)`. */
  function AcceptedStates(views: seq<AcceptorState>, n: int, v: Value): (r: seq<AcceptorState>)
    ensures |r| == |views|
    ensures forall i :: 0 <= i < |views| ==> r[i] == AcceptStep(views[i], n, v).0
  {
    seq(|views|, i requires 0 <= i < |views| => AcceptStep(views[i], n, v).0)
  }

  /** The acceptors' replies to `accept(n, v)`, in acceptor order. */
  function AcceptReplies(views: seq<AcceptorState>, n: int, v: Value): (r: seq<bool>)
    ensures |r| == |views|
    ensures forall i :: 0 <= i < |views| ==> r[i] == AcceptStep(views[i], n, v).1
  {
    seq(|views|, i requires 0 <= i < |views| => AcceptStep(views[i], n, v).1)
  }

  /** Positive replies among the first `k`. */
  function TrueCount(replies: seq<bool>, k: nat): (c: nat)
    requires k <= |replies|
    ensures c <= k
  {
    if k == 0 then 0 else TrueCount(replies, k - 1) + (if replies[k - 1] then 1 else 0)
  }

  /** `accept`: the value is chosen iff more than half of the acceptors accept it. */
  function AcceptRound(views: seq<AcceptorState>, n: int, v: Value): (r: (seq<AcceptorState>, Result<Chosen>))
  {
    var after := AcceptedStates(views, n, v);
    if TrueCount(AcceptReplies(views, n, v), |views|) > |views| / 2 then (after, Ok(Chosen(v, n)))
    else (after, Err(NoMajorityAccepts))
  }

  /** `prepare`: phase 1 with proposal number `n`; without a majority of
      promises it fails, otherwise it proposes the highest accepted value
      reported, or `value` when none was, in phase 2. */
  function Round(views: seq<AcceptorState>, n: int, value: Value): (r: (seq<AcceptorState>, Result<Chosen>))
  {
    var replies := Replies(views, n);
    var promised := Prepared(views, n);
    if PromiseCount(replies, |views|) <= |views| / 2 then (promised, Err(NoMajorityPromises))
    else AcceptRound(promised, n, ProposedValue(views, n, value))
  }

  /** The value phase 2 proposes: the highest accepted value the promises
      reported, or the caller's `value` when none was. */
  function ProposedValue(views: seq<AcceptorState>, n: int, value: Value): Value
  {
    var h := Highest(Replies(views, n), |views|);
    if h.1.Some? then h.1.value else value
  }

  // ---------------------------------------------------------------------------
  // Properties
  // ---------------------------------------------------------------------------

  /** Acceptors among the first `k` that hold the accepted pair `(n, Some(v))`. */
  function HoldingCount(views: seq<AcceptorState>, n: int, v: Value, k: nat): (c: nat)
    requires k <= |views|
    ensures c <= k
  {
    if k == 0 then 0
    else HoldingCount(views, n, v, k - 1)
         + (if views[k - 1].acceptedN == n && views[k - 1].acceptedValue == Some(v) then 1 else 0)
  }

  /** Every acceptor that accepts `(n, v)` holds it afterwards. */
  lemma {:induction false} AcceptedAreHolding(views: seq<AcceptorState>, n: int, v: Value, k: nat)
    requires k <= |views|
    ensures HoldingCount(AcceptedStates(views, n, v), n, v, k) >= TrueCount(AcceptReplies(views, n, v), k)
  {
    if k > 0 {
      AcceptedAreHolding(views, n, v, k - 1);
    }
  }

  /** Phase 2 reports a value chosen only when more than half of the acceptors
      hold it with the proposal number. */
  lemma AcceptRoundMajority(views: seq<AcceptorState>, n: int, v: Value)
    requires AcceptRound(views, n, v).1.Ok?
    ensures AcceptRound(views, n, v).1.value == Chosen(v, n)
    ensures HoldingCount(AcceptRound(views, n, v).0, n, v, |views|) > |views| / 2
  {
    AcceptedAreHolding(views, n, v, |views|);
  }

  /** A run that gets past phase 1 is phase 2 on the promised acceptors. */
  lemma RoundWithPromises(views: seq<AcceptorState>, n: int, value: Value)
    requires Round(views, n, value).1.Ok?
    ensures Round(views, n, value) == AcceptRound(Prepared(views, n), n, ProposedValue(views, n, value))
  {
  }

  /** A chosen value is held, with its proposal number, by more than half of
      the acceptors. */
  lemma ChosenByMajority(views: seq<AcceptorState>, n: int, value: Value)
    requires Round(views, n, value).1.Ok?
    ensures var r := Round(views, n, value);
            HoldingCount(r.0, r.1.value.proposalNumber, r.1.value.value, |views|) > |views| / 2
  {
    var promised := Prepared(views, n);
    var v := ProposedValue(views, n, value);
    RoundWithPromises(views, n, value);
    AcceptRoundMajority(promised, n, v);
  }

  /** The value proposed in phase 2 is the caller's only when no promise
      reports a truthy accepted value with a number above -1; otherwise it is
      the value of such a promise with the highest accepted number. */
  lemma ChosenValueAdopted(views: seq<AcceptorState>, n: int, value: Value)
    requires Round(views, n, value).1.Ok?
    ensures var replies := Replies(views, n);
            var c := Round(views, n, value).1.value;
            c.proposalNumber == n
            && ((forall i :: 0 <= i < |views| ==> !Eligible(replies[i])) ==> c.value == value)
            && ((exists i :: 0 <= i < |views| && Eligible(replies[i])) ==>
                  exists i :: 0 <= i < |views| && Eligible(replies[i]) && Some(c.value) == replies[i].acceptedValue
                              && forall j :: 0 <= j < |views| && Eligible(replies[j]) ==>
                                               replies[j].acceptedN <= replies[i].acceptedN)
  {
    var replies := Replies(views, n);
    var h := Highest(replies, |views|);
    if exists i :: 0 <= i < |views| && Eligible(replies[i]) {
      var i :| 0 <= i < |views| && Eligible(replies[i]);
      assert replies[i].acceptedN <= h.0;
    }
  }

  /** The proposal number of a proposer with id `id` in its `round`-th run
      against `k` acceptors: `id, id + k, id + 2k, ...`. */
  function ProposalNumber(id: int, k: nat, round: nat): (n: int)
    ensures k > 0 ==> n >= id
  {
    id + round * k
  }

  /** `d` rounds apart means at least `k` apart. */
  lemma RoundsApart(k: nat, i: nat, j: nat)
    requires i < j
    ensures j * k - i * k >= k
  {
    var d := j - i;
    assert j * k == i * k + d * k;
    assert d * k == (d - 1) * k + k;
  }

  /** Proposers whose ids are distinct residues modulo `k` never use the same
      number, and a proposer's own numbers strictly increase. */
  lemma ProposalNumbersUnique(id1: int, id2: int, k: nat, i: nat, j: nat)
    requires 0 <= id1 < k && 0 <= id2 < k
    ensures ProposalNumber(id1, k, i) == ProposalNumber(id2, k, j) <==> id1 == id2 && i == j
    ensures id1 == id2 && i < j ==> ProposalNumber(id1, k, i) < ProposalNumber(id2, k, j)
  {
    if i < j {
      RoundsApart(k, i, j);
    } else if j < i {
      RoundsApart(k, j, i);
    }
  }

  // ---------------------------------------------------------------------------
  // The objects
  // ---------------------------------------------------------------------------

  /** The states of a sequence of acceptors. */
  ghost function AcceptorViews(acceptors: seq<PaxosAcceptor>): (r: seq<AcceptorState>)
    reads acceptors
    ensures |r| == |acceptors| && forall i :: 0 <= i < |acceptors| ==> r[i] == acceptors[i].View()
  {
    if acceptors == [] then []
    else AcceptorViews(acceptors[..|acceptors| - 1]) + [acceptors[|acceptors| - 1].View()]
  }

  /** Two snapshots of the acceptors agree when they agree one by one. */
  lemma AcceptorViewsAre(acceptors: seq<PaxosAcceptor>, r: seq<AcceptorState>)
    requires |r| == |acceptors| && forall i :: 0 <= i < |acceptors| ==> acceptors[i].View() == r[i]
    ensures AcceptorViews(acceptors) == r
  {
  }

  class PaxosAcceptor {
    const acceptorId: int
    var promisedN: int
    var acceptedN: int
    var acceptedValue: Option<Value>

    function View(): AcceptorState
      reads this
    {
      AcceptorState(promisedN, acceptedN, acceptedValue)
    }

    constructor(acceptorId: int)
      ensures this.acceptorId == acceptorId && View() == InitialAcceptor()
    {
      this.acceptorId := acceptorId;
      promisedN := -1;
      acceptedN := -1;
      acceptedValue := None;
    }

    method Prepare(n: int) returns (reply: PrepareReply)
      modifies this
      ensures (View(), reply) == PrepareStep(old(View()), n)
    {
      if n > promisedN {
        promisedN := n;
        return Promise(acceptedN, acceptedValue);
      }
      return Refusal;
    }

    method Accept(n: int, value: Value) returns (accepted: bool)
      modifies this
      ensures (View(), accepted) == AcceptStep(old(View()), n, value)
    {
      if n >= promisedN {
        promisedN := n;
        acceptedN := n;
        acceptedValue := Some(value);
        return true;
      }
      return false;
    }
  }

  class PaxosProposer {
    const proposerId: int
    const acceptors: seq<PaxosAcceptor>
    var proposalNumber: int

    constructor(proposerId: int, acceptors: seq<PaxosAcceptor>)
      ensures this.proposerId == proposerId && this.acceptors == acceptors
      ensures proposalNumber == proposerId
    {
      this.proposerId := proposerId;
      this.acceptors := acceptors;
      proposalNumber := proposerId;
    }

    /** `prepare`: takes the next proposal number, runs phase 1 and, with a
        majority of promises, phase 2. */
    method Prepare(value: Value) returns (r: Result<Chosen>)
      requires Distinct(acceptors)
      modifies this, acceptors
      ensures proposalNumber == old(proposalNumber) + |acceptors|
      ensures (AcceptorViews(acceptors), r) == Round(old(AcceptorViews(acceptors)), old(proposalNumber), value)
    {
      ghost var v0 := AcceptorViews(acceptors);
      var n := proposalNumber;
      proposalNumber := proposalNumber + |acceptors|;
      var responses := Gather(n, v0);
      AcceptorViewsAre(acceptors, Prepared(v0, n));
      var promisesCount := CountPromises(responses);
      if promisesCount <= |acceptors| / 2 {
        return Err(NoMajorityPromises);
      }
      var highestAccepted := HighestAccepted(responses);
      var valueToPropose := if highestAccepted.Some? then highestAccepted.value else value;
      assert valueToPropose == ProposedValue(v0, n, value);
      r := Accept(n, valueToPropose);
    }

    /** The `prepare(n)` calls of phase 1, one acceptor after the other. */
    method Gather(n: int, ghost v0: seq<AcceptorState>) returns (responses: seq<PrepareReply>)
      requires Distinct(acceptors) && v0 == AcceptorViews(acceptors)
      modifies acceptors
      ensures responses == Replies(v0, n)
      ensures forall i :: 0 <= i < |acceptors| ==> acceptors[i].View() == PrepareStep(v0[i], n).0
    {
      responses := [];
      var k := 0;
      while k < |acceptors|
        invariant 0 <= k <= |acceptors| && |responses| == k
        invariant forall i :: 0 <= i < k ==> responses[i] == PrepareStep(v0[i], n).1
        invariant forall i :: 0 <= i < |acceptors| ==>
                    acceptors[i].View() == if i < k then PrepareStep(v0[i], n).0 else v0[i]
      {
        var reply := acceptors[k].Prepare(n);
        responses := responses + [reply];
        k := k + 1;
      }
    }

    /** `sum(1 for r in responses if r['promised'])`. */
    method CountPromises(responses: seq<PrepareReply>) returns (count: nat)
      ensures count == PromiseCount(responses, |responses|)
    {
      count := 0;
      var k := 0;
      while k < |responses|
        invariant 0 <= k <= |responses| && count == PromiseCount(responses, k)
      {
        if responses[k].Promise? {
          count := count + 1;
        }
        k := k + 1;
      }
    }

    /** The scan for the highest accepted value among the promises. */
    method HighestAccepted(responses: seq<PrepareReply>) returns (highestAccepted: Option<Value>)
      ensures highestAccepted == Highest(responses, |responses|).1
    {
      highestAccepted := None;
      var highestN := -1;
      var k := 0;
      while k < |responses|
        invariant 0 <= k <= |responses| && (highestN, highestAccepted) == Highest(responses, k)
      {
        var response := responses[k];
        if response.Promise? && Truthy(response.acceptedValue) && response.acceptedN > highestN {
          highestN := response.acceptedN;
          highestAccepted := response.acceptedValue;
        }
        k := k + 1;
      }
    }

    /** `accept`: phase 2 with proposal number `n` and value `value`. */
    method Accept(n: int, value: Value) returns (r: Result<Chosen>)
      requires Distinct(acceptors)
      modifies acceptors
      ensures (AcceptorViews(acceptors), r) == AcceptRound(old(AcceptorViews(acceptors)), n, value)
    {
      ghost var v0 := AcceptorViews(acceptors);
      var responses := GatherAccepts(n, value, v0);
      AcceptorViewsAre(acceptors, AcceptedStates(v0, n, value));
      var acceptsCount := CountAccepts(responses);
      if acceptsCount > |acceptors| / 2 {
        return Ok(Chosen(value, n));
      }
      return Err(NoMajorityAccepts);
    }

    /** The `accept(n, value)` calls of phase 2, one acceptor after the other. */
    method GatherAccepts(n: int, value: Value, ghost v0: seq<AcceptorState>) returns (responses: seq<bool>)
      requires Distinct(acceptors) && v0 == AcceptorViews(acceptors)
      modifies acceptors
      ensures responses == AcceptReplies(v0, n, value)
      ensures forall i :: 0 <= i < |acceptors| ==> acceptors[i].View() == AcceptStep(v0[i], n, value).0
    {
      responses := [];
      var k := 0;
      while k < |acceptors|
        invariant 0 <= k <= |acceptors| && |responses| == k
        invariant forall i :: 0 <= i < k ==> responses[i] == AcceptStep(v0[i], n, value).1
        invariant forall i :: 0 <= i < |acceptors| ==>
                    acceptors[i].View() == if i < k then AcceptStep(v0[i], n, value).0 else v0[i]
      {
        var accepted := acceptors[k].Accept(n, value);
        responses := responses + [accepted];
        k := k + 1;
      }
    }

    /** `sum(1 for r in responses if r['accepted'])`. */
    method CountAccepts(responses: seq<bool>) returns (count: nat)
      ensures count == TrueCount(responses, |responses|)
    {
      count := 0;
      var k := 0;
      while k < |responses|
        invariant 0 <= k <= |responses| && count == TrueCount(responses, k)
      {
        if responses[k] {
          count := count + 1;
        }
        k := k + 1;
      }
    }
  }
}
