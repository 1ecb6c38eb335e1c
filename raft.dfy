/** The Raft node of consensus_algorithms.py.

    A node's state is a value (`NodeState`); every handler is first written as a
    pure step function on that value and its properties are stated there.  The
    class `RaftNode` holds the same fields and its methods are proved to perform
    exactly those steps.  A cluster is a sequence of nodes in which node `k` has
    id `k`; a remote procedure call is a direct call of the peer's method. */
module Raft {
  import opened Common

  /** Commands are opaque payloads; the node never looks inside them. */
  type Command = string

  datatype LogEntry = LogEntry(term: int, command: Command, index: int)

  datatype Role = Follower | Candidate | Leader

  datatype NodeState = NodeState(
    id: nat,
    role: Role,
    currentTerm: int,
    votedFor: Option<nat>,
    log: seq<LogEntry>,
    commitIndex: int,
    nextIndex: map<nat, int>,
    matchIndex: map<nat, int>)

  function InitialState(id: nat): NodeState
  {
    NodeState(id, Follower, 0, None, [], -1, map[], map[])
  }

  /** Term of the last entry, 0 for an empty log. */
  function LastLogTerm(log: seq<LogEntry>): int
  {
    if |log| == 0 then 0 else log[|log| - 1].term
  }

  /** The up-to-date test of section 5.4.1 of the Raft paper, as the receiver applies it. */
  predicate CandidateLogUpToDate(log: seq<LogEntry>, lastLogIndex: int, lastLogTerm: int)
  {
    lastLogTerm > LastLogTerm(log)
    || (lastLogTerm == LastLogTerm(log) && lastLogIndex >= |log| - 1)
  }

  /** The consistency check of section 5.3: no previous entry, or a matching one. */
  predicate PrefixMatches(log: seq<LogEntry>, prevLogIndex: int, prevLogTerm: int)
  {
    prevLogIndex < 0 || (prevLogIndex < |log| && log[prevLogIndex].term == prevLogTerm)
  }

  // ---------------------------------------------------------------------------
  // Receiver handlers
  // ---------------------------------------------------------------------------

  /** RequestVote receiver: adopt a larger term, then grant iff the term is the
      current one, no other candidate holds this node's vote and the candidate's
      log is at least as up to date. */
  function RequestVoteStep(s: NodeState, term: int, candidateId: nat,
                           lastLogIndex: int, lastLogTerm: int): (NodeState, bool)
  {
    var s1 := if term > s.currentTerm then s.(currentTerm := term, votedFor := None, role := Follower) else s;
    if term == s1.currentTerm
       && (s1.votedFor.None? || s1.votedFor == Some(candidateId))
       && CandidateLogUpToDate(s1.log, lastLogIndex, lastLogTerm)
    then (s1.(votedFor := Some(candidateId)), true)
    else (s1, false)
  }

  /** AppendEntries receiver.  A call whose term is not stale makes the node a
      follower of that term and clears its vote before the consistency check,
      so a rejected call has still changed those three fields. */
  function AppendEntriesStep(s: NodeState, term: int, leaderId: nat, prevLogIndex: int,
                             prevLogTerm: int, entries: seq<LogEntry>, leaderCommit: int): (NodeState, bool)
  {
    if term < s.currentTerm then (s, false)
    else
      var s1 := s.(currentTerm := term, role := Follower, votedFor := None);
      if !PrefixMatches(s.log, prevLogIndex, prevLogTerm) then (s1, false)
      else
        var log' := if |entries| > 0 then PyPrefix(s.log, prevLogIndex + 1) + entries else s.log;
        var commit := if leaderCommit > s.commitIndex then Min(leaderCommit, |log'| - 1) else s.commitIndex;
        (s1.(log := log', commitIndex := commit), true)
  }

  /** What a RequestVote does to the receiver: the term only rises, a larger
      term makes it a follower with no vote, and the vote is granted exactly
      when the term is current, the vote is free or already the candidate's,
      and the candidate's log is at least as up to date; nothing else changes. */
  lemma RequestVoteSpec(s: NodeState, term: int, candidateId: nat, lastLogIndex: int, lastLogTerm: int,
                        r: (NodeState, bool))
    requires r == RequestVoteStep(s, term, candidateId, lastLogIndex, lastLogTerm)
    ensures r.0.currentTerm == Max(s.currentTerm, term)
    ensures r.0.role == (if term > s.currentTerm then Follower else s.role)
    ensures r.1 <==> term >= s.currentTerm
                     && (term > s.currentTerm || s.votedFor == None || s.votedFor == Some(candidateId))
                     && CandidateLogUpToDate(s.log, lastLogIndex, lastLogTerm)
    ensures r.0.votedFor == (if r.1 then Some(candidateId)
                             else if term > s.currentTerm then None
                             else s.votedFor)
    ensures r.0.id == s.id && r.0.log == s.log && r.0.commitIndex == s.commitIndex
    ensures r.0.nextIndex == s.nextIndex && r.0.matchIndex == s.matchIndex
  {
  }

  /** What an AppendEntries does to the receiver: a stale call changes nothing;
      otherwise the node follows the caller's term with no vote, accepts iff
      its log matches at the previous index, replaces its log from there with
      the entries, and raises its commit index to the leader's, capped by its
      last index. */
  lemma AppendEntriesSpec(s: NodeState, term: int, leaderId: nat, prevLogIndex: int,
                          prevLogTerm: int, entries: seq<LogEntry>, leaderCommit: int, r: (NodeState, bool))
    requires r == AppendEntriesStep(s, term, leaderId, prevLogIndex, prevLogTerm, entries, leaderCommit)
    ensures term < s.currentTerm ==> r == (s, false)
    ensures term >= s.currentTerm ==>
              r.0.currentTerm == term && r.0.role == Follower && r.0.votedFor == None
    ensures r.1 <==> term >= s.currentTerm && PrefixMatches(s.log, prevLogIndex, prevLogTerm)
    ensures !r.1 ==> r.0.log == s.log && r.0.commitIndex == s.commitIndex
    ensures r.1 && entries == [] ==> r.0.log == s.log
    ensures r.1 && entries != [] && prevLogIndex >= -1 ==> r.0.log == s.log[..prevLogIndex + 1] + entries
    ensures r.1 ==> r.0.commitIndex == (if leaderCommit > s.commitIndex
                                        then Min(leaderCommit, |r.0.log| - 1)
                                        else s.commitIndex)
    ensures s.commitIndex >= -1 ==> r.0.commitIndex >= -1
    ensures r.0.id == s.id && r.0.nextIndex == s.nextIndex && r.0.matchIndex == s.matchIndex
  {
  }

  /** The commit index is not monotone at a follower: an accepted
      AppendEntries that truncates the log below the commit index caps the
      commit index at the new last index, so it goes down. */
  lemma CommitIndexCanDecrease(s: NodeState, term: int, leaderId: nat, prevLogIndex: int,
                               prevLogTerm: int, entries: seq<LogEntry>, leaderCommit: int)
    requires term >= s.currentTerm && PrefixMatches(s.log, prevLogIndex, prevLogTerm)
    requires 0 <= prevLogIndex && entries != [] && prevLogIndex + |entries| < s.commitIndex < leaderCommit
    ensures var r := AppendEntriesStep(s, term, leaderId, prevLogIndex, prevLogTerm, entries, leaderCommit);
            r.1 && r.0.commitIndex == prevLogIndex + |entries| < s.commitIndex
  {
  }

  /** `get_committed_entries`: the log up to and including `commitIndex`. */
  function CommittedEntries(s: NodeState): (r: seq<LogEntry>)
    requires s.commitIndex >= -1
    ensures r == s.log[..Min(s.commitIndex + 1, |s.log|)]
    ensures s.commitIndex < |s.log| ==> |r| == s.commitIndex + 1
  {
    PyPrefix(s.log, s.commitIndex + 1)
  }

  // ---------------------------------------------------------------------------
  // Cluster-level steps
  // ---------------------------------------------------------------------------

  /** Size of a majority of `n` nodes. */
  function Quorum(n: nat): nat { n / 2 + 1 }

  /** A leader knows a next index in `[0, |log|]` and a match index for every node. */
  predicate LeaderIndexesOk(s: NodeState, n: nat)
  {
    s.role == Leader ==>
      forall p: nat :: p < n ==> p in s.nextIndex && p in s.matchIndex && 0 <= s.nextIndex[p] <= |s.log|
  }

  /** Node `k` has id `k`, its commit index is at least -1 and a leader's indexes are in range. */
  predicate WellFormed(views: seq<NodeState>)
  {
    forall k :: 0 <= k < |views| ==>
      views[k].id == k && views[k].commitIndex >= -1 && LeaderIndexesOk(views[k], |views|)
  }

  function Candidacy(s: NodeState): NodeState
  {
    s.(role := Candidate, currentTerm := s.currentTerm + 1, votedFor := Some(s.id))
  }

  /** The vote request candidate `c` sends to `peer`. */
  function AskVote(c: NodeState, peer: NodeState): (NodeState, bool)
  {
    RequestVoteStep(peer, c.currentTerm, c.id, |c.log| - 1, LastLogTerm(c.log))
  }

  /** Votes granted to `c` by the peers among the first `k` nodes. */
  function GrantCount(views: seq<NodeState>, c: NodeState, k: nat): (g: nat)
    requires k <= |views|
    ensures g <= (if c.id < k then k - 1 else k)
  {
    if k == 0 then 0
    else GrantCount(views, c, k - 1) + (if k - 1 != c.id && AskVote(c, views[k - 1]).1 then 1 else 0)
  }

  /** Votes of an election started by node `id`: its own and the peers' grants. */
  function Votes(views: seq<NodeState>, id: nat): nat
    requires id < |views|
  {
    1 + GrantCount(views, Candidacy(views[id]), |views|)
  }

  function AfterVoting(views: seq<NodeState>, id: nat): (r: seq<NodeState>)
    requires id < |views|
    ensures |r| == |views| && r[id] == Candidacy(views[id])
    ensures forall j :: 0 <= j < |views| && j != id ==> r[j] == AskVote(Candidacy(views[id]), views[j]).0
  {
    var c := Candidacy(views[id]);
    seq(|views|, j requires 0 <= j < |views| => if j == id then c else AskVote(c, views[j]).0)
  }

  /** `m` with the keys `0, ..., n - 1` set to `v`, in that order. */
  function Fill(m: map<nat, int>, n: nat, v: int): map<nat, int>
  {
    if n == 0 then m else Fill(m, n - 1, v)[n - 1 := v]
  }

  /** `Fill` covers the keys below `n` with `v` and keeps the rest of `m`. */
  lemma {:induction false} FillCovers(m: map<nat, int>, n: nat, v: int)
    ensures forall p: nat :: p in Fill(m, n, v) <==> p in m || p < n
    ensures forall p: nat :: p in Fill(m, n, v) ==> Fill(m, n, v)[p] == if p < n then v else m[p]
  {
    if n > 0 {
      FillCovers(m, n - 1, v);
    }
  }

  /** The leader's state right after `_become_leader` initialises its indexes. */
  function LeaderOf(s: NodeState, n: nat): NodeState
  {
    s.(role := Leader, nextIndex := Fill(s.nextIndex, n, |s.log|), matchIndex := Fill(s.matchIndex, n, -1))
  }

  /** The empty AppendEntries a leader sends as a heartbeat. */
  function Heartbeat(l: NodeState, peer: NodeState): NodeState
  {
    AppendEntriesStep(peer, l.currentTerm, l.id, |l.log| - 1, LastLogTerm(l.log), [], l.commitIndex).0
  }

  function Leadership(views: seq<NodeState>, id: nat): (r: seq<NodeState>)
    requires id < |views|
    ensures |r| == |views| && r[id] == LeaderOf(views[id], |views|)
    ensures forall j :: 0 <= j < |views| && j != id ==> r[j] == Heartbeat(LeaderOf(views[id], |views|), views[j])
  {
    var l := LeaderOf(views[id], |views|);
    seq(|views|, j requires 0 <= j < |views| => if j == id then l else Heartbeat(l, views[j]))
  }

  /** `_start_election`: a new term, a vote for itself, a vote request to every
      peer, and leadership iff the votes reach a majority. */
  function Election(views: seq<NodeState>, id: nat): (r: seq<NodeState>)
    requires id < |views|
    ensures |r| == |views|
    ensures r[id].currentTerm == views[id].currentTerm + 1 && r[id].votedFor == Some(views[id].id)
    ensures r[id].log == views[id].log && r[id].commitIndex == views[id].commitIndex
    ensures r[id].role == (if Votes(views, id) >= Quorum(|views|) then Leader else Follower)
    ensures r[id].role == Leader ==>
              forall p: nat :: p < |views| ==>
                p in r[id].nextIndex && r[id].nextIndex[p] == |views[id].log|
                && p in r[id].matchIndex && r[id].matchIndex[p] == -1
  {
    var voted := AfterVoting(views, id);
    assert voted[id] == Candidacy(views[id]);
    if Votes(views, id) >= Quorum(|views|) then
      var r := Leadership(voted, id);
      assert r[id] == LeaderOf(Candidacy(views[id]), |views|);
      FillCovers(views[id].nextIndex, |views|, |views[id].log|);
      FillCovers(views[id].matchIndex, |views|, -1);
      r
    else voted[id := voted[id].(role := Follower)]
  }

  /** What a peer ends up as after an election: its vote answer, followed by
      the new leader's heartbeat if the candidate won. */
  lemma ElectionPeer(views: seq<NodeState>, id: nat, j: nat)
    requires id < |views| && j < |views| && j != id
    ensures var c := Candidacy(views[id]);
            var asked := AskVote(c, views[j]).0;
            Election(views, id)[j]
              == if Votes(views, id) >= Quorum(|views|) then Heartbeat(LeaderOf(c, |views|), asked) else asked
  {
  }

  /** An election never lowers a term and keeps the cluster well formed. */
  lemma ElectionKeepsWellFormed(views: seq<NodeState>, id: nat)
    requires WellFormed(views) && id < |views|
    ensures forall j :: 0 <= j < |views| ==> Election(views, id)[j].currentTerm >= views[j].currentTerm
    ensures WellFormed(Election(views, id))
  {
    var r := Election(views, id);
    forall j | 0 <= j < |views|
      ensures r[j].currentTerm >= views[j].currentTerm
      ensures r[j].id == j && r[j].commitIndex >= -1 && LeaderIndexesOk(r[j], |views|)
    {
      if j != id {
        ElectionPeer(views, id, j);
      }
    }
  }

  /** Counting the grants of a candidate every peer votes for. */
  lemma {:induction false} GrantCountAll(views: seq<NodeState>, c: NodeState, k: nat)
    requires k <= |views|
    requires forall j :: 0 <= j < k && j != c.id ==> AskVote(c, views[j]).1
    ensures GrantCount(views, c, k) == if c.id < k then k - 1 else k
  {
    if k > 0 {
      GrantCountAll(views, c, k - 1);
    }
  }

  /** Counting the grants of a candidate no peer votes for. */
  lemma {:induction false} GrantCountNone(views: seq<NodeState>, c: NodeState, k: nat)
    requires k <= |views|
    requires forall j :: 0 <= j < k && j != c.id ==> !AskVote(c, views[j]).1
    ensures GrantCount(views, c, k) == 0
  {
    if k > 0 {
      GrantCountNone(views, c, k - 1);
    }
  }

  /** A candidate every peer votes for collects all `n` votes and wins. */
  lemma UnanimousElection(views: seq<NodeState>, id: nat)
    requires id < |views| && views[id].id == id
    requires forall j :: 0 <= j < |views| && j != id ==> AskVote(Candidacy(views[id]), views[j]).1
    ensures Votes(views, id) == |views|
    ensures Election(views, id)[id].role == Leader
  {
    GrantCountAll(views, Candidacy(views[id]), |views|);
  }

  /** In a cluster of two or more, a candidate no peer votes for has only its
      own vote and goes back to being a follower. */
  lemma RejectedElection(views: seq<NodeState>, id: nat)
    requires 2 <= |views| && id < |views| && views[id].id == id
    requires forall j :: 0 <= j < |views| && j != id ==> !AskVote(Candidacy(views[id]), views[j]).1
    ensures Votes(views, id) == 1
    ensures Election(views, id)[id].role == Follower
  {
    GrantCountNone(views, Candidacy(views[id]), |views|);
  }

  /** A vote is not final within a term: an AppendEntries of the node's own
      term clears it, after which the node can vote again in that term. */
  lemma AppendEntriesReopensVote(s: NodeState, leaderId: nat, prevLogIndex: int, prevLogTerm: int,
                                 entries: seq<LogEntry>, leaderCommit: int, other: nat)
    requires s.votedFor.Some? && s.votedFor != Some(other)
    ensures var s1 := AppendEntriesStep(s, s.currentTerm, leaderId, prevLogIndex, prevLogTerm,
                                        entries, leaderCommit).0;
            s1.currentTerm == s.currentTerm && s1.votedFor == None
            && RequestVoteStep(s1, s.currentTerm, other, |s1.log| - 1, LastLogTerm(s1.log)).1
  {
  }

  /** The AppendEntries a leader sends to peer `p` in `_replicate_log`: the log
      from the peer's next index, anchored at the entry just before it. */
  function ReplicateTo(l: NodeState, peer: NodeState, p: nat): (NodeState, bool)
    requires p in l.nextIndex && 0 <= l.nextIndex[p] <= |l.log|
  {
    var ni := l.nextIndex[p];
    AppendEntriesStep(peer, l.currentTerm, l.id, ni - 1,
                      if ni - 1 >= 0 then l.log[ni - 1].term else 0, l.log[ni..], l.commitIndex)
  }

  /** Node `id` is a leader whose indexes allow a replication round. */
  predicate CanReplicate(views: seq<NodeState>, id: nat)
  {
    id < |views| && views[id].id == id && views[id].role == Leader && views[id].commitIndex >= -1
    && LeaderIndexesOk(views[id], |views|)
  }

  /** What peer `p` answers to the round started by leader `id` on `views`. */
  function Outcome(views: seq<NodeState>, id: nat, p: nat): (NodeState, bool)
    requires CanReplicate(views, id) && p < |views|
  {
    ReplicateTo(views[id], views[p], p)
  }

  /** Peer `p` accepts the round's AppendEntries exactly when its term is not
      above the leader's and its log matches the leader's at the entry just
      before the leader's next index for it. */
  predicate Accepts(views: seq<NodeState>, id: nat, p: nat)
    requires CanReplicate(views, id) && p < |views|
  {
    var l := views[id];
    var ni := l.nextIndex[p];
    l.currentTerm >= views[p].currentTerm
    && PrefixMatches(views[p].log, ni - 1, if ni - 1 >= 0 then l.log[ni - 1].term else 0)
  }

  lemma AcceptsIsOutcome(views: seq<NodeState>, id: nat, p: nat)
    requires CanReplicate(views, id) && p < |views|
    ensures Outcome(views, id, p).1 == Accepts(views, id, p)
  {
    var l := views[id];
    var ni := l.nextIndex[p];
    AppendEntriesSpec(views[p], l.currentTerm, l.id, ni - 1, if ni - 1 >= 0 then l.log[ni - 1].term else 0,
                      l.log[ni..], l.commitIndex, Outcome(views, id, p));
  }

  /** The leader's next and match indexes once peer `p` has answered: on
      success the peer is known to hold the whole log of length `len`, on a
      rejection its next index backs off by one but not below 0. */
  function RecordIndexes(next: map<nat, int>, matched: map<nat, int>, len: nat, p: nat, ok: bool)
    : (map<nat, int>, map<nat, int>)
    requires p in next
  {
    if ok then (next[p := len], matched[p := len - 1]) else (next[p := Max(0, next[p] - 1)], matched)
  }

  /** The leader's bookkeeping once peer `p` has answered. */
  function RecordReply(l: NodeState, p: nat, ok: bool): NodeState
    requires p in l.nextIndex
  {
    var r := RecordIndexes(l.nextIndex, l.matchIndex, |l.log|, p, ok);
    l.(nextIndex := r.0, matchIndex := r.1)
  }

  /** The leader's next and match indexes once the peers below `k` have
      answered the round.  A peer's answer depends only on its own state and
      the leader's entries for it, which no earlier turn touches, so every
      peer answers as it would have at the start of the round. */
  function IndexesAfter(views: seq<NodeState>, id: nat, k: nat): (r: (map<nat, int>, map<nat, int>))
    requires CanReplicate(views, id) && k <= |views|
    ensures forall p: nat :: p < |views| ==> p in r.0 && p in r.1 && 0 <= r.0[p] <= |views[id].log|
  {
    if k == 0 then (views[id].nextIndex, views[id].matchIndex)
    else
      var r := IndexesAfter(views, id, k - 1);
      if k - 1 == id then r else RecordIndexes(r.0, r.1, |views[id].log|, k - 1, Accepts(views, id, k - 1))
  }

  /** The leader once the peers below `k` have answered the round. */
  function LeaderAfter(views: seq<NodeState>, id: nat, k: nat): (l: NodeState)
    requires CanReplicate(views, id) && k <= |views|
    ensures l == views[id].(nextIndex := l.nextIndex, matchIndex := l.matchIndex)
    ensures LeaderIndexesOk(l, |views|)
  {
    var r := IndexesAfter(views, id, k);
    views[id].(nextIndex := r.0, matchIndex := r.1)
  }

  /** One more turn of the round. */
  lemma LeaderStep(views: seq<NodeState>, id: nat, k: nat)
    requires CanReplicate(views, id) && k < |views|
    ensures LeaderAfter(views, id, k + 1)
            == if k == id then LeaderAfter(views, id, k)
               else RecordReply(LeaderAfter(views, id, k), k, Accepts(views, id, k))
  {
  }

  /** The leader's entries for peer `j` are untouched before its turn. */
  lemma {:induction false} LeaderBeforeTurn(views: seq<NodeState>, id: nat, k: nat, j: nat)
    requires CanReplicate(views, id) && k <= j < |views| && j != id
    ensures LeaderAfter(views, id, k).nextIndex[j] == views[id].nextIndex[j]
    ensures LeaderAfter(views, id, k).matchIndex[j] == views[id].matchIndex[j]
  {
    if k > 0 {
      LeaderBeforeTurn(views, id, k - 1, j);
    }
  }

  /** Once peer `j` has had its turn, the leader's entries for it record that
      answer, and later turns leave them alone. */
  lemma {:induction false} LeaderRecords(views: seq<NodeState>, id: nat, k: nat, j: nat)
    requires CanReplicate(views, id) && j < k <= |views| && j != id
    ensures LeaderAfter(views, id, k).nextIndex[j]
            == if Accepts(views, id, j) then |views[id].log| else Max(0, views[id].nextIndex[j] - 1)
    ensures LeaderAfter(views, id, k).matchIndex[j]
            == if Accepts(views, id, j) then |views[id].log| - 1 else views[id].matchIndex[j]
  {
    if k - 1 == j {
      LeaderBeforeTurn(views, id, j, j);
    } else {
      LeaderRecords(views, id, k - 1, j);
    }
  }

  /** The AppendEntries of `_replicate_log` depends on the leader's maps only
      through the next index of its addressee. */
  lemma ReplicateToFrame(l1: NodeState, l2: NodeState, peer: NodeState, p: nat)
    requires p in l1.nextIndex && 0 <= l1.nextIndex[p] <= |l1.log|
    requires l2 == l1.(nextIndex := l2.nextIndex, matchIndex := l2.matchIndex)
    requires p in l2.nextIndex && l2.nextIndex[p] == l1.nextIndex[p]
    ensures ReplicateTo(l1, peer, p) == ReplicateTo(l2, peer, p)
  {
  }

  // ---------------------------------------------------------------------------
  // Commit index advance (section 5.4.2 of the Raft paper)
  // ---------------------------------------------------------------------------

  function MatchOf(s: NodeState, p: nat): int
  {
    if p in s.matchIndex then s.matchIndex[p] else -1
  }

  /** Peers among the first `n` nodes whose match index reaches `i`. */
  function MatchCount(s: NodeState, n: nat, i: int): (c: nat)
    ensures c <= (if s.id < n then n - 1 else n)
  {
    if n == 0 then 0
    else MatchCount(s, n - 1, i) + (if n - 1 != s.id && MatchOf(s, n - 1) >= i then 1 else 0)
  }

  /** Index `i` is stored on more than half of `n` nodes (the leader counts
      itself) and was created in the leader's current term. */
  predicate Committable(s: NodeState, n: nat, i: int)
    requires 0 <= i < |s.log|
  {
    2 * (1 + MatchCount(s, n, i)) > n && s.log[i].term == s.currentTerm
  }

  /** The last committable index in `[lo, hi)`, or `none` if there is none. */
  function LastCommittable(s: NodeState, n: nat, lo: nat, hi: int, none: int): (r: int)
    requires hi <= |s.log| && none < lo
    ensures r == none || (lo <= r < hi && Committable(s, n, r))
    ensures forall i :: lo <= i < hi && i > r ==> !Committable(s, n, i)
    decreases hi
  {
    if hi <= lo then none
    else if Committable(s, n, hi - 1) then hi - 1
    else LastCommittable(s, n, lo, hi - 1, none)
  }

  /** `_update_commit_index`: the commit index only rises, and only to the
      highest index above it that a majority stores and that belongs to the
      current term. */
  function AdvancedCommitIndex(s: NodeState, n: nat): (r: int)
    requires s.commitIndex >= -1
    ensures r == s.commitIndex || (s.commitIndex < r < |s.log| && Committable(s, n, r))
    ensures forall i :: s.commitIndex < i < |s.log| && i > r ==> !Committable(s, n, i)
    ensures r >= s.commitIndex
  {
    LastCommittable(s, n, s.commitIndex + 1, |s.log|, s.commitIndex)
  }

  /** Peers all of whose match indexes reach `i` are all counted. */
  lemma {:induction false} MatchCountAll(s: NodeState, n: nat, i: int)
    requires forall p: nat :: p < n && p != s.id ==> MatchOf(s, p) >= i
    ensures MatchCount(s, n, i) == if s.id < n then n - 1 else n
  {
    if n > 0 {
      MatchCountAll(s, n - 1, i);
    }
  }

  /** Once every peer stores the whole log and its last entry is of the
      current term, the commit index advances to the last entry. */
  lemma FullyReplicatedCommits(s: NodeState, n: nat)
    requires s.id < n && -1 <= s.commitIndex < |s.log| - 1
    requires s.log[|s.log| - 1].term == s.currentTerm
    requires forall p: nat :: p < n && p != s.id ==> MatchOf(s, p) >= |s.log| - 1
    ensures AdvancedCommitIndex(s, n) == |s.log| - 1
  {
    MatchCountAll(s, n, |s.log| - 1);
    assert Committable(s, n, |s.log| - 1);
  }

  /** `_replicate_log`: one AppendEntries per peer carrying the log from that
      peer's next index, the index bookkeeping, then the commit index advance. */
  function Replicate(views: seq<NodeState>, id: nat): (r: seq<NodeState>)
    requires CanReplicate(views, id)
    ensures |r| == |views| && CanReplicate(r, id)
    ensures r[id].log == views[id].log && r[id].currentTerm == views[id].currentTerm
    ensures r[id].commitIndex >= views[id].commitIndex
    ensures forall j :: 0 <= j < |views| && j != id ==> r[j] == Outcome(views, id, j).0
  {
    var l := LeaderAfter(views, id, |views|);
    var l' := l.(commitIndex := AdvancedCommitIndex(l, |views|));
    seq(|views|, j requires 0 <= j < |views| => if j == id then l' else Outcome(views, id, j).0)
  }

  /** A peer that accepts the round ends up with its own log up to the leader's
      next index for it, followed by the rest of the leader's log, in the
      leader's term; the leader then records it as holding the whole log. */
  lemma ReplicateSuccess(views: seq<NodeState>, id: nat, j: nat)
    requires CanReplicate(views, id) && j < |views| && j != id && Accepts(views, id, j)
    ensures var ni := views[id].nextIndex[j];
            var r := Replicate(views, id);
            r[j].log == (if ni < |views[id].log| then views[j].log[..ni] + views[id].log[ni..] else views[j].log)
            && r[id].nextIndex[j] == |views[id].log|
            && r[id].matchIndex[j] == |views[id].log| - 1
            && r[j].currentTerm == views[id].currentTerm && r[j].role == Follower
  {
    var l := views[id];
    var ni := l.nextIndex[j];
    LeaderRecords(views, id, |views|, j);
    AppendEntriesSpec(views[j], l.currentTerm, l.id, ni - 1, if ni - 1 >= 0 then l.log[ni - 1].term else 0,
                      l.log[ni..], l.commitIndex, Outcome(views, id, j));
  }

  /** A peer that rejects the round keeps its log and commit index, and the
      leader will retry one entry earlier next time. */
  lemma ReplicateFailure(views: seq<NodeState>, id: nat, j: nat)
    requires CanReplicate(views, id) && j < |views| && j != id && !Accepts(views, id, j)
    ensures var r := Replicate(views, id);
            r[id].nextIndex[j] == Max(0, views[id].nextIndex[j] - 1)
            && r[id].matchIndex[j] == views[id].matchIndex[j]
            && r[j].log == views[j].log && r[j].commitIndex == views[j].commitIndex
  {
    var l := views[id];
    var ni := l.nextIndex[j];
    LeaderRecords(views, id, |views|, j);
    AppendEntriesSpec(views[j], l.currentTerm, l.id, ni - 1, if ni - 1 >= 0 then l.log[ni - 1].term else 0,
                      l.log[ni..], l.commitIndex, Outcome(views, id, j));
  }

  /** A replication round keeps the cluster well formed and never lowers a term. */
  lemma ReplicateKeepsWellFormed(views: seq<NodeState>, id: nat)
    requires WellFormed(views) && CanReplicate(views, id)
    ensures forall j :: 0 <= j < |views| ==> Replicate(views, id)[j].currentTerm >= views[j].currentTerm
    ensures WellFormed(Replicate(views, id))
  {
    var r := Replicate(views, id);
    forall j | 0 <= j < |views|
      ensures r[j].currentTerm >= views[j].currentTerm
      ensures r[j].id == j && r[j].commitIndex >= -1 && LeaderIndexesOk(r[j], |views|)
    {
      if j != id {
        var l := views[id];
        var ni := l.nextIndex[j];
        AppendEntriesSpec(views[j], l.currentTerm, l.id, ni - 1, if ni - 1 >= 0 then l.log[ni - 1].term else 0,
                          l.log[ni..], l.commitIndex, Outcome(views, id, j));
      }
    }
  }

  /** The cluster with `e` appended to node `id`'s log. */
  function Appended(views: seq<NodeState>, id: nat, e: LogEntry): (r: seq<NodeState>)
    requires id < |views|
    ensures |r| == |views| && r[id].log == views[id].log + [e]
    ensures forall j :: 0 <= j < |views| && j != id ==> r[j] == views[j]
    ensures WellFormed(views) && views[id].role == Leader ==> CanReplicate(r, id)
  {
    views[id := views[id].(log := views[id].log + [e])]
  }

  const NotLeaderError := "Only leader can propose entries"

  /** `propose_entry`: only a leader accepts a command; it appends an entry of
      its current term at the end of its log and runs a replication round. */
  function Propose(views: seq<NodeState>, id: nat, command: Command): (r: (seq<NodeState>, Result<LogEntry>))
    requires WellFormed(views) && id < |views|
    ensures |r.0| == |views|
    ensures views[id].role != Leader ==> r == (views, Err(NotLeaderError))
    ensures views[id].role == Leader ==>
              r.1 == Ok(LogEntry(views[id].currentTerm, command, |views[id].log|))
              && r.0[id].log == views[id].log + [r.1.value]
              && r.1.value.index == |views[id].log|
  {
    var s := views[id];
    if s.role != Leader then (views, Err(NotLeaderError))
    else
      var e := LogEntry(s.currentTerm, command, |s.log|);
      (Replicate(Appended(views, id, e), id), Ok(e))
  }

  /** A proposal every peer accepts is committed by the round that carries it. */
  lemma ProposeCommitsWhenAllAccept(views: seq<NodeState>, id: nat, command: Command)
    requires WellFormed(views) && id < |views| && views[id].role == Leader
    requires views[id].commitIndex < |views[id].log|
    requires var e := LogEntry(views[id].currentTerm, command, |views[id].log|);
             forall j :: 0 <= j < |views| && j != id ==> Accepts(Appended(views, id, e), id, j)
    ensures Propose(views, id, command).0[id].commitIndex == |views[id].log|
  {
    var e := LogEntry(views[id].currentTerm, command, |views[id].log|);
    var v := Appended(views, id, e);
    var l := LeaderAfter(v, id, |v|);
    forall p: nat | p < |v| && p != id
      ensures MatchOf(l, p) >= |v[id].log| - 1
    {
      LeaderRecords(v, id, |v|, p);
    }
    FullyReplicatedCommits(l, |v|);
  }

  /** A proposal keeps the cluster well formed and never lowers a term. */
  lemma ProposeKeepsWellFormed(views: seq<NodeState>, id: nat, command: Command)
    requires WellFormed(views) && id < |views|
    ensures forall j :: 0 <= j < |views| ==> Propose(views, id, command).0[j].currentTerm >= views[j].currentTerm
    ensures WellFormed(Propose(views, id, command).0)
  {
    if views[id].role == Leader {
      var e := LogEntry(views[id].currentTerm, command, |views[id].log|);
      var v := Appended(views, id, e);
      assert WellFormed(v);
      ReplicateKeepsWellFormed(v, id);
    }
  }

  // ---------------------------------------------------------------------------
  // The node object
  // ---------------------------------------------------------------------------

  /** Node `k` of the sequence has id `k`, so the nodes are distinct objects. */
  predicate IsCluster(nodes: seq<RaftNode>)
  {
    forall k :: 0 <= k < |nodes| ==> nodes[k].id == k
  }

  /** The states of all nodes of a cluster. */
  ghost function Views(nodes: seq<RaftNode>): (r: seq<NodeState>)
    reads nodes
    ensures |r| == |nodes| && forall k :: 0 <= k < |nodes| ==> r[k] == nodes[k].View()
  {
    if nodes == [] then [] else Views(nodes[..|nodes| - 1]) + [nodes[|nodes| - 1].View()]
  }

  /** Two cluster snapshots agree when they agree node by node. */
  lemma ViewsAre(nodes: seq<RaftNode>, r: seq<NodeState>)
    requires |r| == |nodes| && forall k :: 0 <= k < |nodes| ==> nodes[k].View() == r[k]
    ensures Views(nodes) == r
  {
  }

  class RaftNode {
    const id: nat
    var role: Role
    var currentTerm: int
    var votedFor: Option<nat>
    var log: seq<LogEntry>
    var commitIndex: int
    var nextIndex: map<nat, int>
    var matchIndex: map<nat, int>

    function View(): NodeState
      reads this
    {
      NodeState(id, role, currentTerm, votedFor, log, commitIndex, nextIndex, matchIndex)
    }

    constructor(id: nat)
      ensures View() == InitialState(id)
    {
      this.id := id;
      role := Follower;
      currentTerm := 0;
      votedFor := None;
      log := [];
      commitIndex := -1;
      nextIndex := map[];
      matchIndex := map[];
    }

    /** Precondition shared by the methods that talk to the rest of the cluster. */
    predicate InCluster(nodes: seq<RaftNode>)
    {
      IsCluster(nodes) && id < |nodes| && nodes[id] == this
    }

    method RequestVote(term: int, candidateId: nat, lastLogIndex: int, lastLogTerm: int)
      returns (granted: bool)
      modifies this
      ensures (View(), granted) == RequestVoteStep(old(View()), term, candidateId, lastLogIndex, lastLogTerm)
    {
      if term > currentTerm {
        currentTerm := term;
        votedFor := None;
        role := Follower;
      }
      var myLastTerm := if |log| > 0 then log[|log| - 1].term else 0;
      if term == currentTerm
         && (votedFor == None || votedFor == Some(candidateId))
         && (lastLogTerm > myLastTerm || (lastLogTerm == myLastTerm && lastLogIndex >= |log| - 1))
      {
        votedFor := Some(candidateId);
        return true;
      }
      return false;
    }

    method AppendEntries(term: int, leaderId: nat, prevLogIndex: int, prevLogTerm: int,
                         entries: seq<LogEntry>, leaderCommit: int) returns (success: bool)
      modifies this
      ensures (View(), success)
              == AppendEntriesStep(old(View()), term, leaderId, prevLogIndex, prevLogTerm, entries, leaderCommit)
    {
      if term >= currentTerm {
        currentTerm := term;
        role := Follower;
        votedFor := None;
        if prevLogIndex >= 0 && (|log| <= prevLogIndex || log[prevLogIndex].term != prevLogTerm) {
          return false;
        }
        if |entries| > 0 {
          log := PyPrefix(log, prevLogIndex + 1);
          log := log + entries;
        }
        if leaderCommit > commitIndex {
          commitIndex := Min(leaderCommit, |log| - 1);
        }
        return true;
      }
      return false;
    }

    /** `_start_election`. */
    method StartElection(nodes: seq<RaftNode>)
      requires InCluster(nodes)
      modifies nodes
      ensures Views(nodes) == Election(old(Views(nodes)), id)
    {
      ghost var v0 := Views(nodes);
      role := Candidate;
      currentTerm := currentTerm + 1;
      votedFor := Some(id);
      assert View() == Candidacy(v0[id]);
      var votes := RequestVotes(nodes, v0);
      var votesNeeded := |nodes| / 2 + 1;
      ViewsAre(nodes, AfterVoting(v0, id));
      if votes >= votesNeeded {
        BecomeLeader(nodes);
      } else {
        role := Follower;
        ViewsAre(nodes, Election(v0, id));
      }
    }

    /** The vote-gathering loop of `_start_election`: every peer is asked in
        turn; the result counts the candidate's own vote. */
    method RequestVotes(nodes: seq<RaftNode>, ghost v0: seq<NodeState>) returns (votes: nat)
      requires InCluster(nodes) && |v0| == |nodes|
      requires forall j :: 0 <= j < |nodes| && j != id ==> nodes[j].View() == v0[j]
      modifies nodes
      ensures View() == old(View())
      ensures votes == 1 + GrantCount(v0, View(), |nodes|)
      ensures forall j :: 0 <= j < |nodes| && j != id ==> nodes[j].View() == AskVote(View(), v0[j]).0
    {
      ghost var c := View();
      votes := 1;
      var k := 0;
      while k < |nodes|
        invariant 0 <= k <= |nodes|
        invariant View() == c
        invariant votes == 1 + GrantCount(v0, c, k)
        invariant forall j :: 0 <= j < |nodes| && j != id ==>
                    nodes[j].View() == if j < k then AskVote(c, v0[j]).0 else v0[j]
      {
        votes := Canvass(nodes, k, v0, votes);
        k := k + 1;
      }
    }

    /** Iteration `k` of the vote-gathering loop: the tally once node `k` has been asked. */
    method Canvass(nodes: seq<RaftNode>, k: nat, ghost v0: seq<NodeState>, votes: nat) returns (tally: nat)
      requires InCluster(nodes) && k < |nodes| == |v0|
      requires votes == 1 + GrantCount(v0, View(), k)
      requires forall j :: 0 <= j < |nodes| && j != id ==>
                 nodes[j].View() == if j < k then AskVote(View(), v0[j]).0 else v0[j]
      modifies nodes
      ensures View() == old(View())
      ensures tally == 1 + GrantCount(v0, View(), k + 1)
      ensures forall j :: 0 <= j < |nodes| && j != id ==>
                nodes[j].View() == if j <= k then AskVote(View(), v0[j]).0 else v0[j]
    {
      tally := votes;
      var node := nodes[k];
      if node.id != id {
        var granted := AskFor(node);
        if granted {
          tally := tally + 1;
        }
      }
    }

    /** The RequestVote call of `_start_election` to the peer `node`. */
    method AskFor(node: RaftNode) returns (granted: bool)
      requires node != this
      modifies node
      ensures (node.View(), granted) == AskVote(View(), old(node.View()))
    {
      granted := node.RequestVote(currentTerm, id, |log| - 1, if |log| > 0 then log[|log| - 1].term else 0);
    }

    /** `_become_leader`: initialise every node's indexes, then send a heartbeat. */
    method BecomeLeader(nodes: seq<RaftNode>)
      requires InCluster(nodes)
      modifies nodes
      ensures Views(nodes) == Leadership(old(Views(nodes)), id)
    {
      ghost var v0 := Views(nodes);
      role := Leader;
      InitIndexes(nodes);
      SendHeartbeat(nodes);
      ViewsAre(nodes, Leadership(v0, id));
    }

    /** The index initialisation loop of `_become_leader`. */
    method InitIndexes(nodes: seq<RaftNode>)
      requires IsCluster(nodes)
      modifies this
      ensures View() == old(View()).(nextIndex := Fill(old(nextIndex), |nodes|, |log|),
                                     matchIndex := Fill(old(matchIndex), |nodes|, -1))
    {
      var next, matched := nextIndex, matchIndex;
      var k := 0;
      while k < |nodes|
        invariant 0 <= k <= |nodes|
        invariant next == Fill(nextIndex, k, |log|) && matched == Fill(matchIndex, k, -1)
      {
        assert nodes[k].id == k;
        next := next[nodes[k].id := |log|];
        matched := matched[nodes[k].id := -1];
        k := k + 1;
      }
      nextIndex, matchIndex := next, matched;
    }

    /** `_send_heartbeat`: an empty AppendEntries to every peer; the answers are ignored. */
    method SendHeartbeat(nodes: seq<RaftNode>)
      requires InCluster(nodes)
      modifies nodes
      ensures View() == old(View())
      ensures forall j :: 0 <= j < |nodes| && j != id ==> nodes[j].View() == Heartbeat(View(), old(nodes[j].View()))
    {
      var k := 0;
      while k < |nodes|
        invariant 0 <= k <= |nodes|
        invariant View() == old(View())
        invariant forall j :: 0 <= j < |nodes| && j != id ==>
                    nodes[j].View() == if j < k then Heartbeat(View(), old(nodes[j].View())) else old(nodes[j].View())
      {
        var node := nodes[k];
        if node.id != id {
          var _ := node.AppendEntries(currentTerm, id, |log| - 1, if |log| > 0 then log[|log| - 1].term else 0,
                                      [], commitIndex);
        }
        k := k + 1;
      }
    }

    /** `_update_commit_index`, over the ids of the cluster's nodes. */
    method UpdateCommitIndex(nodes: seq<RaftNode>)
      requires IsCluster(nodes) && commitIndex >= -1
      modifies this
      ensures View() == old(View()).(commitIndex := AdvancedCommitIndex(old(View()), |nodes|))
    {
      ghost var s0 := View();
      var n := |nodes|;
      var i := commitIndex + 1;
      while i < |log|
        invariant s0.commitIndex + 1 <= i <= Max(s0.commitIndex + 1, |log|)
        invariant View() == s0.(commitIndex := LastCommittable(s0, n, s0.commitIndex + 1, Min(i, |s0.log|), s0.commitIndex))
      {
        var count := 1;
        var k := 0;
        while k < n
          invariant 0 <= k <= n
          invariant count == 1 + MatchCount(s0, k, i)
        {
          var node := nodes[k];
          if node.id != id && (if node.id in matchIndex then matchIndex[node.id] else -1) >= i {
            count := count + 1;
          }
          k := k + 1;
        }
        if 2 * count > n && log[i].term == currentTerm {
          commitIndex := i;
        }
        i := i + 1;
      }
    }

    /** `_replicate_log`. */
    method ReplicateLog(nodes: seq<RaftNode>)
      requires InCluster(nodes) && CanReplicate(Views(nodes), id)
      modifies nodes
      ensures Views(nodes) == Replicate(old(Views(nodes)), id)
    {
      ghost var v0 := Views(nodes);
      var k := 0;
      while k < |nodes|
        invariant 0 <= k <= |nodes|
        invariant View() == LeaderAfter(v0, id, k)
        invariant forall j :: 0 <= j < |nodes| && j != id ==>
                    nodes[j].View() == if j < k then Outcome(v0, id, j).0 else v0[j]
      {
        Turn(nodes, k, v0);
        k := k + 1;
      }
      UpdateCommitIndex(nodes);
      ViewsAre(nodes, Replicate(v0, id));
    }

    /** Iteration `k` of the loop of `_replicate_log`. */
    method Turn(nodes: seq<RaftNode>, k: nat, ghost v0: seq<NodeState>)
      requires InCluster(nodes) && CanReplicate(v0, id) && k < |nodes| == |v0|
      requires View() == LeaderAfter(v0, id, k)
      requires forall j :: 0 <= j < |nodes| && j != id ==>
                 nodes[j].View() == if j < k then Outcome(v0, id, j).0 else v0[j]
      modifies nodes
      ensures View() == LeaderAfter(v0, id, k + 1)
      ensures forall j :: 0 <= j < |nodes| && j != id ==>
                nodes[j].View() == if j <= k then Outcome(v0, id, j).0 else v0[j]
    {
      var node := nodes[k];
      LeaderStep(v0, id, k);
      if node.id != id {
        LeaderBeforeTurn(v0, id, k, k);
        ReplicateToFrame(v0[id], View(), v0[k], k);
        AcceptsIsOutcome(v0, id, k);
        SendTo(node);
      }
    }

    /** One iteration of the loop of `_replicate_log`: the AppendEntries to
        `node` and the leader's bookkeeping of its answer. */
    method SendTo(node: RaftNode)
      requires node.id != id && node.id in nextIndex && 0 <= nextIndex[node.id] <= |log|
      modifies this, node
      ensures var o := ReplicateTo(old(View()), old(node.View()), node.id);
              node.View() == o.0 && View() == RecordReply(old(View()), node.id, o.1)
    {
      var nextIdx := nextIndex[node.id];
      var entries := log[nextIdx..];
      var prevLogIndex := nextIdx - 1;
      var prevLogTerm := if prevLogIndex >= 0 then log[prevLogIndex].term else 0;
      var success := node.AppendEntries(currentTerm, id, prevLogIndex, prevLogTerm, entries, commitIndex);
      if success {
        nextIndex := nextIndex[node.id := |log|];
        matchIndex := matchIndex[node.id := |log| - 1];
      } else {
        nextIndex := nextIndex[node.id := Max(0, nextIndex[node.id] - 1)];
      }
    }

    /** `propose_entry`. */
    method ProposeEntry(nodes: seq<RaftNode>, command: Command) returns (r: Result<LogEntry>)
      requires InCluster(nodes) && WellFormed(Views(nodes))
      modifies nodes
      ensures (Views(nodes), r) == Propose(old(Views(nodes)), id, command)
    {
      if role != Leader {
        return Err(NotLeaderError);
      }
      ghost var v0 := Views(nodes);
      var entry := LogEntry(currentTerm, command, |log|);
      log := log + [entry];
      ViewsAre(nodes, Appended(v0, id, entry));
      ReplicateLog(nodes);
      return Ok(entry);
    }

    /** `get_committed_entries`. */
    method GetCommittedEntries() returns (r: seq<LogEntry>)
      requires commitIndex >= -1
      ensures r == CommittedEntries(View())
    {
      r := PyPrefix(log, commitIndex + 1);
    }
  }
}
