# Distributed-systems concepts, modelled in Dafny

This project models the Python reference implementations of a collection of
system-design concepts and proves properties of them:

- **Consensus**: a Raft node (vote requests, log replication, elections,
  leader initialisation, proposals and the majority commit rule) and a
  single-decree Paxos acceptor and proposer (`Raft`, `Paxos`).
- **Traffic and scale**: a load balancer with four selection algorithms
  (`LoadBalancing`), four sharding schemes including a consistent-hash ring
  (`Sharding`), an LRU cache with time-to-live and its cache-aside and
  write-behind strategies (`Caching`), and a horizontal auto-scaler
  (`AutoScaling`).
- **Reliability**: a circuit breaker with retry and capped exponential
  backoff (`CircuitBreaking`), liveness, readiness and startup probes
  (`HealthChecks`), leaky-bucket, fixed-window and sliding-window rate
  limiters (`RateLimiting`).
- **Communication and architecture**: publish/subscribe topics and a
  point-to-point work queue (`Messaging`), a service registry and API
  gateway (`Microservices`), a connection pool (`ConnectionPooling`), a batch
  processor (`BatchProcessing`).
- **Data**: an account database with locked, logged transfers
  (`AcidTransaction`), master-slave and master-master replication
  (`DataReplication`), and the CP, AP and CA stores that illustrate the CAP
  trade-offs (`CapTheorem`).
- **Security and monitoring**: string validation, sanitizers, a
  parameterized-query builder and a CSRF token store (`InputValidation`), and
  a structured logger with a bounded buffer (`Logging`).

Each source file is one module; `Common` holds the shared `Option` and
`Result` types (a `Result` error stands for a Python exception) and Python's
slicing rules. Objects whose methods update fields are classes with the same
fields; their methods state their new state in terms of the old, usually
through a pure step function on a value of the state, and the properties are
proved as lemmas about those step functions. Each remote call of Raft and
Paxos is a direct call on a peer in a sequence of nodes indexed by id, and
each handler runs as one atomic step.

The world outside the code is a parameter: the clock (`datetime.now()`,
`time.time()`) is passed to each call, as a real number in auto_scaling.dfy and
data_replication.dfy and as a whole number elsewhere; random draws are passed in
as values, the md5 digest is an arbitrary function, and whether a callback or
remote call fails is an oracle argument.

## Model

| member | source | states |
|---|---|---|
| Raft.RequestVoteSpec | concepts/01-fundamental-concepts/python/consensus_algorithms.py:89-105 | a newer term is adopted, with the vote cleared and the node a follower; the vote is granted iff the term is current, the node has not voted for another candidate and the candidate's last log term is higher, or equal with a last index at least as high; a granted vote records the candidate; log, commit index and leader maps are untouched |
| Raft.AppendEntriesSpec | concepts/01-fundamental-concepts/python/consensus_algorithms.py:142-169 | a stale term is rejected with the state unchanged; otherwise the term is adopted, the node becomes a follower with its vote cleared, and it succeeds iff its log holds an entry of `prev_log_term` at `prev_log_index`; on success a non-empty batch replaces the log after `prev_log_index`, and a higher leader commit moves the commit index to min(leader commit, last index); a commit index of at least -1 stays so |
| Raft.CommitIndexCanDecrease | concepts/01-fundamental-concepts/python/consensus_algorithms.py:159-165 | a matching batch that ends before the follower's commit index lowers that commit index (the log is truncated first and the min is taken over the shorter log) |
| Raft.CommittedEntries | concepts/01-fundamental-concepts/python/consensus_algorithms.py:225-227 | the committed entries are the log prefix up to and including the commit index |
| Raft.GrantCount | concepts/01-fundamental-concepts/python/consensus_algorithms.py:72-81 | at most one vote is counted per peer, never the candidate's own |
| Raft.AfterVoting | concepts/01-fundamental-concepts/python/consensus_algorithms.py:61-81 | the candidate has moved to the next term and voted for itself; every peer is left as its `request_vote` answer left it |
| Raft.FillCovers | concepts/01-fundamental-concepts/python/consensus_algorithms.py:113-115 | the index initialisation sets the entry of every node id below n and keeps every other entry |
| Raft.Leadership | concepts/01-fundamental-concepts/python/consensus_algorithms.py:107-140 | the new leader has its next index at its log length and its match index at -1 for every node, and every peer has received the empty AppendEntries of the initial heartbeat |
| Raft.Election | concepts/01-fundamental-concepts/python/consensus_algorithms.py:61-87 | the candidate's term goes up by one, it votes for itself, keeps its log and commit index, and is leader iff its votes reach len(nodes) // 2 + 1 (else a follower); as leader its next index is its log length and its match index -1 for every node |
| Raft.ElectionPeer | concepts/01-fundamental-concepts/python/consensus_algorithms.py:72-84 | a peer ends with its vote answer, followed by the winner's heartbeat when the candidate won |
| Raft.ElectionKeepsWellFormed | concepts/01-fundamental-concepts/python/consensus_algorithms.py:61-140 | an election never lowers any node's term and keeps the cluster well formed (ids, commit index at least -1, leader maps in range) |
| Raft.GrantCountAll | concepts/01-fundamental-concepts/python/consensus_algorithms.py:72-81 | when every peer grants, n - 1 votes are counted |
| Raft.GrantCountNone | concepts/01-fundamental-concepts/python/consensus_algorithms.py:72-81 | when no peer grants, no vote is counted |
| Raft.UnanimousElection | concepts/01-fundamental-concepts/python/consensus_algorithms.py:68-84 | with every peer granting, the candidate has all n votes and becomes leader |
| Raft.RejectedElection | concepts/01-fundamental-concepts/python/consensus_algorithms.py:68-87 | with at least two nodes and no peer granting, the candidate has one vote and falls back to follower |
| Raft.AppendEntriesReopensVote | concepts/01-fundamental-concepts/python/consensus_algorithms.py:142-150 | an AppendEntries of the node's own term clears its vote, so a second candidate can win a vote in the same term |
| Raft.AcceptsIsOutcome | concepts/01-fundamental-concepts/python/consensus_algorithms.py:187-204 | a peer answers success to the replication round iff its term is not above the leader's and its log matches at the entry before the leader's next index for it |
| Raft.IndexesAfter | concepts/01-fundamental-concepts/python/consensus_algorithms.py:187-209 | during the replication round every node keeps a next index within 0 and the log length, and a match index |
| Raft.LeaderAfter | concepts/01-fundamental-concepts/python/consensus_algorithms.py:187-209 | the replication round changes only the leader's next and match indexes, which stay in range |
| Raft.LeaderStep | concepts/01-fundamental-concepts/python/consensus_algorithms.py:189-209 | each turn of the loop records the peer's answer, and the leader's own turn changes nothing |
| Raft.LeaderBeforeTurn | concepts/01-fundamental-concepts/python/consensus_algorithms.py:189-209 | the leader's entries for a peer are untouched before that peer's turn |
| Raft.LeaderRecords | concepts/01-fundamental-concepts/python/consensus_algorithms.py:205-209 | after its turn a peer that accepted has next index = log length and match index = log length - 1; one that refused has next index max(0, next index - 1) and its match index unchanged |
| Raft.ReplicateToFrame | concepts/01-fundamental-concepts/python/consensus_algorithms.py:191-203 | the AppendEntries sent to a peer depends on the leader's maps only through that peer's next index |
| Raft.MatchCount | concepts/01-fundamental-concepts/python/consensus_algorithms.py:216-220 | the replica count of an index counts only peers, never the leader itself |
| Raft.LastCommittable | concepts/01-fundamental-concepts/python/consensus_algorithms.py:216-223 | the scan returns the highest index of the range whose replica count is a strict majority and whose term is the current term, or the given default when there is none |
| Raft.AdvancedCommitIndex | concepts/01-fundamental-concepts/python/consensus_algorithms.py:214-223 | the new commit index is the old one or the highest index above it replicated on a strict majority with the current term; it never decreases |
| Raft.MatchCountAll | concepts/01-fundamental-concepts/python/consensus_algorithms.py:216-220 | when every peer's match index reaches i, all n - 1 peers are counted |
| Raft.FullyReplicatedCommits | concepts/01-fundamental-concepts/python/consensus_algorithms.py:214-223 | when every peer holds the whole log and the last entry is of the current term, the commit index advances to the last entry |
| Raft.Replicate | concepts/01-fundamental-concepts/python/consensus_algorithms.py:187-212 | after `_replicate_log` the leader keeps its log and term, its commit index does not decrease, and every peer is in the state its AppendEntries left it in |
| Raft.ReplicateSuccess | concepts/01-fundamental-concepts/python/consensus_algorithms.py:191-207 | a peer that accepts ends with its log up to the leader's next index followed by the rest of the leader's log, in the leader's term as a follower, and the leader records it as holding the whole log |
| Raft.ReplicateFailure | concepts/01-fundamental-concepts/python/consensus_algorithms.py:205-209 | a peer that refuses keeps its log and commit index; the leader backs its next index off by one, not below 0 |
| Raft.ReplicateKeepsWellFormed | concepts/01-fundamental-concepts/python/consensus_algorithms.py:187-223 | a replication round never lowers a term and keeps the cluster well formed |
| Raft.Appended | concepts/01-fundamental-concepts/python/consensus_algorithms.py:176-182 | the leader's log gains the entry at its end and every other node is unchanged |
| Raft.Propose | concepts/01-fundamental-concepts/python/consensus_algorithms.py:171-185 | a node that is not leader raises "Only leader can propose entries" and nothing changes; a leader appends an entry of its term whose index is the old log length and returns it |
| Raft.ProposeCommitsWhenAllAccept | concepts/01-fundamental-concepts/python/consensus_algorithms.py:171-223 | a proposal that every peer accepts is committed by the round that carries it |
| Raft.ProposeKeepsWellFormed | concepts/01-fundamental-concepts/python/consensus_algorithms.py:171-223 | a proposal never lowers a term and keeps the cluster well formed |
| Raft.RaftNode.constructor | concepts/01-fundamental-concepts/python/consensus_algorithms.py:22-34 | a new node is a follower of term 0 with no vote, an empty log, commit index -1 and empty leader maps |
| Raft.RaftNode.RequestVote | concepts/01-fundamental-concepts/python/consensus_algorithms.py:89-105 | the node's new state and answer are those of the vote step |
| Raft.RaftNode.AppendEntries | concepts/01-fundamental-concepts/python/consensus_algorithms.py:142-169 | the node's new state and answer are those of the AppendEntries step |
| Raft.RaftNode.StartElection | concepts/01-fundamental-concepts/python/consensus_algorithms.py:61-87 | the cluster ends in the state of the election step |
| Raft.RaftNode.RequestVotes | concepts/01-fundamental-concepts/python/consensus_algorithms.py:68-81 | the vote loop counts 1 plus the grants and leaves each peer as its answer left it |
| Raft.RaftNode.Canvass | concepts/01-fundamental-concepts/python/consensus_algorithms.py:72-81 | one iteration of the vote loop asks one peer and counts its grant |
| Raft.RaftNode.AskFor | concepts/01-fundamental-concepts/python/consensus_algorithms.py:73-79 | a vote request carries the candidate's term, id, last log index and last log term |
| Raft.RaftNode.BecomeLeader | concepts/01-fundamental-concepts/python/consensus_algorithms.py:107-118 | the cluster ends in the state of the leadership step |
| Raft.RaftNode.InitIndexes | concepts/01-fundamental-concepts/python/consensus_algorithms.py:113-115 | every node's next index becomes the log length and its match index -1; nothing else changes |
| Raft.RaftNode.SendHeartbeat | concepts/01-fundamental-concepts/python/consensus_algorithms.py:129-140 | every peer receives the empty AppendEntries; the leader is unchanged |
| Raft.RaftNode.UpdateCommitIndex | concepts/01-fundamental-concepts/python/consensus_algorithms.py:214-223 | only the commit index changes, to the advanced commit index |
| Raft.RaftNode.ReplicateLog | concepts/01-fundamental-concepts/python/consensus_algorithms.py:187-212 | the cluster ends in the state of the replication step |
| Raft.RaftNode.Turn | concepts/01-fundamental-concepts/python/consensus_algorithms.py:189-209 | one iteration of the replication loop advances the leader and the addressed peer by one turn |
| Raft.RaftNode.SendTo | concepts/01-fundamental-concepts/python/consensus_algorithms.py:190-209 | the peer takes the AppendEntries of its next index and the leader records the answer |
| Raft.RaftNode.ProposeEntry | concepts/01-fundamental-concepts/python/consensus_algorithms.py:171-185 | the cluster and the answer are those of the proposal step |
| Raft.RaftNode.GetCommittedEntries | concepts/01-fundamental-concepts/python/consensus_algorithms.py:225-227 | returns the committed entries |
| Paxos.PrepareSpec | concepts/01-fundamental-concepts/python/consensus_algorithms.py:284-293 | an acceptor promises iff n exceeds its promise, then returns what it accepted and raises its promise to n; a refusal changes nothing; its accepted pair is untouched and its promise never decreases |
| Paxos.AcceptSpec | concepts/01-fundamental-concepts/python/consensus_algorithms.py:295-302 | an acceptor accepts iff n is at least its promise, then holds (n, n, value); a refusal changes nothing; promises and accepted numbers never decrease |
| Paxos.Prepared | concepts/01-fundamental-concepts/python/consensus_algorithms.py:243 | every acceptor takes the prepare of n |
| Paxos.Replies | concepts/01-fundamental-concepts/python/consensus_algorithms.py:243 | the replies are the acceptors' prepare answers, in order |
| Paxos.PromiseCount | concepts/01-fundamental-concepts/python/consensus_algorithms.py:244 | the count of promises is at most the number of replies |
| Paxos.Highest | concepts/01-fundamental-concepts/python/consensus_algorithms.py:250-257 | the highest accepted value among the promises with a truthy accepted value, with its number, or none at -1 |
| Paxos.AcceptedStates | concepts/01-fundamental-concepts/python/consensus_algorithms.py:266 | every acceptor takes the accept of (n, value) |
| Paxos.AcceptReplies | concepts/01-fundamental-concepts/python/consensus_algorithms.py:266 | the replies are the acceptors' accept answers, in order |
| Paxos.TrueCount | concepts/01-fundamental-concepts/python/consensus_algorithms.py:267 | the count of accepts is at most the number of replies |
| Paxos.HoldingCount | concepts/01-fundamental-concepts/python/consensus_algorithms.py:295-302 | the number of acceptors holding (n, value) is at most their number |
| Paxos.AcceptedAreHolding | concepts/01-fundamental-concepts/python/consensus_algorithms.py:266-269 | every acceptor that answered accepted holds (n, value) afterwards |
| Paxos.AcceptRoundMajority | concepts/01-fundamental-concepts/python/consensus_algorithms.py:264-272 | a successful accept phase chooses (value, n) and a strict majority of the acceptors holds it |
| Paxos.RoundWithPromises | concepts/01-fundamental-concepts/python/consensus_algorithms.py:238-262 | a successful round is the accept phase of n, on the promised acceptors, with the proposed value |
| Paxos.ChosenByMajority | concepts/01-fundamental-concepts/python/consensus_algorithms.py:238-272 | a value reported chosen is held by a strict majority of the acceptors under its proposal number |
| Paxos.ChosenValueAdopted | concepts/01-fundamental-concepts/python/consensus_algorithms.py:249-262 | the chosen value is the client's value when no promise carried an accepted value, and otherwise the accepted value with the highest number among the promises |
| Paxos.ProposalNumber | concepts/01-fundamental-concepts/python/consensus_algorithms.py:236-241 | a proposer's k-th number is its id plus k times the number of acceptors, never below its id |
| Paxos.RoundsApart | concepts/01-fundamental-concepts/python/consensus_algorithms.py:241 | numbers of later rounds are at least one acceptor count apart |
| Paxos.ProposalNumbersUnique | concepts/01-fundamental-concepts/python/consensus_algorithms.py:236-241 | two proposers with ids below the acceptor count never use the same number, and one proposer's numbers strictly increase |
| Paxos.PaxosAcceptor.constructor | concepts/01-fundamental-concepts/python/consensus_algorithms.py:278-282 | a new acceptor has promised and accepted -1 and no value |
| Paxos.PaxosAcceptor.Prepare | concepts/01-fundamental-concepts/python/consensus_algorithms.py:284-293 | the new state and answer are those of the prepare step |
| Paxos.PaxosAcceptor.Accept | concepts/01-fundamental-concepts/python/consensus_algorithms.py:295-302 | the new state and answer are those of the accept step |
| Paxos.PaxosProposer.constructor | concepts/01-fundamental-concepts/python/consensus_algorithms.py:233-236 | the proposal number starts at the proposer's id |
| Paxos.PaxosProposer.Prepare | concepts/01-fundamental-concepts/python/consensus_algorithms.py:238-262 | the proposal number advances by the acceptor count, and the acceptors and result are those of the full round at the old number |
| Paxos.PaxosProposer.Gather | concepts/01-fundamental-concepts/python/consensus_algorithms.py:243 | collects every acceptor's prepare answer in order |
| Paxos.PaxosProposer.CountPromises | concepts/01-fundamental-concepts/python/consensus_algorithms.py:244 | counts the promises |
| Paxos.PaxosProposer.HighestAccepted | concepts/01-fundamental-concepts/python/consensus_algorithms.py:249-257 | returns the highest accepted value among the promises |
| Paxos.PaxosProposer.Accept | concepts/01-fundamental-concepts/python/consensus_algorithms.py:264-272 | the acceptors and result are those of the accept phase |
| Paxos.PaxosProposer.GatherAccepts | concepts/01-fundamental-concepts/python/consensus_algorithms.py:266 | collects every acceptor's accept answer in order |
| Paxos.PaxosProposer.CountAccepts | concepts/01-fundamental-concepts/python/consensus_algorithms.py:267 | counts the accepts |
| LoadBalancing.RoundRobinPosition | concepts/01-fundamental-concepts/python/load_balancer.py:27-28 | the round-robin index stays below the number of servers |
| LoadBalancing.RoundRobinVisitsAll | concepts/01-fundamental-concepts/python/load_balancer.py:25-29 | from any start index, n consecutive round-robin calls hand out n distinct servers, and every server is reached within n calls |
| LoadBalancing.LeastIndex | concepts/01-fundamental-concepts/python/load_balancer.py:31-42 | the least-connections scan returns a position inside the scanned prefix |
| LoadBalancing.LeastIndexIsFirstMinimum | concepts/01-fundamental-concepts/python/load_balancer.py:31-42 | the chosen server has no more connections than any other, and strictly fewer than every server before it (the strict `<` keeps the first minimum) |
| LoadBalancing.WeightedIndex | concepts/01-fundamental-concepts/python/load_balancer.py:44-58 | the weighted scan returns the first position whose running weight exceeds the draw, or -1 when the draw reaches every running weight |
| LoadBalancing.WeightedIndexStable | concepts/01-fundamental-concepts/python/load_balancer.py:52-56 | once a prefix of the servers has picked a server, scanning more servers picks the same one (the loop breaks) |
| LoadBalancing.CumWeightIsTotal | concepts/01-fundamental-concepts/python/load_balancer.py:46-53 | with distinct servers the running weight at the last server equals the sum of the weights |
| LoadBalancing.WeightedDrawPicks | concepts/01-fundamental-concepts/python/load_balancer.py:44-58 | a draw below the total weight always picks some server, so the default to the first server is taken only for a draw at or above it |
| LoadBalancing.LoadBalancer.constructor | concepts/01-fundamental-concepts/python/load_balancer.py:14-23 | a new balancer starts at index 0 with no connections and weight 1 for every server |
| LoadBalancing.LoadBalancer.RoundRobin | concepts/01-fundamental-concepts/python/load_balancer.py:25-29 | returns the server at the current index and moves the index one step round the list; connections and weights are untouched; an empty list raises `IndexError` with the index unchanged |
| LoadBalancing.LoadBalancer.LeastConnections | concepts/01-fundamental-concepts/python/load_balancer.py:31-42 | returns the first server with the fewest connections; the `defaultdict` reads materialise zero entries but no count changes; an empty list raises `IndexError` |
| LoadBalancing.LoadBalancer.WeightedRoundRobin | concepts/01-fundamental-concepts/python/load_balancer.py:44-58 | returns the first server whose running weight exceeds the draw, or the first server when none does; an empty list raises `IndexError` |
| LoadBalancing.LoadBalancer.IpHash | concepts/01-fundamental-concepts/python/load_balancer.py:60-64 | the client address is sent to the server at its hash modulo the number of servers, so always to a listed server; an empty list raises `ZeroDivisionError` |
| LoadBalancing.LoadBalancer.SetWeight | concepts/01-fundamental-concepts/python/load_balancer.py:66-71 | a listed server gets the new weight; an unlisted one raises "Server … not found" and nothing changes |
| LoadBalancing.LoadBalancer.GetNextServer | concepts/01-fundamental-concepts/python/load_balancer.py:73-92 | dispatches on the algorithm name (unknown names use round robin); ip-hash without a client address raises "Client IP required for IP hash algorithm" with nothing changed; an empty list raises (`ZeroDivisionError` for ip-hash, `IndexError` otherwise) with nothing changed; otherwise the chosen listed server gains exactly one connection and no other count changes |
| LoadBalancing.LoadBalancer.ReleaseConnection | concepts/01-fundamental-concepts/python/load_balancer.py:94-97 | the server's connection count drops by one but not below zero; every other count is unchanged |
| Sharding.ShardIds | concepts/02-scalability/python/sharding.py:14 | the shard ids of a new sharder are exactly 0 … num_shards - 1 |
| Sharding.EmptyShards | concepts/02-scalability/python/sharding.py:14 | a new sharder has one empty shard per id 0 … num_shards - 1 and no other |
| Sharding.Place | concepts/02-scalability/python/sharding.py:23 | storing a value keeps the set of shard ids |
| Sharding.PlaceThenLookup | concepts/02-scalability/python/sharding.py:23-29 | after a store, looking up the stored key in the chosen shard yields the value, and every other shard and key reads as before |
| Sharding.ModShard | concepts/02-scalability/python/sharding.py:16-18 | Python's `key % num_shards` always lies in 0 … num_shards - 1, negative keys included |
| Sharding.ModShardUnique | concepts/02-scalability/python/sharding.py:16-18 | the shard is the unique remainder r with key = q * num_shards + r, as for Python's floored modulo |
| Sharding.ModShardPeriodic | concepts/02-scalability/python/sharding.py:16-18 | keys num_shards apart land on the same shard |
| Sharding.ModShardSmallKeys | concepts/02-scalability/python/sharding.py:16-18 | keys 0 … num_shards - 1 land on their own shard, and key -1 on the last shard |
| Sharding.ModuloSharding.constructor | concepts/02-scalability/python/sharding.py:12-14 | a new range or hash sharder has num_shards empty shards (none for a count of 0 or less) |
| Sharding.PyMod | concepts/02-scalability/python/sharding.py:16-18 | Python's `key % num_shards` takes the sign of num_shards: in 0 … n - 1 for a positive count, in n + 1 … 0 for a negative one |
| Sharding.PyModNegative | concepts/02-scalability/python/sharding.py:16-18 | with a negative count the residue still differs from the key by a multiple of the count |
| Sharding.ModuloSharding.GetShard | concepts/02-scalability/python/sharding.py:16-18 | a count of 0 raises `ZeroDivisionError`; otherwise the residue is an existing shard iff the count is positive |
| Sharding.ModuloSharding.Set | concepts/02-scalability/python/sharding.py:20-29 | with a positive count, stores the value in the key's shard and reports that shard; afterwards `get` of the key yields the value and `get` of every other key is unchanged; with no shards it raises (`ZeroDivisionError` for 0, `KeyError` below 0) and nothing changes |
| Sharding.ModuloSharding.Get | concepts/02-scalability/python/sharding.py:26-29 | the stored value of the key, if any, when there are shards; with none the lookup raises (`ZeroDivisionError` for a count of 0, `KeyError` below 0) |
| Sharding.DirectorySharding.constructor | concepts/02-scalability/python/sharding.py:80-83 | a new directory sharder has num_shards empty shards (none for a count of 0 or less) and an empty directory |
| Sharding.DirectorySharding.GetShard | concepts/02-scalability/python/sharding.py:85-94 | a key in the directory gets its recorded shard; a new key is assigned the drawn shard, which is recorded; with no shards the draw raises `ValueError` and nothing changes; the shards are untouched |
| Sharding.DirectorySharding.Set | concepts/02-scalability/python/sharding.py:96-100 | stores the value in the key's recorded or newly drawn shard; afterwards `get` of the key yields the value and every other key reads as before; with no shards the draw raises and nothing changes |
| Sharding.DirectorySharding.Get | concepts/02-scalability/python/sharding.py:102-107 | a key missing from the directory reads as None |
| Sharding.DirectorySharding.Rebalance | concepts/02-scalability/python/sharding.py:109-117 | a key not in the directory returns None and changes nothing; a key recorded but absent from its shard raises KeyError with nothing changed; a missing target shard raises KeyError after the key was already popped from its old shard; otherwise the key moves, the directory records the new shard, the move is reported, and every key reads as before |
| Sharding.ShardPoints | concepts/02-scalability/python/sharding.py:149-150 | a shard has one ring point per virtual node, the hash of the label "shard-v" |
| Sharding.ShardRingCovers | concepts/02-scalability/python/sharding.py:149-151 | adding a shard's points to the ring maps each of them to that shard and keeps every other point |
| Sharding.RingDomain | concepts/02-scalability/python/sharding.py:143-152 | the ring's points are exactly the hashes of the labels, and every point maps to a shard id below num_shards |
| Sharding.RingLabels | concepts/02-scalability/python/sharding.py:148-151 | every label's hash is on the ring and maps to its own shard or a later one (a later shard wins a hash collision) |
| Sharding.RingCovers | concepts/02-scalability/python/sharding.py:143-152 | the ring holds exactly the label hashes, each mapped to a valid shard, the later one on a collision |
| Sharding.InsertPermutes | concepts/02-scalability/python/sharding.py:154 | sorted insertion adds exactly the inserted point |
| Sharding.InsertSorted | concepts/02-scalability/python/sharding.py:154 | sorted insertion keeps a sorted list sorted |
| Sharding.SortIntsSorts | concepts/02-scalability/python/sharding.py:154 | `sorted_keys.sort()` yields a sorted permutation of the points |
| Sharding.SortedPointsInRing | concepts/02-scalability/python/sharding.py:143-154 | every sorted key is a point of the ring |
| Sharding.FirstAtLeast | concepts/02-scalability/python/sharding.py:161-163 | the scan stops at the first sorted key at least as large as the key's hash, or passes the end when there is none |
| Sharding.RingShardIsSuccessor | concepts/02-scalability/python/sharding.py:156-166 | on a non-empty ring the key goes to the shard of its successor point: the least point at or after its hash, wrapping round to the least point |
| Sharding.ConsistentHashing.constructor | concepts/02-scalability/python/sharding.py:130-137 | a new ring sharder has num_shards empty shards and a ring built for them |
| Sharding.ConsistentHashing.BuildRing | concepts/02-scalability/python/sharding.py:143-154 | the ring and the sorted keys are rebuilt from the labels of the current shard count; the shards are untouched |
| Sharding.ConsistentHashing.PlaceShard | concepts/02-scalability/python/sharding.py:149-152 | one pass of the outer loop adds one shard's points to the ring and to the key list |
| Sharding.ConsistentHashing.RoutesToSuccessor | concepts/02-scalability/python/sharding.py:156-166 | on a non-empty ring every key is routed to the shard of its successor point |
| Sharding.ConsistentHashing.GetShard | concepts/02-scalability/python/sharding.py:156-166 | returns the key's route: the successor's shard, or IndexError on an empty ring |
| Sharding.ConsistentHashing.Set | concepts/02-scalability/python/sharding.py:168-172 | stores the value in the routed shard and reports it; an empty ring or a routed shard that no longer exists raises and changes nothing; the ring and its sorted keys are never changed |
| Sharding.ConsistentHashing.Get | concepts/02-scalability/python/sharding.py:174-177 | reads the key from its routed shard; an empty ring or a missing routed shard raises |
| Sharding.ConsistentHashing.AddShard | concepts/02-scalability/python/sharding.py:179-185 | the new shard gets id num_shards, is empty, the count goes up by one and the ring is rebuilt for it |
| Sharding.ConsistentHashing.RemoveShard | concepts/02-scalability/python/sharding.py:187-199 | an unknown id changes nothing; otherwise it succeeds iff every key of the shard routes to that shard or to an existing shard, in which case every key routed elsewhere is copied to its new shard, the shard is deleted and the count drops by one, with the ring rebuilt for the old count before the decrement |
| Sharding.ConsistentHashing.DropShard | concepts/02-scalability/python/sharding.py:197-199 | deletes the shard and decrements the count after the ring rebuild |
| Sharding.ConsistentHashing.CopyOut | concepts/02-scalability/python/sharding.py:191-195 | the copy loop succeeds iff every key of the shard can be placed, and then every shard holds what it held plus the keys routed to it |
| Sharding.ConsistentHashing.CopyKey | concepts/02-scalability/python/sharding.py:192-195 | one iteration copies a key to its routed shard when that is another existing shard, skips it when routed to the same shard, and fails when the route fails |
| Caching.Without | concepts/02-scalability/python/cache_strategies.py:57-58 | removing a key from the access order keeps every other key and leaves an order without it unchanged |
| Caching.WithoutDistinct | concepts/02-scalability/python/cache_strategies.py:35 | removing a key keeps the access order free of duplicates and shortens it by one when the key was there |
| Caching.OrderSize | concepts/02-scalability/python/cache_strategies.py:15-19 | when the access order lists exactly the stored keys once each, the cache size equals the order's length |
| Caching.Ttl | concepts/02-scalability/python/cache_strategies.py:44-46 | `custom_ttl or ttl_seconds`: a missing or zero custom TTL falls back to the cache's TTL |
| Caching.DeleteKeepsInv | concepts/02-scalability/python/cache_strategies.py:60-64 | delete removes the key from the data and keeps every other key and the cache invariant (order lists the stored keys once each, size within max_size) |
| Caching.DeleteIdempotent | concepts/02-scalability/python/cache_strategies.py:60-64 | deleting a key twice is the same as deleting it once |
| Caching.EvictRemovesFirst | concepts/02-scalability/python/cache_strategies.py:66-70 | eviction removes exactly the first (least recently used) key of the access order and keeps the invariant |
| Caching.TouchKeepsInv | concepts/02-scalability/python/cache_strategies.py:52-58 | storing an entry and moving its key to the end of the order keeps the invariant when the key was present or there is room |
| Caching.MadeRoomFits | concepts/02-scalability/python/cache_strategies.py:48-50 | the eviction test leaves room for the key: nothing changes for a present key or a cache below max_size; a full cache loses its least recently used key |
| Caching.SetKeepsInv | concepts/02-scalability/python/cache_strategies.py:42-58 | set keeps the invariant, so the size never exceeds max_size, and leaves the key most recently used |
| Caching.SetEvictsOnlyWhenFull | concepts/02-scalability/python/cache_strategies.py:48-57 | set of a present key keeps the key set; of a new key into a full cache removes only the least recently used key and adds the new one; into a cache with room it only adds the new key |
| Caching.GetKeepsInv | concepts/02-scalability/python/cache_strategies.py:21-40 | get keeps the invariant; a hit keeps the data, makes the key most recently used and raises its access count by one |
| Caching.SetThenGet | concepts/02-scalability/python/cache_strategies.py:21-58 | a get after a set returns the value until the TTL has passed and None after |
| Caching.Cache.constructor | concepts/02-scalability/python/cache_strategies.py:14-19 | a new cache is empty |
| Caching.Cache.Get | concepts/02-scalability/python/cache_strategies.py:21-40 | the cache's new state and answer are those of the get step: a missing key is None, an expired key is deleted and None, otherwise the value with the access order and count updated |
| Caching.Cache.Set | concepts/02-scalability/python/cache_strategies.py:42-58 | the cache's new state is that of the set step |
| Caching.Cache.Delete | concepts/02-scalability/python/cache_strategies.py:60-64 | the cache's new state is that of the delete step |
| Caching.Cache.EvictLru | concepts/02-scalability/python/cache_strategies.py:66-70 | the cache's new state is that of the eviction step |
| Caching.Cache.Clear | concepts/02-scalability/python/cache_strategies.py:72-76 | the cache is empty |
| Caching.Cache.Size | concepts/02-scalability/python/cache_strategies.py:78-80 | the size is the number of stored keys and, for a positive max_size, at most max_size |
| Caching.MockDatabase.constructor | concepts/02-scalability/python/cache_strategies.py:86-88 | a new database is empty |
| Caching.MockDatabase.Get | concepts/02-scalability/python/cache_strategies.py:90-93 | returns the stored value or None |
| Caching.MockDatabase.Set | concepts/02-scalability/python/cache_strategies.py:95-99 | stores the value |
| Caching.MockDatabase.Delete | concepts/02-scalability/python/cache_strategies.py:101-105 | removes the key |
| Caching.CacheAside.constructor | concepts/02-scalability/python/cache_strategies.py:110-112 | keeps the cache and database |
| Caching.CacheAside.Get | concepts/02-scalability/python/cache_strategies.py:114-130 | a cache hit is returned as is; on a miss the database value is returned and, when present, stored in the cache with the default TTL; the database never changes |
| Caching.LastWriteTo | concepts/02-scalability/python/cache_strategies.py:257-262 | finds the last queued write to a key, with no later write to it |
| Caching.LastWriteWins | concepts/02-scalability/python/cache_strategies.py:248-266 | after a flush each key holds the outcome of its last queued write (the value for a set, absent for a delete), or its old value when nothing was queued for it |
| Caching.WriteBehind.constructor | concepts/02-scalability/python/cache_strategies.py:190-199 | a new write-behind store has an empty queue and is not flushing |
| Caching.WriteBehind.Set | concepts/02-scalability/python/cache_strategies.py:224-236 | the value is set in the cache at once and a write is queued at the end; the value is returned |
| Caching.WriteBehind.Delete | concepts/02-scalability/python/cache_strategies.py:238-246 | the key is deleted from the cache at once and a deletion is queued at the end |
| Caching.WriteBehind.Flush | concepts/02-scalability/python/cache_strategies.py:248-266 | a flush while flushing or with an empty queue does nothing; otherwise the queue is emptied and the database receives every queued write in order |
| CircuitBreaking.After | concepts/03-reliability/python/circuit_breaker.py:105-109 | pruning keeps exactly the records newer than the cutoff, in order |
| CircuitBreaking.ExecuteKeepsInv | concepts/03-reliability/python/circuit_breaker.py:36-103 | every call keeps the breaker's invariant: counts non-negative, a closed breaker has fewer failures than the threshold (at least one), a half-open one has fewer than two successes, an open breaker has a next attempt time |
| CircuitBreaking.InitialInv | concepts/03-reliability/python/circuit_breaker.py:21-34 | a new or reset breaker satisfies the invariant |
| CircuitBreaking.ClosedTransitions | concepts/03-reliability/python/circuit_breaker.py:58-95 | when closed, a success zeroes the failure count and stays closed; a failure adds one to the count and opens the breaker, with the next attempt reset_timeout later, iff the count reaches failure_threshold |
| CircuitBreaking.OpenRejects | concepts/03-reliability/python/circuit_breaker.py:36-43 | an open breaker before its next attempt time raises "Circuit breaker is OPEN" without calling the function and without changing state |
| CircuitBreaking.OpenToHalfOpen | concepts/03-reliability/python/circuit_breaker.py:97-103 | an open breaker at or after its next attempt time becomes half-open with the success count zeroed, and lets the call through |
| CircuitBreaking.HalfOpenTransitions | concepts/03-reliability/python/circuit_breaker.py:64-89 | when half-open, any failure reopens the breaker with a new next attempt time; the first success stays half-open and the second closes it with both counts zeroed |
| CircuitBreaking.TwoSuccessesClose | concepts/03-reliability/python/circuit_breaker.py:64-71 | two successes in a row close a half-open breaker |
| CircuitBreaking.CircuitBreaker.constructor | concepts/03-reliability/python/circuit_breaker.py:21-34 | a new breaker is closed with zero counts, no times and no records |
| CircuitBreaking.CircuitBreaker.Execute | concepts/03-reliability/python/circuit_breaker.py:36-56 | the breaker's new state, the result and whether the function was called are those of the execute step, and the invariant is kept |
| CircuitBreaking.CircuitBreaker.OnSuccessNow | concepts/03-reliability/python/circuit_breaker.py:58-74 | the new state is that of the success step |
| CircuitBreaking.CircuitBreaker.OnFailureNow | concepts/03-reliability/python/circuit_breaker.py:76-95 | the new state is that of the failure step |
| CircuitBreaking.CircuitBreaker.CheckStateNow | concepts/03-reliability/python/circuit_breaker.py:97-103 | the new state is that of the state check |
| CircuitBreaking.CircuitBreaker.CleanOldRecords | concepts/03-reliability/python/circuit_breaker.py:105-109 | the new state is that of the pruning step |
| CircuitBreaking.CircuitBreaker.Reset | concepts/03-reliability/python/circuit_breaker.py:140-149 | the breaker is back to its initial state |
| CircuitBreaking.Pow2 | concepts/03-reliability/python/circuit_breaker.py:185 | `2 ** attempt` is at least 1 |
| CircuitBreaking.CalculateDelay | concepts/03-reliability/python/circuit_breaker.py:182-195 | the delay is never negative; without jitter it is min(base_delay * 2 ** attempt, max_delay), floored at 0 |
| CircuitBreaking.DelayMonotone | concepts/03-reliability/python/circuit_breaker.py:182-195 | without jitter a later attempt never waits less, no attempt waits more than a non-negative max_delay, and a negative base delay always waits 0 |
| CircuitBreaking.Pow2Monotone | concepts/03-reliability/python/circuit_breaker.py:185 | `2 ** a <= 2 ** b` for a <= b |
| CircuitBreaking.FirstSuccess | concepts/03-reliability/python/circuit_breaker.py:166-171 | finds the first successful attempt, all attempts before it failing |
| CircuitBreaking.RetryWithBackoff.constructor | concepts/03-reliability/python/circuit_breaker.py:155-160 | keeps the retry settings |
| CircuitBreaking.RetryWithBackoff.Execute | concepts/03-reliability/python/circuit_breaker.py:162-180 | at most max_retries + 1 calls are made, stopping at the first success; the result is that success or the last failure; one delay is computed before each retry, never after the last attempt; with no attempt at all Python's `raise None` surfaces as a TypeError |
| RateLimiting.TruncDiv | concepts/07-communication/python/rate_limiter.py:92 | Python's `int(now / window_size)` truncates toward zero, for negative times too |
| RateLimiting.LeakyBucket.constructor | concepts/07-communication/python/rate_limiter.py:47-51 | a new bucket is empty, with its last leak at the current time |
| RateLimiting.LeakyBucket.LeakCount | concepts/07-communication/python/rate_limiter.py:66-70 | the number leaked is `int(elapsed * leak_rate)`, capped at the queue length |
| RateLimiting.LeakyBucket.Leak | concepts/07-communication/python/rate_limiter.py:63-73 | the oldest requests are removed, as many as the leak count (none when it is negative), and the last leak time becomes now; the bucket never exceeds its capacity |
| RateLimiting.LeakyBucket.TryAdd | concepts/07-communication/python/rate_limiter.py:53-61 | after leaking, a request is admitted iff the queue is below capacity, and then queued; the answer reports the queue size |
| RateLimiting.LeakyBucket.GetQueueSize | concepts/07-communication/python/rate_limiter.py:75-78 | after leaking, returns the queue size, which is at most the capacity |
| RateLimiting.CurrentWindow | concepts/07-communication/python/rate_limiter.py:89-92 | `int(now / window_size) * int(window_size)`: a window size of 0 raises "float division by zero", and a size strictly between 0 and 1 puts every instant in window 0 |
| RateLimiting.RealQuotientFloor | concepts/07-communication/python/rate_limiter.py:92 | the float quotient of two integers rounds down to their integer quotient |
| RateLimiting.WholeWindow | concepts/07-communication/python/rate_limiter.py:89-92 | for a whole window of n seconds the window start is `int(now / n) * n` computed on integers, truncating toward zero |
| RateLimiting.WholeWindowBounds | concepts/07-communication/python/rate_limiter.py:89-92 | for a whole window of n seconds a non-negative time lies in a window that starts at or after 0 and less than n seconds before it |
| RateLimiting.WindowBounds | concepts/07-communication/python/rate_limiter.py:89-92 | the floor quotient of a non-negative time places it inside its window |
| RateLimiting.SameWindow | concepts/07-communication/python/rate_limiter.py:89-92 | with a whole window of n seconds, every time within a window maps to that window's start |
| RateLimiting.Kept | concepts/07-communication/python/rate_limiter.py:110-118 | cleanup keeps exactly the windows starting at or after current window - window_size, with their counts |
| RateLimiting.SubSecondWindowNeverResets | concepts/07-communication/python/rate_limiter.py:89-118 | with a window size strictly between 0 and 1 every instant is in window 0 and cleanup always keeps that window's count, so the limiter never resets |
| RateLimiting.FixedWindow.constructor | concepts/07-communication/python/rate_limiter.py:84-87 | a new limiter has no windows |
| RateLimiting.FixedWindow.Cleanup | concepts/07-communication/python/rate_limiter.py:110-118 | the windows become those cleanup keeps for the current window; a window size of 0 raises with the windows unchanged |
| RateLimiting.FixedWindow.TryRequest | concepts/07-communication/python/rate_limiter.py:94-108 | after cleanup, a request is allowed iff the current window's count is below max_requests, which then goes up by one, with remaining = max_requests - count - 1; a denial reports 0 remaining and changes no count; a window size of 0 raises before anything changes |
| RateLimiting.FixedWindow.GetCount | concepts/07-communication/python/rate_limiter.py:120-124 | after cleanup, returns the current window's count (0 when absent), never above max_requests; a window size of 0 raises with the windows unchanged |
| RateLimiting.InWindow | concepts/07-communication/python/rate_limiter.py:140-143 | the filter keeps exactly the timestamps less than window_size old, in order |
| RateLimiting.InWindowIdempotent | concepts/07-communication/python/rate_limiter.py:140-143 | filtering twice at the same time is filtering once |
| RateLimiting.InWindowLater | concepts/07-communication/python/rate_limiter.py:140-143 | filtering at an earlier time and then at a later one equals filtering at the later one |
| RateLimiting.SlidingWindow.constructor | concepts/07-communication/python/rate_limiter.py:130-133 | a new limiter has no requests |
| RateLimiting.SlidingWindow.TryRequest | concepts/07-communication/python/rate_limiter.py:135-164 | after filtering, a request is allowed iff fewer than max_requests remain, and then recorded with remaining = max_requests - count - 1; a denial changes nothing further and reports retry_after = max(0, int(window_size - age of the oldest request)), or 0 with no requests |
| RateLimiting.SlidingWindow.GetCount | concepts/07-communication/python/rate_limiter.py:166-173 | the requests become the filtered list and its length is returned |
| InputValidation.Replace | concepts/08-security/python/input_validation.py:128 | `str.replace` leaves a string without the needle's first character unchanged and introduces no character from outside the string and the replacement |
| InputValidation.LStrip | concepts/08-security/python/input_validation.py:148 | `lstrip` returns a suffix that does not start with a stripped character |
| InputValidation.RStrip | concepts/08-security/python/input_validation.py:148 | `rstrip` returns a prefix that does not end with a stripped character |
| InputValidation.StripProperties | concepts/08-security/python/input_validation.py:43 | `strip()` returns a slice of the input that neither starts nor ends with whitespace (every character `str.isspace` accepts, Unicode spaces and separators included), and stripping again changes nothing |
| InputValidation.AllSpaceIsEmpty | concepts/08-security/python/input_validation.py:43-47 | an input made only of whitespace strips to nothing and the defaults refuse it with "Input cannot be empty" |
| InputValidation.UnicodeSpaceIsEmpty | concepts/08-security/python/input_validation.py:43-47 | a no-break space, an ideographic space and a line separator together are refused as empty |
| InputValidation.RemoveChars | concepts/08-security/python/input_validation.py:151 | removing a character class keeps exactly the characters outside it and never lengthens the string |
| InputValidation.RemoveCharsIdempotent | concepts/08-security/python/input_validation.py:151 | removing a character class twice is the same as removing it once |
| InputValidation.ValidateString | concepts/08-security/python/input_validation.py:31-60 | the input is valid iff its stripped form is non-empty (unless empty is allowed), has a length within min_length … max_length, matches the pattern when one is given and is in the whitelist when one is given; a valid input is returned stripped; an empty one is refused with "Input cannot be empty" |
| InputValidation.ValidateStringDefaults | concepts/08-security/python/input_validation.py:36-60 | with no options an input is valid iff its stripped form has 1 to 1000 characters |
| InputValidation.ValidateStringIdempotent | concepts/08-security/python/input_validation.py:31-60 | validating the sanitized output again gives the same answer |
| InputValidation.ReplaceCharConcat | concepts/08-security/python/input_validation.py:127-128 | replacing one character distributes over concatenation |
| InputValidation.ReplaceAllConcat | concepts/08-security/python/input_validation.py:127-128 | the entity-map loop distributes over concatenation |
| InputValidation.ReplaceAllIsPerChar | concepts/08-security/python/input_validation.py:126-129 | the entity-map loop equals replacing each input character in turn by its successive replacements |
| InputValidation.Escaped | concepts/08-security/python/input_validation.py:117-130 | the escaped text contains none of `< > " ' /`; an ampersand remains, as the first character of each entity |
| InputValidation.ReplaceAllAbsent | concepts/08-security/python/input_validation.py:127-128 | the loop leaves a string without any mapped character unchanged |
| InputValidation.ReplaceAllOnChar | concepts/08-security/python/input_validation.py:127-128 | on a single mapped character the loop yields that character's entity, provided no later entity reintroduces it |
| InputValidation.HtmlTableOnChar | concepts/08-security/python/input_validation.py:117-124 | each of the six characters becomes exactly its entity: `&` is replaced first, so the later entities are not escaped twice |
| InputValidation.EscapeHtmlIsEscaped | concepts/08-security/python/input_validation.py:218-236 | `escape_html` maps every character to its entity (apostrophe as `&#39;`) and its output has no special character |
| InputValidation.PerCharIsEscaped | concepts/08-security/python/input_validation.py:126-129 | per-character replacement by the entity table is the character-wise escape |
| InputValidation.IndexOf | concepts/08-security/python/input_validation.py:114 | finds the first occurrence of a character |
| InputValidation.StripTags | concepts/08-security/python/input_validation.py:114 | removing `<[^>]*>` keeps only input characters and leaves no complete tag |
| InputValidation.SanitizeHtmlIsEscaped | concepts/08-security/python/input_validation.py:108-130 | `sanitize_html` is the escape (apostrophe as `&#x27;`) of the tag-stripped input, so it contains no special character |
| InputValidation.SqlEscaped | concepts/08-security/python/input_validation.py:139 | the character-wise SQL escape never contains `;` |
| InputValidation.SanitizeSqlIsEscaped | concepts/08-security/python/input_validation.py:133-139 | `sanitize_sql` doubles quotes and backslashes and deletes semicolons, character by character, so no `;` survives |
| InputValidation.PerCharIsSqlEscaped | concepts/08-security/python/input_validation.py:139 | the three chained replacements act character by character |
| InputValidation.SanitizeCommand | concepts/08-security/python/input_validation.py:156-162 | `sanitize_command` keeps exactly the characters other than `;`, `&`, the vertical bar, the backquote, `$`, `(`, `)`, `{`, `}`, `[`, `]`, line feed and carriage return, and never lengthens the input |
| InputValidation.RemoveCharsIsSubsequence | concepts/08-security/python/input_validation.py:151 | removing characters keeps the rest in their original order |
| InputValidation.SanitizePathAsWrittenLeavesDotDot | concepts/08-security/python/input_validation.py:142-153 | as written, `sanitize_path(".<.")` is `..`: the dangerous-character removal runs after the traversal removal and joins two dots |
| InputValidation.RemoveCharsDotLtDot | concepts/08-security/python/input_validation.py:151 | removing the dangerous characters from `.<.` leaves `..` |
| InputValidation.TrimTraversalDotLtDot | concepts/08-security/python/input_validation.py:148 | the traversal clean-up leaves `.<.` unchanged |
| InputValidation.DropDotDot | concepts/08-security/python/input_validation.py:148 | one pass of `replace('..', '')` leaves no two adjacent dots |
| InputValidation.CollapseKeepsNoDotDot | concepts/08-security/python/input_validation.py:148 | collapsing `//` to `/` does not create `..` |
| InputValidation.SliceOfSuffix | concepts/08-security/python/input_validation.py:148 | a prefix of a suffix is a slice |
| InputValidation.SanitizePathNoPathChar | concepts/08-security/python/input_validation.py:151 | the corrected sanitizer's output has no dangerous character |
| InputValidation.NoDotDotInside | concepts/08-security/python/input_validation.py:148 | a slice of a string without `..` has none |
| InputValidation.TrimKeepsNoDotDot | concepts/08-security/python/input_validation.py:148 | stripping slashes does not create `..` |
| InputValidation.SanitizePathNoDotDot | concepts/08-security/python/input_validation.py:142-153 | the corrected sanitizer's output has no `..` |
| InputValidation.SanitizePathSafe | concepts/08-security/python/input_validation.py:142-153 | with the dangerous characters removed first, the path sanitizer's output has neither a dangerous character nor a `..` |
| InputValidation.BuildParameterizedQuery | concepts/08-security/python/input_validation.py:169-185 | each `:key` is replaced by `$i` for the key's 1-based position, in insertion order; the values are listed in the same order; the result is marked safe |
| InputValidation.NoColonUnchanged | concepts/08-security/python/input_validation.py:175-177 | a query without `:` is returned unchanged whatever the parameters |
| InputValidation.CsrfProtection.constructor | concepts/08-security/python/input_validation.py:267-268 | a new protector holds no tokens |
| InputValidation.CsrfProtection.GenerateToken | concepts/08-security/python/input_validation.py:270-277 | the supplied token is stored for the session, expiring one hour later, replacing any earlier one, and returned |
| InputValidation.CsrfProtection.ValidateToken | concepts/08-security/python/input_validation.py:279-293 | a session without a token fails with "No token found for session"; an expired token is deleted and fails with "Token expired"; otherwise the token is valid iff it equals the stored one ("Invalid token" if not), with nothing changed |
| InputValidation.CsrfProtection.Cleanup | concepts/08-security/python/input_validation.py:295-303 | exactly the expired tokens are removed; the others are kept unchanged |
| Logging.LevelValue | concepts/09-monitoring/python/logging.py:12-18 | each level's number lies in 0 … 4 |
| Logging.LevelOrder | concepts/09-monitoring/python/logging.py:12-18 | the level numbers are distinct, one per level, and ordered DEBUG < INFO < WARN < ERROR < FATAL; equal numbers carry equal names |
| Logging.OrGenerated | concepts/09-monitoring/python/logging.py:43-44 | a trace or span id given (non-empty) in the metadata is kept; otherwise the generated one is used |
| Logging.Stored | concepts/09-monitoring/python/logging.py:63-66 | appending to the buffer keeps at most max_logs entries: below the limit the entry is appended, at the limit the oldest is dropped, and with a limit of 0 or less nothing is kept |
| Logging.AtLeast | concepts/09-monitoring/python/logging.py:133-134 | the level filter keeps exactly the entries at or above the level |
| Logging.AtLeastConcat | concepts/09-monitoring/python/logging.py:133-134 | the level filter distributes over concatenation, so it keeps the order |
| Logging.QueryLimit | concepts/09-monitoring/python/logging.py:136-137 | `filtered[-limit:]`: a limit of 0 returns everything, a positive limit the last limit entries, and a limit beyond the length everything |
| Logging.LastLoggedFirstReturned | concepts/09-monitoring/python/logging.py:55-71 | the entry just logged is what `get_logs(level, 1)` returns, for any level it meets |
| Logging.StructuredLogger.constructor | concepts/09-monitoring/python/logging.py:24-30 | the configuration is kept and the buffer is empty |
| Logging.StructuredLogger.CreateLogEntry | concepts/09-monitoring/python/logging.py:32-45 | the entry carries the level's name and number, the service, environment and message, and the metadata's trace and span ids when given, else generated ones |
| Logging.StructuredLogger.Log | concepts/09-monitoring/python/logging.py:55-71 | a level below min_level returns None and stores nothing; otherwise the new entry is returned and stored in the bounded buffer |
| Logging.StructuredLogger.GetLogs | concepts/09-monitoring/python/logging.py:129-139 | a level filter keeps exactly the entries at or above it; a positive limit returns at most limit entries; a zero limit without a level returns everything |
| Logging.StructuredLogger.ClearLogs | concepts/09-monitoring/python/logging.py:145-147 | the buffer is empty |
| Messaging.RemoveFirst | concepts/07-communication/python/message_queue.py:53-55 | unsubscribing removes one occurrence of the callback when present and changes nothing otherwise |
| Messaging.UnsubscribeTwice | concepts/07-communication/python/message_queue.py:49-57 | for a callback subscribed once, unsubscribing removes it, and calling the unsubscriber again changes nothing |
| Messaging.Published | concepts/07-communication/python/message_queue.py:31-42 | the new message is last; below 1000 messages it is appended, at 1000 the oldest is dropped first, so the topic never holds more than 1000 |
| Messaging.PublishedKeepsOrder | concepts/07-communication/python/message_queue.py:31-42 | publishing keeps the newest earlier messages in their order before the new one |
| Messaging.MessageQueue.constructor | concepts/07-communication/python/message_queue.py:25-29 | a new topic has no messages and no subscribers |
| Messaging.MessageQueue.Publish | concepts/07-communication/python/message_queue.py:31-47 | the message is built with zero attempts and stored in the bounded list; every subscriber is called in order and one that raises is reported without stopping the others |
| Messaging.MessageQueue.NotifySubscribers | concepts/07-communication/python/message_queue.py:59-65 | every subscriber is called, in order; exactly the raising ones fail |
| Messaging.MessageQueue.Subscribe | concepts/07-communication/python/message_queue.py:49-51 | the callback is appended to the subscribers |
| Messaging.MessageQueue.Unsubscribe | concepts/07-communication/python/message_queue.py:53-55 | the returned unsubscriber removes the first occurrence of the callback, if any |
| Messaging.MessageQueue.GetMessages | concepts/07-communication/python/message_queue.py:67-71 | no or zero limit returns every message; a positive limit the newest limit messages; always a suffix of the list |
| Messaging.MessageQueue.Clear | concepts/07-communication/python/message_queue.py:73-75 | the messages are removed and the subscribers kept |
| Messaging.PubSubSystem.constructor | concepts/07-communication/python/message_queue.py:81-82 | a new system has no topics |
| Messaging.PubSubSystem.GetTopic | concepts/07-communication/python/message_queue.py:84-88 | an existing topic is returned unchanged; a new name gets a new empty topic of that name |
| Messaging.PubSubSystem.Publish | concepts/07-communication/python/message_queue.py:90-93 | the message is published on the named topic, created empty if needed; the topic's subscribers and every other topic are unchanged |
| Messaging.PubSubSystem.Subscribe | concepts/07-communication/python/message_queue.py:95-98 | the callback is appended to the named topic's subscribers, the topic being created empty if needed; its messages and every other topic are unchanged |
| Messaging.BudgetAppend | concepts/07-communication/python/message_queue.py:155-159 | a requeued message adds its remaining attempts to the queue's retry budget |
| Messaging.Retry | concepts/07-communication/python/message_queue.py:155 | a failed attempt keeps the message's id and adds one to its attempts |
| Messaging.BudgetNonNegative | concepts/07-communication/python/message_queue.py:155-161 | a queue of retriable messages has at least one attempt left per message |
| Messaging.Ids | concepts/07-communication/python/message_queue.py:144 | lists the identifiers of the queued messages |
| Messaging.IdsAppend | concepts/07-communication/python/message_queue.py:159 | requeueing adds the message's id |
| Messaging.IdsFront | concepts/07-communication/python/message_queue.py:144 | popping removes the first message's id |
| Messaging.PopBudget | concepts/07-communication/python/message_queue.py:144 | popping lowers the retry budget |
| Messaging.RequeueBudget | concepts/07-communication/python/message_queue.py:155-159 | popping a message and requeueing it with one more attempt still lowers the budget, so the loop ends |
| Messaging.DeliverAccounted | concepts/07-communication/python/message_queue.py:144-152 | a delivered message stays accounted for |
| Messaging.RequeueAccounted | concepts/07-communication/python/message_queue.py:155-159 | a requeued message stays accounted for |
| Messaging.DropAccounted | concepts/07-communication/python/message_queue.py:155-161 | a dropped message stays accounted for |
| Messaging.PointToPointQueue.constructor | concepts/07-communication/python/message_queue.py:108-113 | a new queue is empty, has no consumers and is not processing |
| Messaging.PointToPointQueue.Send | concepts/07-communication/python/message_queue.py:115-129 | a full queue (1000 messages) raises "Queue is full" and changes nothing; otherwise a message with zero attempts is appended and returned |
| Messaging.PointToPointQueue.RegisterConsumer | concepts/07-communication/python/message_queue.py:131-134 | the consumer is appended |
| Messaging.PointToPointQueue.ProcessQueue | concepts/07-communication/python/message_queue.py:136-163 | while processing, with an empty queue or without consumers nothing happens; otherwise the queue ends empty: every call went to the first consumer, a message is delivered iff a call with it succeeded, a message is dropped only after the call at its third attempt failed, and the identifiers delivered or dropped are exactly those of the original queue, each once |
| Messaging.PointToPointQueue.Drain | concepts/07-communication/python/message_queue.py:143-161 | the loop ends with an empty queue; every call went to the consumer, a message is delivered iff a call with it succeeded, a dropped message failed the call at its third attempt, and every original message is delivered or dropped |
| Messaging.PointToPointQueue.TakeTurn | concepts/07-communication/python/message_queue.py:144-161 | one iteration pops the head and calls the consumer: success delivers it; failure with fewer than three attempts requeues it with one more attempt; the third failure drops it; the retry budget strictly decreases |
| Messaging.PointToPointQueue.DeliverKeepsDrained | concepts/07-communication/python/message_queue.py:144-152 | delivering the head keeps the loop invariant |
| Messaging.PointToPointQueue.DeliverLogged | concepts/07-communication/python/message_queue.py:144-152 | delivering the head keeps the call log consistent |
| Messaging.PointToPointQueue.RequeueKeepsDrained | concepts/07-communication/python/message_queue.py:155-159 | requeueing a head that failed before its third attempt keeps the loop invariant |
| Messaging.PointToPointQueue.RequeueLogged | concepts/07-communication/python/message_queue.py:155-159 | requeueing a head that failed before its third attempt keeps the call log consistent |
| Messaging.PointToPointQueue.DropKeepsDrained | concepts/07-communication/python/message_queue.py:155-161 | dropping a head that failed at its third attempt keeps the loop invariant |
| Messaging.PointToPointQueue.DropLogged | concepts/07-communication/python/message_queue.py:155-161 | dropping a head that failed at its third attempt keeps the call log consistent |
| Messaging.PointToPointQueue.GetSize | concepts/07-communication/python/message_queue.py:165-167 | returns the queue length |
| Microservices.ServiceRegistry.constructor | concepts/06-architecture-patterns/python/microservices.py:26-28 | a new registry has no services |
| Microservices.ServiceRegistry.Register | concepts/06-architecture-patterns/python/microservices.py:30-41 | the service is stored under its name, replacing any earlier entry, healthy, with version "1.0.0" and no endpoints unless given, registered and heartbeating now |
| Microservices.ServiceRegistry.Deregister | concepts/06-architecture-patterns/python/microservices.py:43-50 | returns true iff the name was registered; the name is gone afterwards, and its health-check entry with it |
| Microservices.ServiceRegistry.Discover | concepts/06-architecture-patterns/python/microservices.py:52-57 | a service is found iff it is registered and healthy, and then the registered entry is returned |
| Microservices.ServiceRegistry.UpdateHeartbeat | concepts/06-architecture-patterns/python/microservices.py:66-70 | a registered service's last heartbeat becomes now and nothing else changes; an unknown name changes nothing |
| Microservices.ServiceRegistry.MarkUnhealthy | concepts/06-architecture-patterns/python/microservices.py:72-77 | a registered service becomes unhealthy and nothing else changes; an unknown name changes nothing |
| Microservices.ServiceRegistry.CleanupStaleServices | concepts/06-architecture-patterns/python/microservices.py:79-84 | exactly the services whose last heartbeat is more than timeout old become unhealthy; no service is removed |
| Microservices.CleanupDiscovery | concepts/06-architecture-patterns/python/microservices.py:52-84 | after the stale cleanup a service is discoverable iff it was healthy and its heartbeat is within the timeout |
| Microservices.FirstSuccessful | concepts/06-architecture-patterns/python/microservices.py:123-127 | finds the first successful attempt among the first n |
| Microservices.APIGateway.constructor | concepts/06-architecture-patterns/python/microservices.py:138-141 | a new gateway has no routes |
| Microservices.APIGateway.RegisterRoute | concepts/06-architecture-patterns/python/microservices.py:143-146 | the path is routed to the service endpoint, replacing any earlier route |
| Microservices.APIGateway.Call | concepts/06-architecture-patterns/python/microservices.py:94-117 | an undiscoverable service raises "Service … not found or unhealthy"; otherwise a successful simulated call returns the service, endpoint and time, and a failed one raises "Service … call failed" |
| Microservices.APIGateway.CallWithRetry | concepts/06-architecture-patterns/python/microservices.py:119-132 | with a zero or negative count no attempt is made and the raise of None surfaces as a TypeError; an undiscoverable service re-raises its error; otherwise the call succeeds iff one of the max_retries attempts succeeds, else the last failure is raised |
| Microservices.APIGateway.HandleRequest | concepts/06-architecture-patterns/python/microservices.py:148-172 | an unknown path gets 404 "Route not found"; a routed path gets 200 iff the service is discoverable and one of three attempts succeeds, and 503 otherwise |
| ConnectionPooling.InUseIdsConcat | concepts/04-performance/python/connection_pool.py:83-84 | the in-use ids of two lists are the union of theirs |
| ConnectionPooling.NotInUseIds | concepts/04-performance/python/connection_pool.py:31 | an id not in the pool is not in use |
| ConnectionPooling.InUseIdsSplit | concepts/04-performance/python/connection_pool.py:81-83 | with distinct ids, a connection contributes its id to the in-use set iff it is in use |
| ConnectionPooling.DistinctAround | concepts/04-performance/python/connection_pool.py:30 | a pool with distinct ids splits around one connection whose id occurs nowhere else |
| ConnectionPooling.InUseIdsUpdate | concepts/04-performance/python/connection_pool.py:81-83 | flipping one connection's flag adds or removes exactly its id from the in-use set |
| ConnectionPooling.InUseIdsRemove | concepts/04-performance/python/connection_pool.py:120-122 | removing a connection removes exactly its id from the in-use set |
| ConnectionPooling.IdleCount | concepts/04-performance/python/connection_pool.py:160 | `len(pool) - len(active)` is the number of idle connections, because active holds exactly the ids of the connections in use |
| ConnectionPooling.FirstIdle | concepts/04-performance/python/connection_pool.py:74 | finds the first idle connection, or reports that all are in use |
| ConnectionPooling.IndexOfId | concepts/04-performance/python/connection_pool.py:97 | finds the connection with the given id, or reports it absent |
| ConnectionPooling.Without | concepts/04-performance/python/connection_pool.py:120-121 | removing connections never lengthens the pool |
| ConnectionPooling.WithoutMember | concepts/04-performance/python/connection_pool.py:120-121 | a kept connection was in the pool and not marked for removal |
| ConnectionPooling.WithoutNothing | concepts/04-performance/python/connection_pool.py:151-152 | removing no id changes nothing |
| ConnectionPooling.WithoutAbsent | concepts/04-performance/python/connection_pool.py:120 | destroying a connection not in the pool changes nothing |
| ConnectionPooling.WithoutConcat | concepts/04-performance/python/connection_pool.py:151-152 | removal distributes over concatenation |
| ConnectionPooling.WithoutOne | concepts/04-performance/python/connection_pool.py:120-121 | removing an id that occurs once removes exactly that connection |
| ConnectionPooling.RemoveIsWithout | concepts/04-performance/python/connection_pool.py:120-121 | `pool.remove` of a connection is removal of its id |
| ConnectionPooling.RemoveKeepsIds | concepts/04-performance/python/connection_pool.py:120-121 | removing a connection keeps the ids distinct and bounded |
| ConnectionPooling.WithoutTwice | concepts/04-performance/python/connection_pool.py:151-152 | destroying one id after a set of ids is destroying their union |
| ConnectionPooling.PrefixSetStep | concepts/04-performance/python/connection_pool.py:151-152 | one more collected id extends the destroyed set by it |
| ConnectionPooling.PrefixSetAll | concepts/04-performance/python/connection_pool.py:151-152 | after the destroy loop the destroyed set is every collected id |
| ConnectionPooling.DoomedIdsHas | concepts/04-performance/python/connection_pool.py:136-149 | every connection meeting a destroy condition is collected |
| ConnectionPooling.DoomedIdsFrom | concepts/04-performance/python/connection_pool.py:136-149 | only connections meeting a destroy condition are collected |
| ConnectionPooling.WithoutKeeps | concepts/04-performance/python/connection_pool.py:151-152 | a connection not collected survives the cleanup |
| ConnectionPooling.CleanupKeepsInUse | concepts/04-performance/python/connection_pool.py:137-138 | the cleanup never destroys a connection in use |
| ConnectionPooling.CleanupDestroysDoomed | concepts/04-performance/python/connection_pool.py:140-152 | the cleanup destroys every idle connection older than max_lifetime, and every one idle longer than idle_timeout while the pool was above min_size |
| ConnectionPooling.CleanupCanEmptyPool | concepts/04-performance/python/connection_pool.py:143-152 | the size test is made before any removal, so the cleanup can leave the pool below min_size: three stale idle connections under a minimum of two are all destroyed |
| ConnectionPooling.ConnectionPool.constructor | concepts/04-performance/python/connection_pool.py:24-41 | a new pool is empty with all counters zero |
| ConnectionPooling.ConnectionPool.CreateConnection | concepts/04-performance/python/connection_pool.py:51-66 | a new idle connection is appended and the created counter goes up by one |
| ConnectionPooling.ConnectionPool.Initialize | concepts/04-performance/python/connection_pool.py:43-46 | the pool gets min_size idle connections |
| ConnectionPooling.ConnectionPool.Acquire | concepts/04-performance/python/connection_pool.py:68-85 | one attempt: the first idle connection is taken, or a new one is created while below max_size; it is marked in use, its id joins active and acquired goes up by one; with none available and the pool full nothing changes |
| ConnectionPooling.ConnectionPool.Release | concepts/04-performance/python/connection_pool.py:95-103 | a connection in the pool becomes idle, leaves active, and released goes up by one; one not in the pool changes nothing |
| ConnectionPooling.ConnectionPool.Destroy | concepts/04-performance/python/connection_pool.py:118-123 | the connection leaves the pool and active; destroyed goes up by one iff it was in the pool, that is by the number of connections removed |
| ConnectionPooling.ConnectionPool.Cleanup | concepts/04-performance/python/connection_pool.py:131-152 | the pool loses exactly the connections collected by the destroy conditions, measured on the pool before the cleanup, and the destroyed counter grows by the number of connections removed |
| ConnectionPooling.ConnectionPool.CollectDoomed | concepts/04-performance/python/connection_pool.py:134-149 | collects exactly the ids that meet a destroy condition |
| ConnectionPooling.ConnectionPool.DestroyAll | concepts/04-performance/python/connection_pool.py:151-152 | destroys every collected id; the destroyed counter grows by the number of connections removed |
| ConnectionPooling.ConnectionPool.GetStats | concepts/04-performance/python/connection_pool.py:154-164 | reports the pool size, the number of active ids, the idle count as the number of idle connections, and no waiting request |
| BatchProcessing.Items | concepts/04-performance/python/batch_processing.py:79 | lists the items of the batch entries, in order |
| BatchProcessing.BatchProcessor.constructor | concepts/04-performance/python/batch_processing.py:21-34 | a new processor has an empty batch, is not processing and has zero counters |
| BatchProcessing.BatchProcessor.ProcessBatch | concepts/04-performance/python/batch_processing.py:56-71 | every entry yields a success result for its item, in order, and processed goes up by the batch length; nothing else changes |
| BatchProcessing.BatchProcessor.Flush | concepts/04-performance/python/batch_processing.py:73-87 | while processing or with an empty batch it returns None and changes nothing; otherwise the whole batch is processed in order, the batch is emptied, batches goes up by one and processing is false again |
| BatchProcessing.BatchProcessor.Add | concepts/04-performance/python/batch_processing.py:45-54 | the item is appended; when the batch reaches batch_size it is flushed at once, otherwise it waits |
| BatchProcessing.BatchProcessor.GetStats | concepts/04-performance/python/batch_processing.py:89-95 | reports the pending items and the processing flag; between calls fewer than batch_size items are pending and nothing is processing |
| BatchProcessing.BatchInsert | concepts/04-performance/python/batch_processing.py:111-122 | one record per item, each marked inserted and holding every key of its item; an item's own id wins over the generated one (clock + position) |
| BatchProcessing.GeneratedIdsIncrease | concepts/04-performance/python/batch_processing.py:119-121 | generated ids increase along the batch when the clock does not go backwards |
| BatchProcessing.BatchUpdate | concepts/04-performance/python/batch_processing.py:124-135 | one record per update, each holding the update's keys, marked updated with the clock's time |
| BatchProcessing.BatchDelete | concepts/04-performance/python/batch_processing.py:137-145 | one record per id, holding the id and marked deleted |
| AcidTransaction.TransferStep | concepts/01-fundamental-concepts/python/acid_transaction.py:46-69 | the transfer succeeds iff both accounts exist, the source balance covers the amount, neither account is locked and the two accounts differ (the second lock on the same account fails) |
| AcidTransaction.TotalRemove | concepts/01-fundamental-concepts/python/acid_transaction.py:15 | the total of the balances splits off any one account |
| AcidTransaction.TotalUpdate | concepts/01-fundamental-concepts/python/acid_transaction.py:68-69 | changing one balance changes the total by the difference |
| AcidTransaction.TransferPreservesTotal | concepts/01-fundamental-concepts/python/acid_transaction.py:61-69 | a successful transfer moves exactly the amount from one account to the other, keeps every other balance and the set of accounts, and keeps the total |
| AcidTransaction.SelfTransferFails | concepts/01-fundamental-concepts/python/acid_transaction.py:57-58 | a transfer from an account to itself fails on the second lock |
| AcidTransaction.NegativeAmountOverdraws | concepts/01-fundamental-concepts/python/acid_transaction.py:53-69 | as written a negative amount passes the balance check: transferring -1000 from an empty account succeeds and drives the other account to -900 |
| AcidTransaction.CheckedTransferStep | concepts/01-fundamental-concepts/python/acid_transaction.py:53 | the corrected transfer refuses a non-positive amount and otherwise behaves as the source's |
| AcidTransaction.CheckedTransferKeepsNonNegative | concepts/01-fundamental-concepts/python/acid_transaction.py:53-69 | with positive amounts only, no balance ever goes negative |
| AcidTransaction.Database.constructor | concepts/01-fundamental-concepts/python/acid_transaction.py:14-17 | a new database has no accounts, transactions or locks |
| AcidTransaction.Database.CreateAccount | concepts/01-fundamental-concepts/python/acid_transaction.py:19-24 | a negative balance is refused with "Initial balance cannot be negative"; otherwise the account is set to the balance, replacing any earlier one |
| AcidTransaction.Database.AcquireLock | concepts/01-fundamental-concepts/python/acid_transaction.py:109-114 | a locked account raises "Account … is locked by another transaction"; otherwise the lock is recorded for the transaction |
| AcidTransaction.Database.ReleaseLock | concepts/01-fundamental-concepts/python/acid_transaction.py:116-120 | the account is unlocked, whoever held it |
| AcidTransaction.Database.TryTransfer | concepts/01-fundamental-concepts/python/acid_transaction.py:41-79 | the body of the try block: the balances change iff the transfer step succeeds, and then the receipt reports the new balances; a failure raises the step's message and leaves the balances unchanged |
| AcidTransaction.Database.Transfer | concepts/01-fundamental-concepts/python/acid_transaction.py:26-89 | as the transfer step, plus: one transaction is appended, committed or rolled back by the outcome, both accounts end unlocked, even a lock another transaction held, and for a positive amount non-negative balances stay non-negative (a negative amount is accepted as written, see Findings) |
| AcidTransaction.Database.GetBalance | concepts/01-fundamental-concepts/python/acid_transaction.py:127-129 | returns the balance of an existing account and None otherwise |
| DataReplication.FindSlave | concepts/05-data-management/python/data_replication.py:117 | the index found is the first slave with that id; none is found only when no slave has it |
| DataReplication.FindMaster | concepts/05-data-management/python/data_replication.py:182 | the index found is the first master with that id; none is found only when no master has it |
| DataReplication.SlaveRead | concepts/05-data-management/python/data_replication.py:93-113 | with slaves preferred and present, the slave at the read count modulo the number of slaves answers when it holds the key, with its id and lag; otherwise the master answers with lag 0 when it holds the key, and nothing is returned when it does not |
| DataReplication.ReadAfterReplication | concepts/05-data-management/python/data_replication.py:69-113 | once a write has reached the master and every slave, any read of that key returns the written value whichever node answers |
| DataReplication.MasterSlaveReplication.constructor | concepts/05-data-management/python/data_replication.py:31-50 | a master named master with no data and an empty log, slaves slave-0 … slave-(n-1), and zeroed counters |
| DataReplication.MasterSlaveReplication.Write | concepts/05-data-management/python/data_replication.py:52-67 | the value is stored on the master and appended to its write log; the slaves are untouched until replication and the write counter grows by one |
| DataReplication.MasterSlaveReplication.ReplicateToSlaves | concepts/05-data-management/python/data_replication.py:69-87 | every slave stores the value and the replication time, its lag is measured against the master's last logged write (unchanged when the log is empty), and the replication counter grows by the number of slaves |
| DataReplication.MasterSlaveReplication.Read | concepts/05-data-management/python/data_replication.py:89-113 | the read counter grows by one and the answer is the round-robin read at the new count; no data changes |
| DataReplication.MasterSlaveReplication.PromoteSlave | concepts/05-data-management/python/data_replication.py:115-134 | an unknown slave id is an error with nothing changed; otherwise the first slave with that id becomes the master with its own data and the old master's write log, and it alone is removed from the slaves |
| DataReplication.FirstWrite | concepts/05-data-management/python/data_replication.py:213 | the record found has the key and is at a position of the log before which no record has the key; none is found only when no record has the key |
| DataReplication.CheckConflict | concepts/05-data-management/python/data_replication.py:208-223 | a conflict names another master that holds the key, with its value; no conflict means every other master holding the key has no logged write of it or its first one is at least twice the replication delay old |
| DataReplication.ConflictUsesFirstWrite | concepts/05-data-management/python/data_replication.py:213-215 | a write just made by another master goes unnoticed when that master's first logged write of the key is old |
| DataReplication.ResolveConflict | concepts/05-data-management/python/data_replication.py:225-237 | last-write-wins and unknown policies keep the new value, first-write-wins keeps the existing one, merge unions two dictionaries with the new one winning on shared keys and otherwise keeps the new value |
| DataReplication.FirstHolding | concepts/05-data-management/python/data_replication.py:263-265 | the index found is the first master holding the key; none is found only when no master holds it |
| DataReplication.MasterRead | concepts/05-data-management/python/data_replication.py:255-267 | a named master holding the key answers; otherwise the first master in list order holding the key answers with its own value and id, and nothing is returned exactly when no master holds the key |
| DataReplication.MasterMasterReplication.constructor | concepts/05-data-management/python/data_replication.py:160-178 | masters master-0 … master-(n-1), each empty, with the configured delay and conflict policy and zeroed counters |
| DataReplication.MasterMasterReplication.Write | concepts/05-data-management/python/data_replication.py:180-206 | an unknown master id is an error with nothing changed; otherwise a detected conflict is resolved by the policy and counted, and the resulting value is stored and logged on that master alone |
| DataReplication.MasterMasterReplication.ReplicateToOtherMasters | concepts/05-data-management/python/data_replication.py:239-253 | every master other than the writer stores the value, the writer is untouched and the replication counter grows by the number of other masters |
| DataReplication.MasterMasterReplication.Read | concepts/05-data-management/python/data_replication.py:255-267 | the answer is the read function over the current masters: the named master if it holds the key, else the first master holding it |
| DataReplication.MasterReadAfterReplication | concepts/05-data-management/python/data_replication.py:239-267 | once every master holds the same value for a key, any read of it returns that value |
| AutoScaling.AverageOf | concepts/02-scalability/python/auto_scaling.py:78-94 | no instances give all-zero metrics; otherwise each averaged metric times the number of instances is that metric's total |
| AutoScaling.SumAbove | concepts/02-scalability/python/auto_scaling.py:83-87 | when every instance's metric exceeds a bound, the total exceeds the count times the bound |
| AutoScaling.SumBelow | concepts/02-scalability/python/auto_scaling.py:83-87 | when every instance's metric is under a bound, the total is under the count times the bound |
| AutoScaling.AverageAbove | concepts/02-scalability/python/auto_scaling.py:78-94 | when every instance's metric exceeds a bound, so does the average |
| AutoScaling.AverageBelow | concepts/02-scalability/python/auto_scaling.py:78-94 | when every instance's metric is under a bound, so is the average |
| AutoScaling.LowestLoadIndex | concepts/02-scalability/python/auto_scaling.py:60-66 | the chosen instance has the lowest mean of cpu and memory, and it is the first such one, as a stable sort puts it first |
| AutoScaling.Decide | concepts/02-scalability/python/auto_scaling.py:96-118 | cooldown exactly when the time since the last scaling is under the cooldown period; scale up exactly when below the maximum and cpu or memory is over the up threshold; scale down exactly when not scaling up, above the minimum and both cpu and memory are under the down threshold; every other answer carries the averages |
| AutoScaling.AllHotScalesUp | concepts/02-scalability/python/auto_scaling.py:96-110 | after the cooldown and below the maximum, every instance running hotter than the up threshold makes the scaler scale up |
| AutoScaling.AllIdleScalesDown | concepts/02-scalability/python/auto_scaling.py:96-116 | after the cooldown and above the minimum, every instance idler than the down threshold in cpu and memory makes the scaler scale down |
| AutoScaling.Updated | concepts/02-scalability/python/auto_scaling.py:72-76 | the metrics named in the update take the new values and the others keep theirs |
| AutoScaling.HorizontalAutoScaler.constructor | concepts/02-scalability/python/auto_scaling.py:22-41 | the configured limits, an empty history, the clock as the last scaling time and the minimum number of fresh instances with zero metrics |
| AutoScaling.HorizontalAutoScaler.AddInstance | concepts/02-scalability/python/auto_scaling.py:43-53 | a fresh instance with zero metrics is appended and nothing else changes |
| AutoScaling.HorizontalAutoScaler.RemoveInstance | concepts/02-scalability/python/auto_scaling.py:55-70 | at or below the minimum nothing is removed; an empty list above a negative minimum fails as the source's index does; otherwise the first lowest-load instance is removed and returned, the rest keeping their order |
| AutoScaling.HorizontalAutoScaler.UpdateMetrics | concepts/02-scalability/python/auto_scaling.py:72-76 | the first instance with that id gets the updated metrics; an unknown id changes nothing |
| AutoScaling.HorizontalAutoScaler.GetAverageMetrics | concepts/02-scalability/python/auto_scaling.py:78-94 | the averages computed by the loop are the averages of the instances' metrics |
| AutoScaling.HorizontalAutoScaler.CheckScaling | concepts/02-scalability/python/auto_scaling.py:96-118 | the decision on the current instances and clock; scaling up only below the maximum and down only above the minimum |
| AutoScaling.HorizontalAutoScaler.ExecuteScaling | concepts/02-scalability/python/auto_scaling.py:120-147 | a scale-up appends a fresh instance, a scale-down removes the lowest-load one, each recording the time and a history event with the new count; anything else changes nothing; the count moves by at most one and stays within sane limits |
| AutoScaling.HorizontalAutoScaler.GetState | concepts/02-scalability/python/auto_scaling.py:149-157 | the instance count, the averages and the last ten history events, in order |
| HealthChecks.LivenessOf | concepts/03-reliability/python/health_checks.py:49-66 | the liveness status is healthy exactly when the service is alive, unhealthy otherwise |
| HealthChecks.Unavailable | concepts/03-reliability/python/health_checks.py:79-80 | lists exactly the critical dependencies (database, cache) that are down; empty exactly when both are up |
| HealthChecks.ReadinessOf | concepts/03-reliability/python/health_checks.py:68-96 | ready exactly when the service is ready and database and cache are both up, otherwise not ready; the dependency table is always reported |
| HealthChecks.StartupOf | concepts/03-reliability/python/health_checks.py:98-117 | started exactly when the service has started; while starting, the remaining time is the initialization time less the elapsed time, never below zero |
| HealthChecks.OverallOf | concepts/03-reliability/python/health_checks.py:128-143 | not alive is unhealthy; alive but not started is starting; started but not ready or a critical dependency down is not ready; otherwise healthy |
| HealthChecks.RecoverAndFail | concepts/03-reliability/python/health_checks.py:128-163 | a recovered service is healthy once started (starting before), and losing the cache afterwards makes it not ready while alive |
| HealthChecks.HealthChecker.constructor | concepts/03-reliability/python/health_checks.py:14-24 | alive, not ready, not started, all three dependencies down, the clock as start time |
| HealthChecks.HealthChecker.CheckDependencies | concepts/03-reliability/python/health_checks.py:40-47 | the three dependencies take the given outcomes and the table is returned; the flags are untouched |
| HealthChecks.HealthChecker.Initialize | concepts/03-reliability/python/health_checks.py:26-38 | after checking dependencies the service is started and ready |
| HealthChecks.HealthChecker.LivenessProbe | concepts/03-reliability/python/health_checks.py:49-66 | healthy exactly when alive, with the uptime measured from the start time |
| HealthChecks.HealthChecker.ReadinessProbe | concepts/03-reliability/python/health_checks.py:68-96 | ready exactly when ready with database and cache up |
| HealthChecks.HealthChecker.StartupProbe | concepts/03-reliability/python/health_checks.py:98-117 | started exactly when the service has started |
| HealthChecks.HealthChecker.GetOverallHealth | concepts/03-reliability/python/health_checks.py:128-143 | healthy exactly when alive, started, ready and database and cache up |
| HealthChecks.HealthChecker.HealthCheck | concepts/03-reliability/python/health_checks.py:119-126 | the combined answer holds the three probes and the overall status of the same moment |
| HealthChecks.HealthChecker.SimulateFailure | concepts/03-reliability/python/health_checks.py:145-148 | the service is no longer alive and nothing else changes |
| HealthChecks.HealthChecker.SimulateDependencyFailure | concepts/03-reliability/python/health_checks.py:150-155 | a known dependency goes down and the service becomes not ready; an unknown name changes nothing |
| HealthChecks.HealthChecker.Recover | concepts/03-reliability/python/health_checks.py:157-163 | alive, ready and every dependency up; whether the service has started is unchanged |
| HealthChecks.HealthCheckServer.constructor | concepts/03-reliability/python/health_checks.py:169-171 | the server holds the given checker and port |
| HealthChecks.HealthCheckServer.HandleRequest | concepts/03-reliability/python/health_checks.py:182-193 | /health, /live, /ready and /startup answer with the matching probe; every other path, and only those, is not found |
| CapTheorem.Lookup | concepts/01-fundamental-concepts/python/cap_theorem.py:39 | a value is found exactly when the key is stored, and it is the stored value |
| CapTheorem.CPWriteStep | concepts/01-fundamental-concepts/python/cap_theorem.py:24-32 | a write is rejected with the unavailability message exactly when partitioned; otherwise the key maps to the new value and every other key keeps its value |
| CapTheorem.CPReadOf | concepts/01-fundamental-concepts/python/cap_theorem.py:34-39 | a read is rejected exactly when partitioned; otherwise it returns the stored value, if any |
| CapTheorem.CPReadAfterWrite | concepts/01-fundamental-concepts/python/cap_theorem.py:24-39 | without a partition a read after a write returns the written value and reads of other keys are unaffected |
| CapTheorem.CPSystem.constructor | concepts/01-fundamental-concepts/python/cap_theorem.py:16-18 | an empty store, not partitioned |
| CapTheorem.CPSystem.SetPartitioned | concepts/01-fundamental-concepts/python/cap_theorem.py:20-22 | only the partition flag changes |
| CapTheorem.CPSystem.Write | concepts/01-fundamental-concepts/python/cap_theorem.py:24-32 | while partitioned the write fails and the store is unchanged; otherwise the store is the write step's result and the acknowledgement carries the key and value |
| CapTheorem.CPSystem.Read | concepts/01-fundamental-concepts/python/cap_theorem.py:34-39 | the read fails exactly while partitioned |
| CapTheorem.APReadOf | concepts/01-fundamental-concepts/python/cap_theorem.py:84-92 | a read always answers with the stored value, flagged consistent exactly when not partitioned, with the matching note |
| CapTheorem.APReadAfterWrite | concepts/01-fundamental-concepts/python/cap_theorem.py:62-92 | partitioned or not, a read after a write returns the written value |
| CapTheorem.APSystem.constructor | concepts/01-fundamental-concepts/python/cap_theorem.py:53-56 | an empty store, no pending writes, not partitioned |
| CapTheorem.APSystem.SetPartitioned | concepts/01-fundamental-concepts/python/cap_theorem.py:58-60 | only the partition flag changes |
| CapTheorem.APSystem.Write | concepts/01-fundamental-concepts/python/cap_theorem.py:62-82 | the value is always stored; while partitioned it is also queued, and the acknowledgement is consistent exactly when not partitioned |
| CapTheorem.APSystem.Read | concepts/01-fundamental-concepts/python/cap_theorem.py:84-92 | consistent exactly when not partitioned |
| CapTheorem.APSystem.ResolvePartition | concepts/01-fundamental-concepts/python/cap_theorem.py:99-105 | every queued write is replayed in order, then the queue is empty and the partition is over; the store is unchanged |
| CapTheorem.CASystem.constructor | concepts/01-fundamental-concepts/python/cap_theorem.py:114-115 | an empty store |
| CapTheorem.CASystem.Write | concepts/01-fundamental-concepts/python/cap_theorem.py:117-120 | the key maps to the new value and the acknowledgement is consistent |
| CapTheorem.CASystem.Read | concepts/01-fundamental-concepts/python/cap_theorem.py:122-127 | the stored value, always flagged consistent |
| CapTheorem.CAReadAfterWrite | concepts/01-fundamental-concepts/python/cap_theorem.py:117-127 | a write followed by a read returns the written value, flagged consistent |

## Left out

- Scheduling: the Raft election timer, `start` and the heartbeat loop, the background tasks of replication and write-behind flushing, the flush timer of the batch processor, the pool's cleanup loop, the wait-and-retry loop inside `acquire` with its timeout, `_notify_waiter` and `close`. Each handler is one atomic step; the background replication of data_replication.py is a separate step the caller runs.
- Raft's `last_applied` field: the source sets it and never reads it.
- Randomness: the election timeout, the weighted draw, the directory's shard choice, the backoff jitter, the dependency checks and the simulated remote call outcome are parameters.
- md5 in sharding.py and load_balancer.py is an arbitrary function from strings to naturals, so the concrete placement of keys is not modelled.
- Floating-point arithmetic: `TokenBucket` (its refill is float arithmetic), `RefreshAhead` (an age ratio), `PredictiveAutoScaler` and `validate_number`. Elsewhere a float parameter (a leak rate, a window size, an amount of money) is a real number, without rounding.
- Clocks: auto_scaling.dfy and data_replication.dfy take the clock as a real number. Every other file takes whole numbers (seconds, or milliseconds where the source multiplies by 1000), so there fractions of a second between two readings are not modelled. In connection_pool.dfy the configured `idle_timeout` and `max_lifetime` are whole seconds too, for the same reason.
- Library- and regex-bound code: `validate_email`, `validate_url`, `detect_sql_injection` and `detect_xss`; the `pattern` option of `validate_string` is an abstract predicate passed in.
- attack_vectors.py, jwt_auth.py and capacity_estimation.py are not part of this model.
- Output: `print`, `json.dumps`, `get_logs_json`, `_output_log` and the `demonstrate_*` functions.
- Reporting dictionaries with no logic beyond counting: `get_stats` of the load balancer and of the four sharding classes, `get_state`/`get_stats` of the circuit breaker, `get_status` of both replication classes, `get_all_services` of the registry, `list_topics` of the pub/sub system and `get_transaction_history` of the database.
- `persist_account` of the database (a disk write) and the `timestamp` fields of the health probes.
- `WriteThrough`, `CacheAside.set`/`delete`, `WriteBehind.get` and `shutdown`: each is one call on the cache and one on the database with nothing to decide; `ResilientService` only combines the breaker and the retry helper.
- The logger's `debug`, `info`, `warn`, `error` and `fatal` only call `log` with a fixed level; the trace and span identifiers it generates are parameters of `Log`.
- `ServiceClient` is folded into `APIGateway`: its `call` and `call_with_retry` are `Call` and `CallWithRetry` there.
- Generated identifiers are parameters or counters: connection ids are the `created` counter, auto-scaler instance ids and message ids are supplied by the caller, and CSRF tokens are opaque inputs.
- The replication of the CAP stores only prints and sleeps, so it is not modelled beyond the list of writes `resolve_partition` replays.
- Paxos.PaxosProposer.Prepare: requires the acceptor list to hold distinct objects (as do `Accept`, `Gather` and `GatherAccepts`); a list naming the same acceptor twice, which Python allows, would update that acceptor twice in one round and is not modelled.
- ConnectionPooling.ConnectionPool.Initialize: requires a pool with no connections yet, as on the source's single call after construction; a second `initialize`, which would grow the pool past its maximum, is not modelled.
- Logging.StructuredLogger.CreateLogEntry: keeps the metadata separate, so a metadata key that would override a standard field of the entry through `**metadata` is not modelled.

## Findings

| source | as written | input that shows it | evidently intended | confidence | as-written member | corrected member |
|---|---|---|---|---|---|---|
| concepts/08-security/python/input_validation.py:148-151 | `sanitize_path` removes `..` before it removes the dangerous characters, so removing a character can join two dots | `".<."` becomes `..` | the output never contains a path traversal `..` | not executed; high | InputValidation.SanitizePathAsWrittenLeavesDotDot | InputValidation.SanitizePathSafe |
| concepts/01-fundamental-concepts/python/acid_transaction.py:53-69 | `transfer` checks only that the source balance covers the amount, so a negative amount passes and moves money the other way | transferring -1000 from an account holding 0 to one holding 100 succeeds and leaves the second at -900 | a transfer amount is positive, so balances, which start non-negative, stay non-negative | not executed; medium | AcidTransaction.NegativeAmountOverdraws | AcidTransaction.CheckedTransferKeepsNonNegative |
