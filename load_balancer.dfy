/** The load balancer of load_balancer.py: round robin, least connections,
    weighted random choice and IP hashing over a list of servers, with a
    connection count per server.

    The random draw of the weighted choice is a parameter (`draw`, the integer
    part of `random() * total_weight`), and the md5 digest of the IP hash is an
    arbitrary function `hash` passed in. */
module LoadBalancing {
  import opened Common

  const RoundRobinName := "round-robin"
  const LeastConnectionsName := "least-connections"
  const WeightedName := "weighted-round-robin"
  const IpHashName := "ip-hash"
  const IpRequired := "Client IP required for IP hash algorithm"
  /** The `IndexError` of `servers[...]` on an empty list. */
  const IndexOutOfRange := "list index out of range"
  /** The `ZeroDivisionError` of `hash_value % 0`. */
  const ModuloByZero := "integer modulo by zero"

  /** `server_connections[s]` of a `defaultdict(int)`. */
  function Conn(m: map<string, int>, s: string): int
  {
    if s in m then m[s] else 0
  }

  // ---------------------------------------------------------------------------
  // Round robin
  // ---------------------------------------------------------------------------

  /** The position used by the `a`-th call of round robin after starting at `i`. */
  function RoundRobinPosition(i: nat, n: nat, a: nat): (p: nat)
    requires n > 0
    ensures p < n
  {
    (i + a) % n
  }

  /** The call, counted from 0, at which round robin started at `i` reaches position `p`. */
  function RoundRobinCall(i: nat, n: nat, p: nat): nat
    requires i < n && p < n
  {
    if p >= i then p - i else p + n - i
  }

  /** From any start, `n` consecutive round-robin calls use every position
      exactly once. */
  lemma RoundRobinVisitsAll(i: nat, n: nat)
    requires i < n
    ensures forall a, b :: 0 <= a < b < n ==> RoundRobinPosition(i, n, a) != RoundRobinPosition(i, n, b)
    ensures forall p :: 0 <= p < n ==> RoundRobinCall(i, n, p) < n && RoundRobinPosition(i, n, RoundRobinCall(i, n, p)) == p
  {
    forall a: nat | a < n
      ensures RoundRobinPosition(i, n, a) == if i + a < n then i + a else i + a - n
    {
      ModSmall(i + a, n);
    }
    forall p | 0 <= p < n
      ensures RoundRobinCall(i, n, p) < n && RoundRobinPosition(i, n, RoundRobinCall(i, n, p)) == p
    {
      ModSmall(i + RoundRobinCall(i, n, p), n);
    }
  }

  lemma ModSmall(x: int, n: int)
    requires 0 < n && 0 <= x < 2 * n
    ensures x % n == if x < n then x else x - n
  {
  }

  // ---------------------------------------------------------------------------
  // Least connections
  // ---------------------------------------------------------------------------

  /** Index of the first server with the fewest connections among the first `k`. */
  function LeastIndex(servers: seq<string>, conns: map<string, int>, k: nat): (i: nat)
    requires 0 < k <= |servers|
    ensures i < k
  {
    if k == 1 then 0
    else
      var i := LeastIndex(servers, conns, k - 1);
      if Conn(conns, servers[k - 1]) < Conn(conns, servers[i]) then k - 1 else i
  }

  /** `least_connections` picks a server with the fewest connections, the
      first one in list order on ties. */
  lemma {:induction false} LeastIndexIsFirstMinimum(servers: seq<string>, conns: map<string, int>, k: nat)
    requires 0 < k <= |servers|
    ensures var i := LeastIndex(servers, conns, k);
            (forall j :: 0 <= j < k ==> Conn(conns, servers[i]) <= Conn(conns, servers[j]))
            && (forall j :: 0 <= j < i ==> Conn(conns, servers[i]) < Conn(conns, servers[j]))
  {
    if k > 1 {
      LeastIndexIsFirstMinimum(servers, conns, k - 1);
    }
  }

  // ---------------------------------------------------------------------------
  // Weighted choice
  // ---------------------------------------------------------------------------

  /** Every listed server has a weight. */
  predicate WeightsKnown(servers: seq<string>, w: map<string, int>)
  {
    forall i :: 0 <= i < |servers| ==> servers[i] in w
  }

  /** The running weight of the loop of `weighted_round_robin` once it has
      added the weight of `servers[i]` (a repeated server counts each time). */
  function CumWeight(servers: seq<string>, w: map<string, int>, i: nat): int
    requires i < |servers| && WeightsKnown(servers, w)
  {
    if i == 0 then w[servers[0]] else CumWeight(servers, w, i - 1) + w[servers[i]]
  }

  /** `sum(server_weights.values())` for a dict whose keys are the servers:
      every distinct server counted once, over the first `k` positions. */
  function TotalWeight(servers: seq<string>, w: map<string, int>, k: nat): int
    requires k <= |servers| && WeightsKnown(servers, w)
  {
    if k == 0 then 0
    else TotalWeight(servers, w, k - 1) + (if servers[k - 1] in servers[..k - 1] then 0 else w[servers[k - 1]])
  }

  /** Index of the first of the first `k` servers whose running weight
      exceeds `draw`, or -1 if there is none. */
  function WeightedIndex(servers: seq<string>, w: map<string, int>, draw: int, k: nat): (i: int)
    requires k <= |servers| && WeightsKnown(servers, w)
    ensures -1 <= i < k
    ensures i >= 0 ==> draw < CumWeight(servers, w, i)
    ensures forall j :: 0 <= j < k && (i == -1 || j < i) ==> draw >= CumWeight(servers, w, j)
  {
    if k == 0 then -1
    else
      var i := WeightedIndex(servers, w, draw, k - 1);
      if i >= 0 then i
      else if draw < CumWeight(servers, w, k - 1) then k - 1
      else -1
  }

  /** Once a server is picked, looking further does not change the pick. */
  lemma {:induction false} WeightedIndexStable(servers: seq<string>, w: map<string, int>, draw: int, k: nat, m: nat)
    requires k <= m <= |servers| && WeightsKnown(servers, w)
    requires WeightedIndex(servers, w, draw, k) >= 0
    ensures WeightedIndex(servers, w, draw, m) == WeightedIndex(servers, w, draw, k)
  {
    if m > k {
      WeightedIndexStable(servers, w, draw, k, m - 1);
    }
  }

  /** Without repeated servers the running weight reaches the dict's total. */
  lemma {:induction false} CumWeightIsTotal(servers: seq<string>, w: map<string, int>, k: nat)
    requires 0 < k <= |servers| && WeightsKnown(servers, w) && Distinct(servers)
    ensures CumWeight(servers, w, k - 1) == TotalWeight(servers, w, k)
  {
    if k > 1 {
      CumWeightIsTotal(servers, w, k - 1);
    }
    assert servers[k - 1] !in servers[..k - 1];
  }

  /** With distinct servers, a draw below the total weight always picks a
      server by weight: the default `servers[0]` is never needed. */
  lemma WeightedDrawPicks(servers: seq<string>, w: map<string, int>, draw: int)
    requires 0 < |servers| && WeightsKnown(servers, w) && Distinct(servers)
    requires draw < TotalWeight(servers, w, |servers|)
    ensures WeightedIndex(servers, w, draw, |servers|) >= 0
  {
    CumWeightIsTotal(servers, w, |servers|);
  }

  // ---------------------------------------------------------------------------
  // The balancer
  // ---------------------------------------------------------------------------

  class LoadBalancer {
    const servers: seq<string>
    const algorithm: string
    var currentIndex: int
    var connections: map<string, int>
    var weights: map<string, int>

    /** The round-robin index is a position of the list, no count is
        negative and exactly the listed servers have a weight. */
    predicate Valid()
      reads this
    {
      (|servers| > 0 ==> 0 <= currentIndex < |servers|)
      && (forall s :: s in connections ==> connections[s] >= 0)
      && (forall s :: s in weights ==> s in servers)
      && WeightsKnown(servers, weights)
    }

    constructor(servers: seq<string>, algorithm: string)
      ensures this.servers == servers && this.algorithm == algorithm
      ensures currentIndex == 0 && connections == map[]
      ensures forall s :: s in weights <==> s in servers
      ensures forall s :: s in weights ==> weights[s] == 1
      ensures Valid()
    {
      this.servers := servers;
      this.algorithm := algorithm;
      currentIndex := 0;
      connections := map[];
      weights := map[];
      new;
      var k := 0;
      while k < |servers|
        modifies this
        invariant 0 <= k <= |servers| && currentIndex == 0 && connections == map[]
        invariant forall s :: s in weights <==> s in servers[..k]
        invariant forall s :: s in weights ==> weights[s] == 1
      {
        weights := weights[servers[k] := 1];
        k := k + 1;
        assert servers[..k] == servers[..k - 1] + [servers[k - 1]];
      }
      assert servers[..k] == servers;
    }

    /** `round_robin`; an empty list raises `IndexError`. */
    method RoundRobin() returns (r: Result<string>)
      requires Valid()
      modifies this
      ensures Valid()
      ensures |servers| == 0 ==> r == Err(IndexOutOfRange) && currentIndex == old(currentIndex)
      ensures |servers| > 0 ==> r == Ok(servers[old(currentIndex)])
                                && currentIndex == RoundRobinPosition(old(currentIndex), |servers|, 1)
      ensures connections == old(connections) && weights == old(weights)
    {
      if |servers| == 0 {
        return Err(IndexOutOfRange);
      }
      r := Ok(servers[currentIndex]);
      currentIndex := (currentIndex + 1) % |servers|;
    }

    /** `least_connections`; reading the `defaultdict` adds a zero count for
        every listed server it did not know. An empty list raises
        `IndexError`. */
    method LeastConnections() returns (r: Result<string>)
      requires Valid()
      modifies this
      ensures Valid()
      ensures |servers| == 0 ==> r == Err(IndexOutOfRange) && connections == old(connections)
      ensures |servers| > 0 ==> r == Ok(servers[LeastIndex(servers, old(connections), |servers|)])
      ensures forall s :: Conn(connections, s) == Conn(old(connections), s)
      ensures forall i :: 0 <= i < |servers| ==> servers[i] in connections
      ensures forall s :: s in connections ==> s in old(connections) || s in servers
      ensures currentIndex == old(currentIndex) && weights == old(weights)
    {
      if |servers| == 0 {
        return Err(IndexOutOfRange);
      }
      ghost var c0 := connections;
      var minConnections: Option<int> := None;
      var server := servers[0];
      var k := 0;
      while k < |servers|
        invariant 0 <= k <= |servers| && Valid()
        invariant currentIndex == old(currentIndex) && weights == old(weights)
        invariant forall s :: Conn(connections, s) == Conn(c0, s)
        invariant forall i :: 0 <= i < k ==> servers[i] in connections
        invariant forall s :: s in connections ==> s in c0 || s in servers
        invariant k == 0 ==> minConnections == None && server == servers[0]
        invariant k > 0 ==> server == servers[LeastIndex(servers, c0, k)]
                            && minConnections == Some(Conn(c0, server))
      {
        var s := servers[k];
        if s !in connections {
          connections := connections[s := 0];
        }
        var count := connections[s];
        ghost var before := if k == 0 then 0 else LeastIndex(servers, c0, k);
        if minConnections.None? || count < minConnections.value {
          minConnections := Some(count);
          server := s;
        }
        k := k + 1;
        assert k > 1 ==> LeastIndex(servers, c0, k)
                         == if Conn(c0, servers[k - 1]) < Conn(c0, servers[before]) then k - 1 else before;
      }
      r := Ok(server);
    }

    /** `weighted_round_robin` with the draw passed in; an empty list raises
        `IndexError`. */
    method WeightedRoundRobin(draw: int) returns (r: Result<string>)
      requires Valid()
      ensures WeightsKnown(servers, weights)
      ensures |servers| == 0 ==> r == Err(IndexOutOfRange)
      ensures |servers| > 0 ==>
                var i := WeightedIndex(servers, weights, draw, |servers|);
                r == Ok(if i >= 0 then servers[i] else servers[0])
    {
      assert WeightsKnown(servers, weights);
      if |servers| == 0 {
        return Err(IndexOutOfRange);
      }
      var currentWeight := 0;
      r := Ok(servers[0]);
      var k := 0;
      while k < |servers|
        invariant 0 <= k <= |servers|
        invariant k > 0 ==> currentWeight == CumWeight(servers, weights, k - 1)
        invariant k == 0 ==> currentWeight == 0
        invariant WeightedIndex(servers, weights, draw, k) == -1
      {
        currentWeight := currentWeight + weights[servers[k]];
        if draw < currentWeight {
          r := Ok(servers[k]);
          WeightedIndexStable(servers, weights, draw, k + 1, |servers|);
          return;
        }
        k := k + 1;
      }
    }

    /** `ip_hash`: the server at the hash of the IP modulo the number of
        servers; an empty list raises `ZeroDivisionError`. */
    function IpHash(clientIp: string, hash: string -> nat): (r: Result<string>)
      reads this
      ensures |servers| == 0 <==> r == Err(ModuloByZero)
      ensures r.Ok? ==> r.value in servers
    {
      if |servers| == 0 then Err(ModuloByZero) else Ok(servers[hash(clientIp) % |servers|])
    }

    /** `set_weight`. */
    method SetWeight(server: string, weight: int) returns (r: Result<()>)
      requires Valid()
      modifies this
      ensures Valid()
      ensures server in servers ==> r == Ok(()) && weights == old(weights)[server := weight]
      ensures server !in servers ==> r == Err("Server " + server + " not found") && weights == old(weights)
      ensures connections == old(connections) && currentIndex == old(currentIndex)
    {
      if server in servers {
        weights := weights[server := weight];
        return Ok(());
      }
      return Err("Server " + server + " not found");
    }

    /** `get_next_server`: the algorithm's choice, an unknown algorithm name
        falling back to round robin, then one more connection on the chosen
        server.  IP hashing without a (truthy) client IP raises and changes
        nothing; so does every algorithm on an empty list, IP hashing with
        `ZeroDivisionError` and the others with `IndexError`. */
    method GetNextServer(clientIp: Option<string>, draw: int, hash: string -> nat) returns (r: Result<string>)
      requires Valid()
      modifies this
      ensures Valid()
      ensures algorithm == IpHashName && (clientIp == None || clientIp == Some("")) ==>
                r == Err(IpRequired) && connections == old(connections) && currentIndex == old(currentIndex)
      ensures algorithm == IpHashName && clientIp != None && clientIp != Some("") ==>
                r == IpHash(clientIp.value, hash)
      ensures |servers| == 0 ==>
                && connections == old(connections) && currentIndex == old(currentIndex)
                && (algorithm != IpHashName ==> r == Err(IndexOutOfRange))
      ensures |servers| > 0 && algorithm == LeastConnectionsName ==>
                r == Ok(servers[LeastIndex(servers, old(connections), |servers|)])
      ensures |servers| > 0 && algorithm == WeightedName ==>
                var i := WeightedIndex(servers, weights, draw, |servers|);
                r == Ok(if i >= 0 then servers[i] else servers[0])
      ensures |servers| > 0 && algorithm !in {LeastConnectionsName, WeightedName, IpHashName} ==>
                r == Ok(servers[old(currentIndex)])
                && currentIndex == RoundRobinPosition(old(currentIndex), |servers|, 1)
      ensures algorithm != RoundRobinName && algorithm in {LeastConnectionsName, WeightedName, IpHashName} ==>
                currentIndex == old(currentIndex)
      ensures r.Ok? ==> r.value in servers
                        && forall s :: Conn(connections, s) == Conn(old(connections), s) + (if s == r.value then 1 else 0)
      ensures weights == old(weights)
    {
      var chosen: Result<string>;
      if algorithm == RoundRobinName {
        chosen := RoundRobin();
      } else if algorithm == LeastConnectionsName {
        chosen := LeastConnections();
      } else if algorithm == WeightedName {
        chosen := WeightedRoundRobin(draw);
      } else if algorithm == IpHashName {
        if clientIp == None || clientIp == Some("") {
          return Err(IpRequired);
        }
        chosen := IpHash(clientIp.value, hash);
      } else {
        chosen := RoundRobin();
      }
      if chosen.Err? {
        return chosen;
      }
      var server := chosen.value;
      connections := connections[server := Conn(connections, server) + 1];
      return Ok(server);
    }

    /** `release_connection`: one connection fewer, never below zero. */
    method ReleaseConnection(server: string)
      requires Valid()
      modifies this
      ensures Valid()
      ensures Conn(connections, server) == Max(0, Conn(old(connections), server) - 1)
      ensures forall s :: s != server ==> Conn(connections, s) == Conn(old(connections), s)
      ensures server in connections && weights == old(weights) && currentIndex == old(currentIndex)
    {
      if server !in connections {
        connections := connections[server := 0];
      }
      if connections[server] > 0 {
        connections := connections[server := connections[server] - 1];
      }
    }
  }
}
