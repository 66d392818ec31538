/** Path finding under directional liquidity (src/route.rs). */
module Route {
  import opened Prelude
  import opened Text
  import opened Transactions
  import opened Descriptors
  import Amounts
  import Ledger

  datatype Edge = Edge(
    channelId: ChannelId, a: Address, b: Address, viaProvider: Provider,
    capacityZhu: nat, aAvailable: nat, bAvailable: nat, liquidityKnown: bool)

  datatype RouteError =
    | EndpointMissing
    | SameEndpoints
    | NoChannels
    | PayerUnknown
    | PayeeUnknown
    | NoPath
    | ReconstructionFailed
    | InsufficientLiquidity

  /** `can_send_from`. */
  predicate CanSendFrom(e: Edge, from: Address, amount: nat) {
    amount == 0 || !e.liquidityKnown
    || (if from == e.a then e.aAvailable >= amount else if from == e.b then e.bAvailable >= amount else false)
  }

  predicate Connects(e: Edge, u: Address, v: Address) {
    (e.a == u && e.b == v) || (e.b == u && e.a == v)
  }

  /** Edge `i` carries `amount` from `u` to `v`. */
  predicate Carries(edges: seq<Edge>, amount: nat, u: Address, i: nat, v: Address) {
    i < |edges| && Connects(edges[i], u, v) && CanSendFrom(edges[i], u, amount)
  }

  /** A walk: every sender may send. */
  ghost predicate IsWalk(edges: seq<Edge>, amount: nat, nodes: seq<Address>, via: seq<nat>) {
    |nodes| == |via| + 1 && forall k :: 0 <= k < |via| ==> Carries(edges, amount, nodes[k], via[k], nodes[k + 1])
  }

  ghost predicate WalkTo(
      edges: seq<Edge>, amount: nat, from: Address, to: Address, nodes: seq<Address>, via: seq<nat>) {
    IsWalk(edges, amount, nodes, via) && nodes[0] == from && nodes[|via|] == to
  }

  /** The edge joins `u` and `v`, and a known balance of the sender `u` covers the amount. */
  predicate Sends(e: Edge, u: Address, v: Address, amount: nat) {
    && (e.a == u && e.b == v && e.liquidityKnown ==> e.aAvailable >= amount)
    && (e.b == u && e.a == v && e.a != u && e.liquidityKnown ==> e.bAvailable >= amount)
    && ((e.a == u && e.b == v) || (e.b == u && e.a == v))
  }

  predicate Payable(edges: seq<Edge>, amount: nat, u: Address, i: nat, v: Address) {
    i < |edges| && Sends(edges[i], u, v, amount)
  }

  /** A way from `from` to `to` over payable edges. */
  ghost predicate PayableWay(
      edges: seq<Edge>, amount: nat, from: Address, to: Address, nodes: seq<Address>, via: seq<nat>)
  {
    && |nodes| == |via| + 1 && nodes[0] == from && nodes[|via|] == to
    && forall k :: 0 <= k < |via| ==> Payable(edges, amount, nodes[k], via[k], nodes[k + 1])
  }

  lemma PayableCarries(edges: seq<Edge>, amount: nat, u: Address, i: nat, v: Address)
    ensures Payable(edges, amount, u, i, v) <==> Carries(edges, amount, u, i, v)
  {
  }

  lemma PayableIsWalk(edges: seq<Edge>, amount: nat, from: Address, to: Address, nodes: seq<Address>, via: seq<nat>)
    ensures PayableWay(edges, amount, from, to, nodes, via) <==> WalkTo(edges, amount, from, to, nodes, via)
  {
    if |nodes| == |via| + 1 {
      forall k | 0 <= k < |via|
        ensures Payable(edges, amount, nodes[k], via[k], nodes[k + 1]) <==>
                Carries(edges, amount, nodes[k], via[k], nodes[k + 1])
      {
        PayableCarries(edges, amount, nodes[k], via[k], nodes[k + 1]);
      }
    }
  }

  /** Found or not, in terms of payable ways. */
  lemma FoundIffPayable(edges: seq<Edge>, payer: Address, payee: Address, maxHops: nat, amount: nat)
    ensures Routable(edges, payer, payee, maxHops, amount) <==>
            && payer != "" && payee != "" && payer != payee
            && exists nodes, via :: PayableWay(edges, amount, payer, payee, nodes, via) && |via| <= maxHops
  {
    forall nodes, via
      ensures PayableWay(edges, amount, payer, payee, nodes, via) <==>
              WalkTo(edges, amount, payer, payee, nodes, via)
    {
      PayableIsWalk(edges, amount, payer, payee, nodes, via);
    }
  }

  /** What the edges of a found route show. */
  lemma RouteIsPayable(
      edges: seq<Edge>, payer: Address, payee: Address, amount: nat, path: seq<Edge>, nodes: seq<Address>,
      via: seq<nat>)
    requires IsRoute(edges, payer, payee, amount, path, nodes, via)
    ensures |nodes| == |path| + 1 && nodes[0] == payer && nodes[|path|] == payee
    ensures forall k :: 0 <= k < |path| ==> path[k] in edges && Sends(path[k], nodes[k], nodes[k + 1], amount)
    ensures forall n, v :: PayableWay(edges, amount, payer, payee, n, v) ==> |path| <= |v|
  {
    forall k | 0 <= k < |path| ensures path[k] in edges && Sends(path[k], nodes[k], nodes[k + 1], amount) {
      assert Carries(edges, amount, nodes[k], via[k], nodes[k + 1]) && path[k] == edges[via[k]];
      PayableCarries(edges, amount, nodes[k], via[k], nodes[k + 1]);
    }
    forall n, v | PayableWay(edges, amount, payer, payee, n, v) ensures |path| <= |v| {
      PayableIsWalk(edges, amount, payer, payee, n, v);
    }
  }

  // ----- build_graph -----

  type Adjacency = map<Address, seq<(Address, nat)>>

  ghost predicate HasEdge(edges: seq<Edge>, n: nat, u: Address)
    requires n <= |edges|
  {
    exists i :: 0 <= i < n && (edges[i].a == u || edges[i].b == u)
  }

  ghost predicate EntriesReal(edges: seq<Edge>, n: nat, adj: Adjacency)
    requires n <= |edges|
  {
    && (forall u :: u in adj ==> HasEdge(edges, n, u))
    && (forall u, k :: u in adj && 0 <= k < |adj[u]| ==>
         adj[u][k].1 < n && Connects(edges[adj[u][k].1], u, adj[u][k].0))
  }

  ghost predicate EntriesComplete(edges: seq<Edge>, n: nat, adj: Adjacency)
    requires n <= |edges|
  {
    forall u, i, v :: 0 <= i < n && Connects(edges[i], u, v) ==> u in adj && (v, i) in adj[u]
  }

  /** `adj` lists exactly the neighbours over the first `n` edges. */
  ghost predicate IsAdjacency(edges: seq<Edge>, n: nat, adj: Adjacency) {
    n <= |edges| && EntriesReal(edges, n, adj) && EntriesComplete(edges, n, adj)
  }

  function Pushed(adj: Adjacency, u: Address, entry: (Address, nat)): Adjacency {
    adj[u := (if u in adj then adj[u] else []) + [entry]]
  }

  lemma PushReal(edges: seq<Edge>, n: nat, adj: Adjacency, u: Address, v: Address)
    requires n < |edges| && EntriesReal(edges, n + 1, adj) && Connects(edges[n], u, v)
    ensures EntriesReal(edges, n + 1, Pushed(adj, u, (v, n)))
  {
    assert HasEdge(edges, n + 1, u);
  }

  lemma RealGrows(edges: seq<Edge>, n: nat, adj: Adjacency)
    requires n < |edges| && EntriesReal(edges, n, adj)
    ensures EntriesReal(edges, n + 1, adj)
  {
    forall u | u in adj ensures HasEdge(edges, n + 1, u) {
      assert HasEdge(edges, n, u);
      var i :| 0 <= i < n && (edges[i].a == u || edges[i].b == u);
    }
  }

  lemma PushKeeps(adj: Adjacency, u: Address, entry: (Address, nat), w: Address, x: (Address, nat))
    requires w in adj && x in adj[w]
    ensures w in Pushed(adj, u, entry) && x in Pushed(adj, u, entry)[w]
  {
  }

  lemma PushAdds(adj: Adjacency, u: Address, entry: (Address, nat))
    ensures u in Pushed(adj, u, entry) && entry in Pushed(adj, u, entry)[u]
  {
    var p := Pushed(adj, u, entry);
    assert p[u][|p[u]| - 1] == entry;
  }

  lemma AdjacencyStep(edges: seq<Edge>, n: nat, adj: Adjacency)
    requires n < |edges| && IsAdjacency(edges, n, adj)
    ensures IsAdjacency(edges, n + 1, Pushed(Pushed(adj, edges[n].a, (edges[n].b, n)), edges[n].b, (edges[n].a, n)))
  {
    var e := edges[n];
    var mid := Pushed(adj, e.a, (e.b, n));
    var next := Pushed(mid, e.b, (e.a, n));
    RealGrows(edges, n, adj);
    PushReal(edges, n, adj, e.a, e.b);
    PushReal(edges, n, mid, e.b, e.a);
    PushAdds(adj, e.a, (e.b, n));
    PushKeeps(mid, e.b, (e.a, n), e.a, (e.b, n));
    PushAdds(mid, e.b, (e.a, n));
    forall u, i, v | 0 <= i < n + 1 && Connects(edges[i], u, v) ensures u in next && (v, i) in next[u] {
      if i < n {
        assert u in adj && (v, i) in adj[u];
        PushKeeps(adj, e.a, (e.b, n), u, (v, i));
        PushKeeps(mid, e.b, (e.a, n), u, (v, i));
      }
    }
  }

  method BuildGraph(edges: seq<Edge>) returns (adj: Adjacency)
    ensures IsAdjacency(edges, |edges|, adj)
  {
    adj := map[];
    for i := 0 to |edges|
      invariant IsAdjacency(edges, i, adj)
    {
      AdjacencyStep(edges, i, adj);
      adj := Pushed(adj, edges[i].a, (edges[i].b, i));
      adj := Pushed(adj, edges[i].b, (edges[i].a, i));
    }
  }

  // ----- breadth-first search -----

  /** `parent` records how each found address was reached; `dist` is the number of hops it took. */
  type Parents = map<Address, (Address, nat)>

  ghost predicate Reached(
      edges: seq<Edge>, amount: nat, maxHops: nat, payer: Address, parent: Parents, seen: set<Address>,
      dist: map<Address, nat>)
  {
    && payer in seen && dist.Keys == seen && dist[payer] == 0
    && parent.Keys == seen - {payer}
    && (forall v :: v in parent ==>
          var (u, i) := parent[v];
          u in seen && Carries(edges, amount, u, i, v) && dist[v] == dist[u] + 1)
    && (forall v :: v in seen ==> dist[v] <= maxHops)
  }

  /** The queue is ordered by distance, and spans at most two distances. */
  ghost predicate QueueFits(queue: seq<Address>, seen: set<Address>, done: set<Address>, dist: map<Address, nat>) {
    && dist.Keys == seen && Distinct(queue)
    && (forall v :: v in queue ==> v in seen)
    && seen == done + Elements(queue) && done !! Elements(queue)
    && (forall i, j :: 0 <= i < j < |queue| ==> dist[queue[i]] <= dist[queue[j]] <= dist[queue[0]] + 1)
    && (forall u, v :: u in done && v in queue ==> dist[u] <= dist[v])
  }

  /** Everything an expanded address can send to has been found, no further away than one hop. */
  ghost predicate Expanded(
      edges: seq<Edge>, amount: nat, maxHops: nat, seen: set<Address>, done: set<Address>, dist: map<Address, nat>)
  {
    && dist.Keys == seen && done <= seen
    && forall u, i, v :: u in done && dist[u] < maxHops && Carries(edges, amount, u, i, v) ==>
         v in seen && dist[v] <= dist[u] + 1
  }

  /** Where a walk leads when everything nearer than `limit` was expanded. */
  lemma {:induction false} WalkIsFound(
      edges: seq<Edge>, amount: nat, maxHops: nat, payer: Address, seen: set<Address>, done: set<Address>,
      dist: map<Address, nat>, limit: nat, nodes: seq<Address>, via: seq<nat>, k: nat)
    requires Expanded(edges, amount, maxHops, seen, done, dist) && payer in seen && dist[payer] == 0
    requires IsWalk(edges, amount, nodes, via) && nodes[0] == payer && k < |nodes|
    requires forall v :: v in seen && dist[v] < limit ==> v in done
    requires k <= limit && k <= maxHops
    ensures nodes[k] in seen && dist[nodes[k]] <= k
  {
    if k > 0 {
      WalkIsFound(edges, amount, maxHops, payer, seen, done, dist, limit, nodes, via, k - 1);
      assert Carries(edges, amount, nodes[k - 1], via[k - 1], nodes[k]);
    }
  }

  /** The loop that counts hops back to the payer. */
  method Depth(
      ghost edges: seq<Edge>, ghost amount: nat, maxHops: nat, ghost payer: Address, parent: Parents,
      ghost seen: set<Address>, ghost dist: map<Address, nat>, cur: Address)
    returns (d: nat)
    requires Reached(edges, amount, maxHops, payer, parent, seen, dist) && cur in seen
    ensures d == dist[cur]
  {
    d := 0;
    var c := cur;
    while c in parent
      invariant c in seen && d + dist[c] == dist[cur]
      decreases dist[c]
    {
      c := parent[c].0;
      d := d + 1;
      if d > maxHops {
        break;
      }
    }
  }

  lemma FindKeepsReached(
      edges: seq<Edge>, amount: nat, maxHops: nat, payer: Address, parent: Parents, seen: set<Address>,
      dist: map<Address, nat>, u: Address, i: nat, v: Address)
    requires Reached(edges, amount, maxHops, payer, parent, seen, dist)
    requires u in seen && v !in seen && Carries(edges, amount, u, i, v) && dist[u] < maxHops
    ensures Reached(edges, amount, maxHops, payer, parent[v := (u, i)], seen + {v}, dist[v := dist[u] + 1])
  {
  }

  lemma FindKeepsQueue(
      queue: seq<Address>, seen: set<Address>, done: set<Address>, dist: map<Address, nat>, cur: Address, v: Address)
    requires QueueFits(queue, seen, done, dist) && cur in done && v !in seen
    requires forall u :: u in done ==> dist[u] <= dist[cur]
    requires forall u :: u in queue ==> dist[cur] <= dist[u] <= dist[cur] + 1
    ensures QueueFits(queue + [v], seen + {v}, done, dist[v := dist[cur] + 1])
  {
    var q, d := queue + [v], dist[v := dist[cur] + 1];
    assert Elements(q) == Elements(queue) + {v};
    forall i, j | 0 <= i < j < |q| ensures d[q[i]] <= d[q[j]] <= d[q[0]] + 1 {
      if j < |queue| {
        assert dist[queue[i]] <= dist[queue[j]] <= dist[queue[0]] + 1;
      } else {
        assert q[i] in queue && q[0] in queue;
      }
    }
  }

  lemma PopElements(queue: seq<Address>)
    requires Distinct(queue) && queue != []
    ensures Elements(queue) == {queue[0]} + Elements(queue[1..]) && queue[0] !in queue[1..] && Distinct(queue[1..])
  {
    assert queue == [queue[0]] + queue[1..];
    forall i | 0 <= i < |queue[1..]| ensures queue[1..][i] != queue[0] {
      assert queue[1..][i] == queue[i + 1];
    }
  }

  lemma PopOrder(queue: seq<Address>, dist: map<Address, nat>)
    requires queue != [] && forall v :: v in queue ==> v in dist
    requires forall i, j :: 0 <= i < j < |queue| ==> dist[queue[i]] <= dist[queue[j]] <= dist[queue[0]] + 1
    ensures forall u :: u in queue[1..] ==> dist[queue[0]] <= dist[u] <= dist[queue[0]] + 1
    ensures forall i, j :: 0 <= i < j < |queue[1..]| ==>
              dist[queue[1..][i]] <= dist[queue[1..][j]] <= dist[queue[1..][0]] + 1
  {
    var rest := queue[1..];
    forall u | u in rest ensures dist[queue[0]] <= dist[u] <= dist[queue[0]] + 1 {
      var i :| 0 <= i < |rest| && rest[i] == u;
      assert queue[i + 1] == u;
    }
    forall i, j | 0 <= i < j < |rest| ensures dist[rest[i]] <= dist[rest[j]] <= dist[rest[0]] + 1 {
      assert queue[i + 1] == rest[i] && queue[j + 1] == rest[j] && queue[1] == rest[0];
    }
  }

  lemma PopFirst(queue: seq<Address>, seen: set<Address>, done: set<Address>, dist: map<Address, nat>)
    requires QueueFits(queue, seen, done, dist) && queue != []
    ensures var cur, rest := queue[0], queue[1..];
            && cur !in done && QueueFits(rest, seen, done + {cur}, dist)
            && (forall u :: u in done + {cur} ==> dist[u] <= dist[cur])
            && (forall u :: u in rest ==> dist[cur] <= dist[u] <= dist[cur] + 1)
  {
    PopElements(queue);
    PopOrder(queue, dist);
    assert queue[0] in queue;
  }

  /** The neighbours `nbs[..j]` of `cur` that `cur` can send to were found. */
  ghost predicate NeighboursFound(
      edges: seq<Edge>, amount: nat, cur: Address, nbs: seq<(Address, nat)>, j: nat, seen: set<Address>)
    requires j <= |nbs| && forall k :: 0 <= k < |nbs| ==> nbs[k].1 < |edges|
  {
    forall k :: 0 <= k < j && CanSendFrom(edges[nbs[k].1], cur, amount) ==> nbs[k].0 in seen
  }

  lemma FoundOneMore(
      edges: seq<Edge>, amount: nat, cur: Address, nbs: seq<(Address, nat)>, j: nat, seen: set<Address>,
      more: set<Address>)
    requires j < |nbs| && forall k :: 0 <= k < |nbs| ==> nbs[k].1 < |edges|
    requires NeighboursFound(edges, amount, cur, nbs, j, seen) && seen <= more
    requires CanSendFrom(edges[nbs[j].1], cur, amount) ==> nbs[j].0 in more
    ensures NeighboursFound(edges, amount, cur, nbs, j + 1, more)
  {
  }

  function Targets(nbs: seq<(Address, nat)>): set<Address> {
    set x | x in nbs :: x.0
  }

  /** State of the neighbour loop: found addresses are one hop from `cur` at most. */
  ghost predicate Expanding(
      edges: seq<Edge>, amount: nat, maxHops: nat, payer: Address, cur: Address, parent: Parents, queue: seq<Address>,
      seen: set<Address>, done: set<Address>, dist: map<Address, nat>)
  {
    && Reached(edges, amount, maxHops, payer, parent, seen, dist) && QueueFits(queue, seen, done, dist)
    && cur in done && dist[cur] < maxHops
    && (forall u :: u in done ==> dist[u] <= dist[cur])
    && (forall u :: u in queue ==> dist[cur] <= dist[u] <= dist[cur] + 1)
  }

  lemma FindKeepsExpanding(
      edges: seq<Edge>, amount: nat, maxHops: nat, payer: Address, cur: Address, parent: Parents, queue: seq<Address>,
      seen: set<Address>, done: set<Address>, dist: map<Address, nat>, i: nat, v: Address)
    requires Expanding(edges, amount, maxHops, payer, cur, parent, queue, seen, done, dist)
    requires v !in seen && Carries(edges, amount, cur, i, v)
    ensures Expanding(edges, amount, maxHops, payer, cur, parent[v := (cur, i)], queue + [v], seen + {v}, done,
                      dist[v := dist[cur] + 1])
  {
    FindKeepsReached(edges, amount, maxHops, payer, parent, seen, dist, cur, i, v);
    FindKeepsQueue(queue, seen, done, dist, cur, v);
    assert v !in done;
  }

  /** The neighbour loop of the search: find what `cur` can send to. */
  method Expand(
      edges: seq<Edge>, amount: nat, maxHops: nat, ghost payer: Address, cur: Address, nbs: seq<(Address, nat)>,
      parent0: Parents, queue0: seq<Address>, seen0: set<Address>, ghost done: set<Address>,
      ghost dist0: map<Address, nat>)
    returns (parent: Parents, queue: seq<Address>, seen: set<Address>, ghost dist: map<Address, nat>)
    requires Expanding(edges, amount, maxHops, payer, cur, parent0, queue0, seen0, done, dist0)
    requires forall k :: 0 <= k < |nbs| ==> nbs[k].1 < |edges| && Connects(edges[nbs[k].1], cur, nbs[k].0)
    ensures Expanding(edges, amount, maxHops, payer, cur, parent, queue, seen, done, dist)
    ensures seen0 <= seen <= seen0 + Targets(nbs) && (forall v :: v in seen0 ==> dist[v] == dist0[v])
    ensures NeighboursFound(edges, amount, cur, nbs, |nbs|, seen)
  {
    parent, queue, seen, dist := parent0, queue0, seen0, dist0;
    for j := 0 to |nbs|
      invariant Expanding(edges, amount, maxHops, payer, cur, parent, queue, seen, done, dist)
      invariant seen0 <= seen <= seen0 + Targets(nbs) && (forall v :: v in seen0 ==> dist[v] == dist0[v])
      invariant NeighboursFound(edges, amount, cur, nbs, j, seen)
    {
      var nb, ei := nbs[j].0, nbs[j].1;
      if CanSendFrom(edges[ei], cur, amount) && nb !in seen {
        assert nbs[j] in nbs;
        FindKeepsExpanding(edges, amount, maxHops, payer, cur, parent, queue, seen, done, dist, ei, nb);
        FoundOneMore(edges, amount, cur, nbs, j, seen, seen + {nb});
        parent, queue, seen, dist := parent[nb := (cur, ei)], queue + [nb], seen + {nb}, dist[nb := dist[cur] + 1];
      } else {
        FoundOneMore(edges, amount, cur, nbs, j, seen, seen);
      }
    }
  }

  lemma ExpandingIsNear(
      edges: seq<Edge>, amount: nat, maxHops: nat, payer: Address, cur: Address, parent: Parents, queue: seq<Address>,
      seen: set<Address>, done: set<Address>, dist: map<Address, nat>)
    requires Expanding(edges, amount, maxHops, payer, cur, parent, queue, seen, done, dist)
    ensures forall v :: v in seen ==> dist[v] <= dist[cur] + 1
  {
    forall v | v in seen ensures dist[v] <= dist[cur] + 1 {
      assert v in done || v in Elements(queue);
    }
  }

  lemma ExpandedNow(
      edges: seq<Edge>, amount: nat, maxHops: nat, adj: Adjacency, cur: Address, nbs: seq<(Address, nat)>,
      seen0: set<Address>, done0: set<Address>, dist0: map<Address, nat>, seen: set<Address>, dist: map<Address, nat>)
    requires IsAdjacency(edges, |edges|, adj) && nbs == if cur in adj then adj[cur] else []
    requires Expanded(edges, amount, maxHops, seen0, done0, dist0)
    requires seen0 <= seen && dist.Keys == seen && cur in seen0 && (forall v :: v in seen0 ==> dist[v] == dist0[v])
    requires dist0[cur] < maxHops ==>
               && (forall v :: v in seen ==> dist[v] <= dist0[cur] + 1)
               && (forall k :: 0 <= k < |nbs| ==> nbs[k].1 < |edges|)
                    && NeighboursFound(edges, amount, cur, nbs, |nbs|, seen)
    ensures Expanded(edges, amount, maxHops, seen, done0 + {cur}, dist)
  {
    forall u, i: nat, v | u in done0 + {cur} && dist[u] < maxHops && Carries(edges, amount, u, i, v)
      ensures v in seen && dist[v] <= dist[u] + 1
    {
      if u in done0 {
        assert v in seen0 && dist0[v] <= dist0[u] + 1;
      } else {
        assert (v, i) in adj[cur];
        var k :| 0 <= k < |nbs| && nbs[k] == (v, i);
      }
    }
  }

  function AllAddresses(edges: seq<Edge>): set<Address> {
    (set e | e in edges :: e.a) + (set e | e in edges :: e.b)
  }

  /** The whole search: stops at the payee, or when nothing is left to expand. */
  ghost predicate SearchInv(
      edges: seq<Edge>, amount: nat, maxHops: nat, payer: Address, payee: Address, parent: Parents,
      queue: seq<Address>, seen: set<Address>, done: set<Address>, dist: map<Address, nat>)
  {
    && Reached(edges, amount, maxHops, payer, parent, seen, dist) && QueueFits(queue, seen, done, dist)
    && Expanded(edges, amount, maxHops, seen, done, dist) && payee !in done
    && seen <= AllAddresses(edges) + {payer}
  }

  lemma HeadIsNearest(queue: seq<Address>, seen: set<Address>, done: set<Address>, dist: map<Address, nat>)
    requires QueueFits(queue, seen, done, dist)
    ensures forall v :: v in queue ==> dist[queue[0]] <= dist[v]
  {
    forall v | v in queue ensures dist[queue[0]] <= dist[v] {
      var i :| 0 <= i < |queue| && queue[i] == v;
      if i > 0 {
        assert dist[queue[0]] <= dist[queue[i]];
      }
    }
  }

  /** No walk is shorter than the distance of the queue's head. */
  lemma NothingShorter(
      edges: seq<Edge>, amount: nat, maxHops: nat, payer: Address, payee: Address, parent: Parents,
      queue: seq<Address>, seen: set<Address>, done: set<Address>, dist: map<Address, nat>, nodes: seq<Address>,
      via: seq<nat>)
    requires SearchInv(edges, amount, maxHops, payer, payee, parent, queue, seen, done, dist)
    requires WalkTo(edges, amount, payer, payee, nodes, via) && |via| <= maxHops
    ensures queue != [] && dist[queue[0]] <= |via|
  {
    if queue == [] {
      WalkIsFound(edges, amount, maxHops, payer, seen, done, dist, maxHops + 1, nodes, via, |via|);
      assert false;
    } else if |via| < dist[queue[0]] {
      HeadIsNearest(queue, seen, done, dist);
      assert forall v :: v in seen && dist[v] < dist[queue[0]] ==> v in done;
      WalkIsFound(edges, amount, maxHops, payer, seen, done, dist, dist[queue[0]], nodes, via, |via|);
      assert false;
    }
  }

  method Search(edges: seq<Edge>, adj: Adjacency, payer: Address, payee: Address, maxHops: nat, amount: nat)
    returns (found: bool, parent: Parents, ghost seen: set<Address>, ghost dist: map<Address, nat>)
    requires IsAdjacency(edges, |edges|, adj)
    ensures found ==> Reached(edges, amount, maxHops, payer, parent, seen, dist) && payee in seen
    ensures found ==>
                forall nodes, via :: WalkTo(edges, amount, payer, payee, nodes, via) && |via| <= maxHops ==>
                    dist[payee] <= |via|
    ensures !found ==> forall nodes, via :: WalkTo(edges, amount, payer, payee, nodes, via) ==> |via| > maxHops
  {
    parent := map[];
    var queue := [payer];
    var known := {payer};
    seen, dist := {payer}, map[payer := 0];
    ghost var done: set<Address> := {};
    while queue != []
      invariant known == seen && SearchInv(edges, amount, maxHops, payer, payee, parent, queue, seen, done, dist)
      decreases AllAddresses(edges) + {payer} - done
    {
      var cur := queue[0];
      if cur == payee {
        forall nodes, via | WalkTo(edges, amount, payer, payee, nodes, via) && |via| <= maxHops
          ensures dist[payee] <= |via|
        {
          NothingShorter(edges, amount, maxHops, payer, payee, parent, queue, seen, done, dist, nodes, via);
        }
        return true, parent, seen, dist;
      }
      PopFirst(queue, seen, done, dist);
      ghost var seen0, dist0, done0 := seen, dist, done;
      assert cur in seen;
      queue := queue[1..];
      done := done + {cur};
      var depth := Depth(edges, amount, maxHops, payer, parent, seen, dist, cur);
      var nbs := if cur in adj then adj[cur] else [];
      if depth < maxHops {
        parent, queue, known, dist := Expand(edges, amount, maxHops, payer, cur, nbs, parent, queue, known, done, dist);
        seen := known;
        ExpandingIsNear(edges, amount, maxHops, payer, cur, parent, queue, seen, done, dist);
        StayInGraph(edges, payer, adj, cur, nbs, seen0, seen);
      }
      ExpandedNow(edges, amount, maxHops, adj, cur, nbs, seen0, done0, dist0, seen, dist);
    }
    forall nodes, via | WalkTo(edges, amount, payer, payee, nodes, via) ensures |via| > maxHops {
      if |via| <= maxHops {
        NothingShorter(edges, amount, maxHops, payer, payee, parent, queue, seen, done, dist, nodes, via);
      }
    }
    return false, parent, seen, dist;
  }

  lemma StayInGraph(
      edges: seq<Edge>, payer: Address, adj: Adjacency, cur: Address, nbs: seq<(Address, nat)>, seen0: set<Address>,
      seen: set<Address>)
    requires IsAdjacency(edges, |edges|, adj) && nbs == if cur in adj then adj[cur] else []
    requires seen0 <= AllAddresses(edges) + {payer}
    requires seen <= seen0 + Targets(nbs)
    ensures seen <= AllAddresses(edges) + {payer}
  {
    forall v | v in seen ensures v in AllAddresses(edges) + {payer} {
      if v !in seen0 {
        var x :| x in nbs && x.0 == v;
        var k :| 0 <= k < |nbs| && nbs[k] == x;
        assert edges[nbs[k].1] in edges;
      }
    }
  }

  // ----- the path -----

  /** `path` runs over `nodes`, using the edges `via`. */
  ghost predicate IsPath(edges: seq<Edge>, amount: nat, path: seq<Edge>, nodes: seq<Address>, via: seq<nat>) {
    IsWalk(edges, amount, nodes, via) && |path| == |via| && forall k :: 0 <= k < |via| ==>
        via[k] < |edges| && path[k] == edges[via[k]]
  }

  lemma PrependStep(
      edges: seq<Edge>, amount: nat, path: seq<Edge>, nodes: seq<Address>, via: seq<nat>, u: Address, i: nat)
    requires IsPath(edges, amount, path, nodes, via) && Carries(edges, amount, u, i, nodes[0])
    ensures IsPath(edges, amount, [edges[i]] + path, [u] + nodes, [i] + via)
  {
    var p, n, w := [edges[i]] + path, [u] + nodes, [i] + via;
    forall k | 0 <= k < |w| ensures Carries(edges, amount, n[k], w[k], n[k + 1]) && p[k] == edges[w[k]] {
      if k > 0 {
        assert Carries(edges, amount, nodes[k - 1], via[k - 1], nodes[k]);
      }
    }
  }

  /** Distances along `nodes` count up from zero. */
  ghost predicate CountsUp(nodes: seq<Address>, dist: map<Address, nat>, first: nat) {
    forall k :: 0 <= k < |nodes| ==> nodes[k] in dist && dist[nodes[k]] == first + k
  }

  /** The loop that walks back from the payee, and the reversal after it. */
  method Reconstruct(
      edges: seq<Edge>, ghost amount: nat, ghost maxHops: nat, payer: Address, payee: Address, parent: Parents,
      ghost seen: set<Address>, ghost dist: map<Address, nat>)
    returns (r: Option<seq<Edge>>, ghost nodes: seq<Address>, ghost via: seq<nat>)
    requires Reached(edges, amount, maxHops, payer, parent, seen, dist) && payee in seen
    ensures r.Some? && IsPath(edges, amount, r.value, nodes, via) && WalkTo(edges, amount, payer, payee, nodes, via)
    ensures |via| == dist[payee] && CountsUp(nodes, dist, 0)
  {
    var pathEdges: seq<Edge> := [];
    var cur := payee;
    nodes, via := [payee], [];
    while cur != payer
      invariant cur in seen && nodes != [] && nodes[0] == cur && nodes[|nodes| - 1] == payee
      invariant IsPath(edges, amount, Reversed(pathEdges), nodes, via) && |via| + dist[cur] == dist[payee]
      invariant CountsUp(nodes, dist, dist[cur])
      decreases dist[cur]
    {
      if cur !in parent {
        return None, nodes, via;
      }
      var prev, ei := parent[cur].0, parent[cur].1;
      ReversedAppend(pathEdges, edges[ei]);
      PrependStep(edges, amount, Reversed(pathEdges), nodes, via, prev, ei);
      pathEdges := pathEdges + [edges[ei]];
      nodes, via := [prev] + nodes, [ei] + via;
      cur := prev;
    }
    return Some(Reversed(pathEdges)), nodes, via;
  }

  lemma {:induction false} ReversedAppend<T>(s: seq<T>, x: T)
    ensures Reversed(s + [x]) == [x] + Reversed(s)
  {
    if s == [] {
      assert s + [x] == [x];
    } else {
      assert (s + [x])[1..] == s[1..] + [x];
      ReversedAppend(s[1..], x);
    }
  }

  /** The final directional check along the path. */
  method RecheckLiquidity(
      path: seq<Edge>, payer: Address, amount: nat, ghost edges: seq<Edge>, ghost nodes: seq<Address>,
      ghost via: seq<nat>)
    returns (ok: bool)
    requires IsPath(edges, amount, path, nodes, via) && nodes[0] == payer
    ensures ok
  {
    var at := payer;
    for k := 0 to |path|
      invariant at == nodes[k]
    {
      assert Carries(edges, amount, nodes[k], via[k], nodes[k + 1]);
      if !CanSendFrom(path[k], at, amount) {
        return false;
      }
      at := if path[k].a == at then path[k].b else path[k].a;
    }
    return true;
  }

  /** Two trimmed endpoints joined by a walk of at most `maxHops` hops. */
  ghost predicate Routable(edges: seq<Edge>, payer: Address, payee: Address, maxHops: nat, amount: nat) {
    && payer != "" && payee != "" && payer != payee
    && exists nodes, via :: WalkTo(edges, amount, payer, payee, nodes, via) && |via| <= maxHops
  }

  /** A shortest path over distinct addresses. */
  ghost predicate IsRoute(
      edges: seq<Edge>, payer: Address, payee: Address, amount: nat, path: seq<Edge>, nodes: seq<Address>,
      via: seq<nat>)
  {
    && IsPath(edges, amount, path, nodes, via) && nodes[0] == payer && nodes[|path|] == payee && Distinct(nodes)
    && forall n, v :: WalkTo(edges, amount, payer, payee, n, v) ==> |path| <= |v|
  }

  lemma EndsHaveEdges(edges: seq<Edge>, amount: nat, from: Address, to: Address, nodes: seq<Address>, via: seq<nat>)
    requires WalkTo(edges, amount, from, to, nodes, via) && from != to
    ensures edges != [] && HasEdge(edges, |edges|, from) && HasEdge(edges, |edges|, to)
  {
    var n := |via| - 1;
    assert Carries(edges, amount, nodes[0], via[0], nodes[1]);
    assert Carries(edges, amount, nodes[n], via[n], nodes[n + 1]);
    assert edges[via[0]].a == from || edges[via[0]].b == from;
    assert edges[via[n]].a == to || edges[via[n]].b == to;
  }

  lemma IsolatedHasNoWalk(edges: seq<Edge>, adj: Adjacency, payer: Address, payee: Address, maxHops: nat, amount: nat)
    requires IsAdjacency(edges, |edges|, adj) && (edges == [] || payer !in adj || payee !in adj)
    ensures !Routable(edges, payer, payee, maxHops, amount)
  {
    if payer != payee {
      forall nodes, via ensures !WalkTo(edges, amount, payer, payee, nodes, via) {
        if WalkTo(edges, amount, payer, payee, nodes, via) {
          EndsHaveEdges(edges, amount, payer, payee, nodes, via);
          InAdjacency(edges, adj, payer);
          InAdjacency(edges, adj, payee);
        }
      }
    }
  }

  lemma InAdjacency(edges: seq<Edge>, adj: Adjacency, u: Address)
    requires IsAdjacency(edges, |edges|, adj) && HasEdge(edges, |edges|, u)
    ensures u in adj
  {
    var i :| 0 <= i < |edges| && (edges[i].a == u || edges[i].b == u);
    assert Connects(edges[i], u, if edges[i].a == u then edges[i].b else edges[i].a);
  }

  /**
   `find_path_for_amount`: succeeds exactly if the trimmed endpoints differ and some walk within the hop
   limit exists whose every sender may send; the path found is a shortest one and visits no address twice.
   Neither the reconstruction nor the final liquidity check ever fails.
   */
  method FindPathForAmount(edges: seq<Edge>, payer: string, payee: string, maxHops: nat, amount: nat)
    returns (r: Result<seq<Edge>, RouteError>, ghost nodes: seq<Address>, ghost via: seq<nat>)
    ensures r.Ok? <==> Routable(edges, Trim(payer), Trim(payee), maxHops, amount)
    ensures r.Ok? ==> IsRoute(edges, Trim(payer), Trim(payee), amount, r.value, nodes, via) && |r.value| <= maxHops
    ensures r != Err(ReconstructionFailed) && r != Err(InsufficientLiquidity)
    ensures r.Ok? <==>
              && Trim(payer) != "" && Trim(payee) != "" && Trim(payer) != Trim(payee)
              && exists n, v :: PayableWay(edges, amount, Trim(payer), Trim(payee), n, v) && |v| <= maxHops
    ensures r.Ok? ==>
              && |nodes| == |r.value| + 1 && nodes[0] == Trim(payer) && nodes[|r.value|] == Trim(payee)
              && (forall k :: 0 <= k < |r.value| ==>
                    r.value[k] in edges && Sends(r.value[k], nodes[k], nodes[k + 1], amount))
              && (forall n, v :: PayableWay(edges, amount, Trim(payer), Trim(payee), n, v) ==> |r.value| <= |v|)
  {
    FoundIffPayable(edges, Trim(payer), Trim(payee), maxHops, amount);
    nodes, via := [], [];
    var from, to := Trim(payer), Trim(payee);
    if from == "" || to == "" {
      return Err(EndpointMissing), nodes, via;
    }
    if from == to {
      return Err(SameEndpoints), nodes, via;
    }
    var adj := BuildGraph(edges);
    if edges == [] || from !in adj || to !in adj {
      IsolatedHasNoWalk(edges, adj, from, to, maxHops, amount);
      return Err(if edges == [] then NoChannels else if from !in adj then PayerUnknown else PayeeUnknown), nodes, via;
    }
    var found, parent, seen, dist := Search(edges, adj, from, to, maxHops, amount);
    if !found {
      return Err(NoPath), nodes, via;
    }
    var path;
    path, nodes, via := Reconstruct(edges, amount, maxHops, from, to, parent, seen, dist);
    if path.None? {
      return Err(ReconstructionFailed), nodes, via;
    }
    assert Distinct(nodes) by {
      assert forall i, j :: 0 <= i < j < |nodes| ==> dist[nodes[i]] != dist[nodes[j]];
    }
    if amount > 0 {
      var ok := RecheckLiquidity(path.value, from, amount, edges, nodes, via);
      if !ok {
        return Err(InsufficientLiquidity), nodes, via;
      }
    }
    assert WalkTo(edges, amount, from, to, nodes, via) && |via| <= maxHops;
    RouteIsPayable(edges, from, to, amount, path.value, nodes, via);
    return Ok(path.value), nodes, via;
  }

  // ----- ordered_signers -----

  /** One step of the walk back from the payee: the next address and the signer list. */
  function SignerStep(
      e: Edge, at: Address, signers: seq<Address>, payer: string, payee: string): (Address, seq<Address>) {
    if e.a != at && e.b != at then (at, signers)
    else
      var next := if e.a == at then e.b else e.a;
      (next, if next != payee && next != payer && next !in signers then signers + [next] else signers)
  }

  /** The state of the loop after walking back over `path[k..]`. */
  function WalkedBack(path: seq<Edge>, k: nat, payer: string, payee: string): (Address, seq<Address>)
    requires k <= |path|
    decreases |path| - k
  {
    if k == |path| then (Trim(payee), [Trim(payee)])
    else
      var (at, signers) := WalkedBack(path, k + 1, payer, payee);
      SignerStep(path[k], at, signers, payer, payee)
  }

  function Signers(path: seq<Edge>, payer: string, payee: string): seq<Address> {
    var signers := WalkedBack(path, 0, payer, payee).1;
    if payer in signers then signers else signers + [Trim(payer)]
  }

  method OrderedSigners(path: seq<Edge>, payer: string, payee: string) returns (signers: seq<Address>)
    ensures signers == Signers(path, payer, payee)
  {
    signers := [Trim(payee)];
    var at := Trim(payee);
    var k := |path|;
    while k > 0
      invariant 0 <= k <= |path| && (at, signers) == WalkedBack(path, k, payer, payee)
    {
      k := k - 1;
      var e := path[k];
      var next;
      if e.a == at {
        next := e.b;
      } else if e.b == at {
        next := e.a;
      } else {
        continue;
      }
      if next != payee && next != payer && next !in signers {
        signers := signers + [next];
      }
      at := next;
    }
    if payer !in signers {
      signers := signers + [Trim(payer)];
    }
  }

  lemma NotInReversedTail(nodes: seq<Address>, k: nat)
    requires Distinct(nodes) && k < |nodes|
    ensures nodes[k] !in Reversed(nodes[k + 1..])
  {
    var r := Reversed(nodes[k + 1..]);
    forall i | 0 <= i < |r| ensures r[i] != nodes[k] {
      assert r[i] == nodes[k + 1..][|r| - 1 - i];
    }
  }

  /** One hop further back: every address but the payer is new and is added. */
  lemma SignerStepAlong(e: Edge, nodes: seq<Address>, k: nat, payer: Address, payee: Address)
    requires Distinct(nodes) && k + 1 < |nodes| && nodes[0] == payer && nodes[|nodes| - 1] == payee
    requires Connects(e, nodes[k], nodes[k + 1])
    ensures SignerStep(e, nodes[k + 1], Reversed(nodes[k + 1..]), payer, payee)
            == (nodes[k], if k > 0 then Reversed(nodes[k..]) else Reversed(nodes[k + 1..]))
  {
    NotInReversedTail(nodes, k);
    assert nodes[k..] == [nodes[k]] + nodes[k + 1..];
    assert nodes[k] != nodes[k + 1];
  }

  lemma {:induction false} WalkedBackAlong(
      edges: seq<Edge>, payer: Address, payee: Address, amount: nat, path: seq<Edge>, nodes: seq<Address>,
      via: seq<nat>, k: nat)
    requires IsPath(edges, amount, path, nodes, via) && nodes[0] == payer && nodes[|path|] == payee && Distinct(nodes)
    requires Trim(payee) == payee && 0 < k <= |path|
    ensures WalkedBack(path, k, payer, payee) == (nodes[k], Reversed(nodes[k..]))
    decreases |path| - k
  {
    if k == |path| {
      assert nodes[k..] == [payee] && [payee][1..] == [];
      assert Reversed([payee]) == [payee];
    } else {
      WalkedBackAlong(edges, payer, payee, amount, path, nodes, via, k + 1);
      assert Carries(edges, amount, nodes[k], via[k], nodes[k + 1]);
      SignerStepAlong(path[k], nodes, k, payer, payee);
    }
  }

  /** The signers of a found path are its addresses in reverse: payee first, payer last, each once. */
  lemma SignersAreReversed(
      edges: seq<Edge>, payer: Address, payee: Address, amount: nat, path: seq<Edge>, nodes: seq<Address>,
      via: seq<nat>)
    requires IsPath(edges, amount, path, nodes, via) && nodes[0] == payer && nodes[|path|] == payee && Distinct(nodes)
    requires Trim(payer) == payer && Trim(payee) == payee && path != []
    ensures Signers(path, payer, payee) == Reversed(nodes)
  {
    WalkedBackAlong(edges, payer, payee, amount, path, nodes, via, 1);
    assert Carries(edges, amount, nodes[0], via[0], nodes[1]);
    SignerStepAlong(path[0], nodes, 0, payer, payee);
    NotInReversedTail(nodes, 0);
    assert nodes == [payer] + nodes[1..];
  }

  // ----- what the router hands to the two-phase commit -----

  function ChannelsOfPath(path: seq<Edge>): seq<ChannelId> {
    seq(|path|, k requires 0 <= k < |path| => path[k].channelId)
  }

  ghost predicate DistinctIds(edges: seq<Edge>) {
    forall i, j :: 0 <= i < j < |edges| ==> edges[i].channelId != edges[j].channelId
  }

  lemma {:induction false} ReversedTwice<T>(s: seq<T>)
    ensures Reversed(Reversed(s)) == s
  {
    var r := Reversed(Reversed(s));
    assert forall i :: 0 <= i < |s| ==> r[i] == s[i];
  }

  lemma ReversedDistinct(s: seq<Address>)
    requires Distinct(s)
    ensures Distinct(Reversed(s))
  {
    var r := Reversed(s);
    forall i, j | 0 <= i < j < |r| ensures r[i] != r[j] {
      assert r[i] == s[|s| - 1 - i] && r[j] == s[|s| - 1 - j];
    }
  }

  /** A path over distinct addresses uses each edge, hence each channel, once. */
  lemma PathChannelsDistinct(edges: seq<Edge>, amount: nat, path: seq<Edge>, nodes: seq<Address>, via: seq<nat>)
    requires IsPath(edges, amount, path, nodes, via) && Distinct(nodes) && DistinctIds(edges)
    ensures Distinct(ChannelsOfPath(path))
  {
    var ids := ChannelsOfPath(path);
    forall i, j | 0 <= i < j < |ids| ensures ids[i] != ids[j] {
      assert Carries(edges, amount, nodes[i], via[i], nodes[i + 1])
          && Carries(edges, amount, nodes[j], via[j], nodes[j + 1]);
      assert via[i] != via[j];
    }
  }

  /**
   The router satisfies the validator: for trimmed endpoints and distinct channel ids, a route of at most
   32 hops signs as a simple path, and hop k of the signed path is edge k from address k to address k + 1.
   */
  lemma RouteIsSimplePath(
      edges: seq<Edge>, payer: Address, payee: Address, amount: nat, path: seq<Edge>, nodes: seq<Address>,
      via: seq<nat>, c: PaymentCommit)
    requires IsRoute(edges, payer, payee, amount, path, nodes, via) && DistinctIds(edges) && payer != payee
    requires Trim(payer) == payer && Trim(payee) == payee && |path| <= MAX_ROUTE
    requires c.payer == payer && c.payee == payee && c.route == ChannelsOfPath(path)
    requires c.requiredSigners == Signers(path, payer, payee)
    ensures SimplePath(c)
    ensures forall k :: 0 <= k < |path| ==> PathHop(c, k) == Hop(path[k].channelId, nodes[k], nodes[k + 1])
  {
    assert path != [];
    SignersAreReversed(edges, payer, payee, amount, path, nodes, via);
    ReversedTwice(nodes);
    ReversedDistinct(nodes);
    PathChannelsDistinct(edges, amount, path, nodes, via);
  }

  /** So a descriptor of any of its hops, each once, passes `validate_descriptor_payment`. */
  lemma RouteDescriptorPasses(
      edges: seq<Edge>, payer: Address, payee: Address, amount: nat, path: seq<Edge>, nodes: seq<Address>,
      via: seq<nat>, d: Descriptor)
    requires IsRoute(edges, payer, payee, amount, path, nodes, via) && DistinctIds(edges) && payer != payee
    requires Trim(payer) == payer && Trim(payee) == payee && |path| <= MAX_ROUTE
    requires d.payment.payer == payer && d.payment.payee == payee
    requires d.payment.route == ChannelsOfPath(path) && d.payment.requiredSigners == Signers(path, payer, payee)
    requires d.payment.sessionId == d.txId && d.payment.providerId == d.coordinator
    requires d.paymentHash == PaymentDigest(d.payment)
    requires Amounts.Parsed(d.payment.amountHac) == Ok(d.amountZhu) && d.payment.amountSatoshi == d.amountSatoshi
    requires d.amountZhu > 0 || d.amountSatoshi > 0
    requires forall h :: h in d.hops ==>
                 exists k :: 0 <= k < |path| && h == Hop(path[k].channelId, nodes[k], nodes[k + 1])
    requires DistinctChannels(d.hops)
    ensures CheckPayment(d).None?
  {
    RouteIsSimplePath(edges, payer, payee, amount, path, nodes, via, d.payment);
    forall h | h in d.hops ensures IsPathHop(d.payment, h) {
      var k :| 0 <= k < |path| && h == Hop(path[k].channelId, nodes[k], nodes[k + 1]);
      assert h == PathHop(d.payment, k);
    }
    DescriptorIsSound(d);
  }

  // ----- merge_network_edges -----

  const ZHU_PER_MEI: nat := 100_000_000

  /** A registered channel's parsed balances. */
  datatype LocalChannel = LocalChannel(channelId: ChannelId, left: Address, right: Address, leftZhu: nat, rightZhu: nat)

  datatype Advertised = Advertised(
    channelId: ChannelId, left: Address, right: Address, viaProvider: Provider,
    capacityMei: nat, leftMei: nat, rightMei: nat, capacityZhu: nat, leftZhu: nat, rightZhu: nat)

  function EdgeFromLocal(c: LocalChannel, provider: Provider): Edge {
    Edge(c.channelId, c.left, c.right, provider, if c.leftZhu + c.rightZhu > U64_MAX then 0 else c.leftZhu + c.rightZhu,
         c.leftZhu, c.rightZhu, true)
  }

  function Scaled(mei: nat): nat {
    if mei * ZHU_PER_MEI > U64_MAX then 0 else mei * ZHU_PER_MEI
  }

  function EdgeFromAdvertised(c: Advertised): Edge {
    var exact := c.capacityZhu > 0 || c.leftZhu > 0 || c.rightZhu > 0;
    var capacity := if exact then c.capacityZhu else Scaled(c.capacityMei);
    var left := if exact then c.leftZhu else Scaled(c.leftMei);
    var right := if exact then c.rightZhu else Scaled(c.rightMei);
    var onlyTotal := left == 0 && right == 0 && capacity > 0;
    Edge(c.channelId, c.left, c.right, c.viaProvider, capacity, if onlyTotal then capacity else left,
         if onlyTotal then capacity else right, left > 0 || right > 0 || capacity > 0)
  }

  /** The ledger's channel as the router sees it. */
  function Seen(id: ChannelId, c: Ledger.Channel): LocalChannel {
    LocalChannel(id, c.left, c.right, c.leftHac, c.rightHac)
  }

  /**
   Where a route runs over a channel of this hub on which nothing is reserved, the ledger lets its sender pay:
   the side that is debited is the side the router looked at.
   */
  lemma LocalHopCanPay(
      l: Ledger.Ledger, provider: Provider, id: ChannelId, e: Edge, u: Address, v: Address, t: Ledger.Terms)
    requires id in l.channels && e == EdgeFromLocal(Seen(id, l.channels[id]), provider) && l.reservations == map[]
    requires Sends(e, u, v, t.zhu) && t.satoshi == 0
    ensures Ledger.SenderCanPay(l, t, Hop(id, u, v))
  {
    assert Ledger.Held(l.reservations, id, u, Ledger.Hac) == 0;
    assert Ledger.Held(l.reservations, id, u, Ledger.Satoshi) == 0;
  }

  /** The last local channel with this id. */
  function LocalEdge(local: seq<LocalChannel>, provider: Provider, id: ChannelId): (e: Option<Edge>)
    ensures e.Some? ==> e.value.channelId == id
  {
    if local == [] then None
    else if local[|local| - 1].channelId == id then Some(EdgeFromLocal(local[|local| - 1], provider))
    else LocalEdge(local[..|local| - 1], provider, id)
  }

  /** The first advertisement of this id. */
  function AdvertisedEdge(ads: seq<Advertised>, id: ChannelId): (e: Option<Edge>)
    ensures e.Some? ==> e.value.channelId == id
  {
    if ads == [] then None
    else
      var earlier := AdvertisedEdge(ads[..|ads| - 1], id);
      if earlier.Some? then earlier
      else if ads[|ads| - 1].channelId == id then Some(EdgeFromAdvertised(ads[|ads| - 1]))
      else None
  }

  /** A local channel wins over every advertisement of its id. */
  function MergedEdge(
      local: seq<LocalChannel>, ads: seq<Advertised>, provider: Provider, id: ChannelId): (e: Option<Edge>)
    ensures e.Some? ==> e.value.channelId == id
  {
    var own := LocalEdge(local, provider, id);
    if own.Some? then own else AdvertisedEdge(ads, id)
  }

  ghost predicate Merges(
      local: seq<LocalChannel>, ads: seq<Advertised>, provider: Provider, byId: map<ChannelId, Edge>) {
    forall id :: (id in byId <==> MergedEdge(local, ads, provider, id).Some?)
      && (id in byId ==> byId[id] == MergedEdge(local, ads, provider, id).value)
  }

  lemma MergeOneLocal(local: seq<LocalChannel>, provider: Provider, i: nat, byId: map<ChannelId, Edge>)
    requires i < |local| && Merges(local[..i], [], provider, byId)
    ensures Merges(local[..i + 1], [], provider, byId[local[i].channelId := EdgeFromLocal(local[i], provider)])
  {
    assert local[..i + 1][..i] == local[..i];
  }

  lemma MergeOneAd(
      local: seq<LocalChannel>, ads: seq<Advertised>, provider: Provider, i: nat, byId: map<ChannelId, Edge>)
    requires i < |ads| && Merges(local, ads[..i], provider, byId)
    ensures var id := ads[i].channelId;
            Merges(local, ads[..i + 1], provider, if id in byId then byId else byId[id := EdgeFromAdvertised(ads[i])])
  {
    assert ads[..i + 1][..i] == ads[..i];
  }

  /** No later local channel has this one's id. */
  predicate LastOf(local: seq<LocalChannel>, i: nat)
    requires i < |local|
  {
    forall j :: i < j < |local| ==> local[j].channelId != local[i].channelId
  }

  /** No earlier advertisement has this one's id. */
  predicate FirstOf(ads: seq<Advertised>, i: nat)
    requires i < |ads|
  {
    forall j :: 0 <= j < i ==> ads[j].channelId != ads[i].channelId
  }

  /**
   The edge of an advertisement: the exact balances if any is given, whole HAC scaled otherwise; a capacity alone
   counts for both sides, and an advertisement that shows nothing does not restrict.
   */
  predicate IsAdvertised(e: Edge, c: Advertised) {
    && e.channelId == c.channelId && e.a == c.left && e.b == c.right && e.viaProvider == c.viaProvider
    && (c.leftZhu > 0 || c.rightZhu > 0 ==>
          e.liquidityKnown && e.aAvailable == c.leftZhu && e.bAvailable == c.rightZhu && e.capacityZhu == c.capacityZhu)
    && (c.leftZhu == 0 && c.rightZhu == 0 && c.capacityZhu > 0 ==>
          e.liquidityKnown && e.aAvailable == e.bAvailable == e.capacityZhu == c.capacityZhu)
    && (c.leftZhu == 0 && c.rightZhu == 0 && c.capacityZhu == 0 ==>
          var left, right, capacity := InZhu(c.leftMei), InZhu(c.rightMei), InZhu(c.capacityMei);
          && e.capacityZhu == capacity
          && (left > 0 || right > 0 ==> e.liquidityKnown && e.aAvailable == left && e.bAvailable == right)
          && (left == 0 && right == 0 && capacity > 0 ==>
                e.liquidityKnown && e.aAvailable == capacity && e.bAvailable == capacity)
          && (left == 0 && right == 0 && capacity == 0 ==> !e.liquidityKnown))
  }

  /** Whole HAC in Zhu; what does not fit counts as nothing. */
  function InZhu(hac: nat): nat {
    if hac * 100_000_000 <= 18_446_744_073_709_551_615 then hac * 100_000_000 else 0
  }

  lemma {:induction false} LastIsLocal(local: seq<LocalChannel>, provider: Provider, i: nat)
    requires i < |local| && LastOf(local, i)
    ensures LocalEdge(local, provider, local[i].channelId) == Some(EdgeFromLocal(local[i], provider))
  {
    var n := |local| - 1;
    if i < n {
      LastIsLocal(local[..n], provider, i);
    }
  }

  lemma {:induction false} NoLocal(local: seq<LocalChannel>, provider: Provider, id: ChannelId)
    ensures LocalEdge(local, provider, id).None? <==> forall j :: 0 <= j < |local| ==> local[j].channelId != id
  {
    if local != [] {
      NoLocal(local[..|local| - 1], provider, id);
      assert forall j :: 0 <= j < |local| - 1 ==> local[..|local| - 1][j] == local[j];
    }
  }

  lemma {:induction false} NoAd(ads: seq<Advertised>, id: ChannelId)
    ensures AdvertisedEdge(ads, id).None? <==> forall j :: 0 <= j < |ads| ==> ads[j].channelId != id
  {
    if ads != [] {
      NoAd(ads[..|ads| - 1], id);
      assert forall j :: 0 <= j < |ads| - 1 ==> ads[..|ads| - 1][j] == ads[j];
    }
  }

  lemma {:induction false} FirstIsAdvertised(ads: seq<Advertised>, i: nat)
    requires i < |ads| && FirstOf(ads, i)
    ensures AdvertisedEdge(ads, ads[i].channelId) == Some(EdgeFromAdvertised(ads[i]))
    ensures IsAdvertised(EdgeFromAdvertised(ads[i]), ads[i])
  {
    var n := |ads| - 1;
    if i < n {
      FirstIsAdvertised(ads[..n], i);
    } else {
      NoAd(ads[..n], ads[i].channelId);
    }
  }

  lemma MergedIds(
      local: seq<LocalChannel>, ads: seq<Advertised>, provider: Provider, byId: map<ChannelId, Edge>)
    requires Merges(local, ads, provider, byId)
    ensures forall id :: id in byId <==>
              (exists i :: 0 <= i < |local| && local[i].channelId == id)
              || (exists i :: 0 <= i < |ads| && ads[i].channelId == id)
  {
    forall id
      ensures id in byId <==>
              (exists i :: 0 <= i < |local| && local[i].channelId == id)
              || (exists i :: 0 <= i < |ads| && ads[i].channelId == id)
    {
      NoLocal(local, provider, id);
      NoAd(ads, id);
    }
  }

  /** `merge_network_edges`: one edge per channel id, a local channel always winning over advertisements. */
  method MergeNetworkEdges(local: seq<LocalChannel>, ads: seq<Advertised>, provider: Provider)
    returns (byId: map<ChannelId, Edge>)
    ensures forall id :: id in byId ==> byId[id].channelId == id
    ensures forall id :: id in byId <==> MergedEdge(local, ads, provider, id).Some?
    ensures forall id :: id in byId ==> byId[id] == MergedEdge(local, ads, provider, id).value
    ensures forall id :: id in byId <==>
              (exists i :: 0 <= i < |local| && local[i].channelId == id)
              || (exists i :: 0 <= i < |ads| && ads[i].channelId == id)
    ensures forall i :: 0 <= i < |local| && LastOf(local, i) ==>
              var c, id := local[i], local[i].channelId;
              id in byId && byId[id] == Edge(id, c.left, c.right, provider,
                                             if c.leftZhu + c.rightZhu <= U64_MAX then c.leftZhu + c.rightZhu else 0,
                                             c.leftZhu, c.rightZhu, true)
    ensures forall i :: 0 <= i < |ads| && FirstOf(ads, i) ==>
              || (exists j :: 0 <= j < |local| && local[j].channelId == ads[i].channelId)
              || (ads[i].channelId in byId && IsAdvertised(byId[ads[i].channelId], ads[i]))
  {
    byId := map[];
    for i := 0 to |local|
      invariant Merges(local[..i], [], provider, byId)
    {
      MergeOneLocal(local, provider, i, byId);
      byId := byId[local[i].channelId := EdgeFromLocal(local[i], provider)];
    }
    assert local[..|local|] == local;
    for i := 0 to |ads|
      invariant Merges(local, ads[..i], provider, byId)
    {
      MergeOneAd(local, ads, provider, i, byId);
      if ads[i].channelId !in byId {
        byId := byId[ads[i].channelId := EdgeFromAdvertised(ads[i])];
      }
    }
    assert ads[..|ads|] == ads;
    MergedIds(local, ads, provider, byId);
    forall i | 0 <= i < |local| && LastOf(local, i)
      ensures MergedEdge(local, ads, provider, local[i].channelId) == Some(EdgeFromLocal(local[i], provider))
    {
      LastIsLocal(local, provider, i);
    }
    forall i | 0 <= i < |ads| && FirstOf(ads, i)
               && (forall j :: 0 <= j < |local| ==> local[j].channelId != ads[i].channelId)
      ensures MergedEdge(local, ads, provider, ads[i].channelId) == Some(EdgeFromAdvertised(ads[i]))
    {
      NoLocal(local, provider, ads[i].channelId);
      FirstIsAdvertised(ads, i);
    }
  }
}
