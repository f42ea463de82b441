# EmergencyFlow in Dafny

A verified model of the flow allocator of EmergencyFlow. The allocator routes a supply from a
source to a sink across a directed network. Each edge has a capacity and a travel time, and each
vertex has a residence time and a declared priority.

The core is the class `EmergencyNetwork`:

- **Graph store.** `add_edge`, `set_vertex_residence_time` and `get_adjacent`.
- **Path finder.** `find_augmenting_path` is a best-first search over edges that still have
  capacity. A neighbour's cost is the popped cost plus travel and residence time, multiplied by the
  neighbour's priority factor `(max_p - p(v) + 1) / max_p`. Its helpers are
  `_reconstruct_path` and `_calculate_priority_factor`.
- **Flow distributor.** `distribute_supplies` repeatedly finds a path and commits the smaller of
  the missing supply and the path's bottleneck. Each commitment lowers the capacities in place
  (`_update_residual_capacities`) and records the path's time (`_calculate_path_time`). This
  continues until the supply is met or no path is left.

The older labelled graph `Grafo` (adding vertices and edges) is modelled too.

Layout:

- `collections.dfy`, module `Collections`: `Option` and duplicate-free sequences.
- `flow_spec.dfy`, module `FlowSpec`: the pure definitions and their lemmas:
  - costs with an explicit infinity;
  - chains and augmenting paths, and the cut argument;
  - the path-time formula and a hop-by-hop reference for it;
  - the capacity decrement;
  - the priority factor;
  - `CommitRun`, the replay of a whole greedy distribution run, which is the specification the
    distributor is proved against.
- `search_spec.dfy`, module `SearchSpec`:
  - the invariant of the search, including a ghost visiting order `rank` under which every
    predecessor comes before its successor;
  - one lemma per step of the search.
- `emergency_network.dfy`, module `EmergencyNetwork`: the class `Network`. Its fields are the
  source's attributes. The graph-store methods (`AddEdge`, `SetVertexResidenceTime`,
  `GetAdjacent`) are single updates or reads of those fields; the path reconstruction, the path
  time, the capacity update, the search and the distributor keep the source's loops. The priority
  factor is the module function `FlowSpec.PriorityFactor`, since it reads nothing but the priority
  map. Six pieces are split out of longer methods:
  - `VisitVertex` is one pass of the search loop that visits a vertex other than the sink
    (EmergencyNetwork.py:66-89);
  - `RelaxNeighbours` is the inner `for` loop of `find_augmenting_path` (EmergencyNetwork.py:75-89);
  - `PathToSink` is the pop of the sink and the return after it (EmergencyNetwork.py:66-73);
  - `DistributionRound` is one pass of the `distribute_supplies` loop (EmergencyNetwork.py:104-117);
  - `NextPath` is the search call and the `if not path` test in it (EmergencyNetwork.py:104-106);
  - `CommitPath` is the commitment along a found path (EmergencyNetwork.py:108-117).

  The search and the distributor are proved against `SearchSpec` and `FlowSpec`. `DistributeTwice`
  is a client that runs the distributor twice in a row.
- `grafo.dfy`, module `Grafo`: the class `Grafo`, with one instance per graph.

The model follows what the code does, including where it is permissive:

- `add_edge` does not check that its endpoints are known vertices or that its capacity and
  travel time are non-negative.
- A repeated edge overwrites its capacity and travel time, and appends its head to the adjacency
  list a second time.
- The priority map is not checked for emptiness or positive values. The priority factor fails
  only through Python's own `max` or division errors.

`AddEdge` stores exactly what the code stores, duplicates included.

## Model

| member | source | states |
|---|---|---|
| EmergencyNetwork.Network.constructor | EmergencyNetwork.py:6-13 | The network holds the given vertices, edges and priorities, and has no travel times, residence times, capacities or adjacency lists yet; the store invariant holds. |
| EmergencyNetwork.Network.AddEdge | EmergencyNetwork.py:15-19 | The edge joins `E`. Its capacity and travel time are set, overwriting old values. Its head is appended to the tail's neighbour list, even when already there. Nothing else changes, and the store invariant (capacities, travel times and adjacency agree) is kept. |
| EmergencyNetwork.Network.SetVertexResidenceTime | EmergencyNetwork.py:21-22 | Only the residence time of that vertex changes, to the given value. |
| EmergencyNetwork.Network.GetAdjacent | EmergencyNetwork.py:24-25 | The list holds exactly the heads of the stored edges out of the vertex, and is empty for a vertex with no edges. |
| EmergencyNetwork.Network.ReconstructPath | EmergencyNetwork.py:27-39 | Returns None exactly when the sink's cost is infinite. Otherwise following the predecessors ends, because each was visited earlier, and yields a contiguous source-to-sink chain of positive-capacity edges that repeats no vertex. That chain is empty when source equals sink. Every edge of the chain is a predecessor link of the labels. When each label's cost is compounded from its predecessor's and the source's cost is 0, the chain's compounded cost is the sink's label cost. |
| EmergencyNetwork.Network.CalculatePathTime | EmergencyNetwork.py:41-53 | The result is `PathTime`: every edge's travel time plus the residence time of every path vertex but the last, a missing residence time counting as 0. |
| EmergencyNetwork.Network.UpdateResidualCapacities | EmergencyNetwork.py:55-57 | The new capacities are the old ones with the flow subtracted once per occurrence of each path edge. The edge set and the store invariant are unchanged. |
| EmergencyNetwork.Network.FindAugmentingPath | EmergencyNetwork.py:59-91 | Returns the empty path when source equals sink. A returned path is a contiguous source-to-sink chain of stored, positive-capacity edges that repeats no vertex. None is returned only when no chain of positive-capacity edges leads from source to sink. The ghost results are the labels at the sink's pop and the order in which the vertices were visited. In those labels every cost is `(pred cost + travel + residence) * factor` of its predecessor's, and the source's cost is 0. Every visited vertex other than the source has a predecessor visited before it across a positive edge, so the source is visited first. No two vertices share a place in the visiting order. The path's edges are predecessor links that go up in the visiting order, and its compounded cost equals the sink's label cost. Every visited vertex, the sink included, has a cost at most every offer across a positive edge leaving the vertices visited before it. A label keeps the first of equal offers: when a vertex visited before a label's predecessor has a positive edge to the labelled vertex, the label's cost is strictly below that vertex's offer, because a relabel needs a strictly smaller cost. `SearchSpec.DetourNotBestFirst`, `SearchSpec.LateRelabelNotBestFirst`, `SearchSpec.TieNotBestFirst` and `SearchSpec.TwinNotBestFirst` each give a network on which this rules out a path the search does not return. |
| EmergencyNetwork.Network.VisitVertex | EmergencyNetwork.py:66-89 | Popping a least entry of a vertex that is neither visited nor the sink marks that vertex visited, relaxes its edges and keeps the whole search invariant, with one more vertex visited. |
| EmergencyNetwork.Network.RelaxNeighbours | EmergencyNetwork.py:75-89 | Relaxing the neighbours of a newly visited vertex keeps the search invariant and the cost invariant. Each label either stays or is the vertex's offer `(popped cost + travel + residence) * factor` with that vertex as predecessor, strictly below the old cost. Afterwards no positive unvisited neighbour's cost is above its offer, visited labels are unchanged, and every positive edge out of a visited vertex has its offer taken. The queue only grows, and every entry pushed is a relabelled vertex at its new cost. |
| EmergencyNetwork.Network.PathToSink | EmergencyNetwork.py:66-73 | Popping a least entry of the sink visits it with the next place in the visiting order. The path then read back from the predecessors is an augmenting path over stored edges, empty when source equals sink, and it satisfies `FoundBestFirst` for the labels and the visiting order extended by the sink. |
| EmergencyNetwork.Network.CommitPath | EmergencyNetwork.py:108-117 | One round commits `min(missing supply, bottleneck)` along the found path. The flow rises by a positive amount and the path is recorded with it. The capacities drop by that amount along the path, and the distribution state (sum, bounds, times, replay) is kept. |
| EmergencyNetwork.Network.DistributeSupplies | EmergencyNetwork.py:98-119 | A non-positive supply returns `([], [], 0)` and leaves the capacities alone. The flow is the sum of the per-path flows and lies in `[0, supply]`. `times` has one entry per path, each being that path's time. The paths and the new capacities are a replay of greedy steps from the old capacities. Stopping short of the supply means the source equals the sink or no positive path is left. |
| EmergencyNetwork.Network.DistributionRound | EmergencyNetwork.py:103-117 | One pass of the loop keeps the distribution state (sum, bounds, times, replay) and the search's preconditions. It either raises the flow, or stops with the flow, the paths, the times and the capacities unchanged; it stops only when the source equals the sink or no positive path is left. |
| EmergencyNetwork.Network.NextPath | EmergencyNetwork.py:104-106 | A path that passes the `if not path` test is non-empty, augmenting and made of stored edges. A search result fails the test only when the source equals the sink or no positive path exists. |
| EmergencyNetwork.Network.DistributeTwice | EmergencyNetwork.py:98-119 | Each of two runs in a row returns its paths with their flows summing to its total. The first run is a replay of greedy steps from the old capacities, and the second a replay from the capacities the first left, ending at the new capacities. The edge set is kept, no capacity rises, and the second run yields no more flow than the first. |
| FlowSpec.MinEntryExists | EmergencyNetwork.py:66 | A non-empty queue has an entry of least cost, so popping is always possible. |
| FlowSpec.SetMinExists | EmergencyNetwork.py:66 | A non-empty finite set of costs has a least element. |
| FlowSpec.MinCost | EmergencyNetwork.py:85-88 | The minimum of two possibly infinite costs is one of them and neither is below it. |
| FlowSpec.Residence | EmergencyNetwork.py:51 | A missing residence time counts as 0: only a vertex with a stored residence time has a non-zero one, and non-negative stored times give a non-negative result. |
| FlowSpec.PathVertices | EmergencyNetwork.py:47-48 | A path's vertex list is its start followed by each edge's head, one longer than the path. |
| FlowSpec.ChainStaysInClosedSet | EmergencyNetwork.py:65-91 | A positive chain that starts in a set closed under positive edges ends in that set. |
| FlowSpec.ClosedSetBlocksPaths | EmergencyNetwork.py:65-91 | A set closed under positive edges that holds the source but not the sink admits no positive source-to-sink chain. |
| FlowSpec.DistinctVerticesDistinctEdges | EmergencyNetwork.py:27-39 | A path that repeats no vertex repeats no edge. |
| FlowSpec.TravelPlusTailsIsHopSum | EmergencyNetwork.py:41-53 | Travel sum plus the residence times of the edges' tails equals the hop-by-hop sum. |
| FlowSpec.PathTimeByHops | EmergencyNetwork.py:41-53 | On a chain, the path time equals the sum over edges of travel time plus the tail's residence time. |
| FlowSpec.MinCapacity | EmergencyNetwork.py:110 | The bottleneck is at most every edge's capacity and is attained by some edge of the path. |
| FlowSpec.Decrement | EmergencyNetwork.py:55-57 | The decrement keeps the edge set. |
| FlowSpec.DecrementCount | EmergencyNetwork.py:55-57 | An edge loses the flow once per occurrence on the path, and an edge off the path keeps its capacity. |
| FlowSpec.DistinctCount | EmergencyNetwork.py:55-57 | In a duplicate-free path each edge occurs exactly once or not at all. |
| FlowSpec.DecrementAugmentingPath | EmergencyNetwork.py:55-57 | On an augmenting path, exactly the path's edges lose the flow, each once. |
| FlowSpec.MaxPriority | EmergencyNetwork.py:94 | The maximum is one of the priorities and no priority exceeds it. |
| FlowSpec.EffectivePriority | EmergencyNetwork.py:95 | An undeclared vertex counts as priority 1; with a non-empty map of priorities at least 1, every vertex's priority lies between 1 and the maximum. |
| FlowSpec.ValidPrioritiesDefineFactor | EmergencyNetwork.py:93-96 | A non-empty priority map with every priority at least 1 makes the factor's maximum exist and be non-zero. |
| FlowSpec.PriorityFactor | EmergencyNetwork.py:93-96 | With priorities at least 1, the factor lies in (0, 1]. A vertex without a declared priority gets factor 1. |
| FlowSpec.FractionBounds | EmergencyNetwork.py:96 | A quotient by itself is 1, and a positive numerator no larger than its divisor gives a quotient in (0, 1]. |
| FlowSpec.RelaxedCost | EmergencyNetwork.py:79-82 | A factor of 1 leaves the raw time `current + travel + residence` unchanged; with non-negative inputs and a factor in (0, 1] the offer lies between 0 and the raw time. |
| FlowSpec.DetourCheaperThanDirect | EmergencyNetwork.py:59-96 | In a four-edge network with the factor defined, the direct edge s→w compounds to 6 and the edge s→a to 7. The detour s→a→x→w through the high-priority x compounds to 9/5, below 6. |
| FlowSpec.PriorityFactorOrder | EmergencyNetwork.py:93-96 | One vertex's factor is below another's exactly when its effective priority is above the other's. |
| FlowSpec.RaisingPriorityLowersFactor | EmergencyNetwork.py:93-96 | Raising a vertex's priority strictly lowers its factor, even when the new value becomes the maximum. |
| FlowSpec.ExampleCostsNotMonotone | EmergencyNetwork.py:122-139 | In the repository's example network the source offers v2 the cost 8/3, and v2 offers v3 the cost 23/9, which is smaller: an offer can fall below the cost of the vertex it is made from, as it never does in Dijkstra's search. |
| FlowSpec.TimesRecordedAppend | EmergencyNetwork.py:115 | Appending a path together with its time keeps every recorded time equal to its path's time. |
| FlowSpec.GreedyStepFlow | EmergencyNetwork.py:108-111 | A committed flow is at least 1, at most the missing supply, and at most every capacity on its path. |
| FlowSpec.GreedyStepLowersCapacities | EmergencyNetwork.py:108-117 | A commitment lowers exactly the path's edges by the flow. No capacity rises, the first edge's strictly drops, and a non-negative capacity stays non-negative. |
| FlowSpec.CommitRun | EmergencyNetwork.py:98-119 | Replaying a run of greedy commitments, when every one is a greedy step on the capacities left before it, keeps the edge set. |
| FlowSpec.CommitRunLowers | EmergencyNetwork.py:98-119 | A replayable run raises no capacity. |
| FlowSpec.CommitRunWithinSupply | EmergencyNetwork.py:98-119 | In a replayable run every flow is positive and the total never exceeds the supply. |
| FlowSpec.CommitRunKeepsNonNegative | EmergencyNetwork.py:98-119 | A replayable run keeps the edge set and never drives a non-negative capacity below zero. |
| FlowSpec.DistributionStep | EmergencyNetwork.py:103-117 | One round with a non-empty augmenting path commits a flow in `(0, missing supply]` and keeps the distribution state (sum, bounds, times, replay). |
| FlowSpec.CommitRunExtend | EmergencyNetwork.py:108-117 | A greedy step on the capacities a replay left extends the replay by one step, and the total grows by exactly that flow, which is positive and at most the missing supply. |
| FlowSpec.SelfChainRepeats | EmergencyNetwork.py:27-39 | A non-empty chain from a vertex back to itself repeats that vertex. |
| FlowSpec.NoStepWithoutPath | EmergencyNetwork.py:103-106 | With no positive source-to-sink chain, or source equal to sink, no greedy step exists. |
| FlowSpec.NoPathNoRun | EmergencyNetwork.py:103-106 | On such capacities the only replayable run is the empty one. |
| FlowSpec.RepeatedRunYieldsNoMore | EmergencyNetwork.py:98-119 | A second replayable run on the capacities a first run stopped with commits no more flow than the first: either the first met the supply, or nothing is left to commit. |
| SearchSpec.InitialLabels | EmergencyNetwork.py:60-61 | The labels cover the vertices and the source. The source has cost 0, no predecessor and infinite bottleneck. Every other vertex has infinite cost, no predecessor and bottleneck 0. |
| SearchSpec.SearchStart | EmergencyNetwork.py:60-63 | The initial labels, the queue holding only the source, and the empty visited set satisfy the search invariant. |
| SearchSpec.SearchSkip | EmergencyNetwork.py:66-68 | Dropping a popped entry of a visited vertex keeps the invariant. |
| SearchSpec.SearchVisit | EmergencyNetwork.py:66-70 | Visiting a popped unvisited vertex keeps the invariant, gives it a later rank than its predecessor, and shrinks the set of unvisited vertices. |
| SearchSpec.VisitShape | EmergencyNetwork.py:70 | Visiting a vertex keeps the label keys and extends the visiting order by one, with a place no earlier vertex holds. |
| SearchSpec.VisitQueue | EmergencyNetwork.py:66-70 | A popped unvisited vertex is reached, and is the source on the first pop. The remaining queue still lists every reached unvisited vertex. |
| SearchSpec.VisitTree | EmergencyNetwork.py:70 | The newly visited vertex's predecessor was visited earlier and reaches it over a positive edge. |
| SearchSpec.SearchRelax | EmergencyNetwork.py:84-89 | Relabelling an unvisited neighbour across a positive edge and pushing it keeps the invariant. No reached vertex becomes unreached, and the neighbour is reached. |
| SearchSpec.RelaxQueue | EmergencyNetwork.py:89 | After a push, the queue still holds only reached vertices and lists every reached unvisited vertex. |
| SearchSpec.RelaxPredecessors | EmergencyNetwork.py:85-88 | A new label names a visited predecessor across a positive edge. |
| SearchSpec.RelaxTree | EmergencyNetwork.py:85-88 | Relabelling an unvisited vertex leaves the predecessor tree of the visited vertices intact. |
| SearchSpec.NeighboursCoveredStep | EmergencyNetwork.py:75-89 | After each neighbour is handled, a positive unvisited one has its offer taken: its cost is not above the offer. Lowering costs later keeps that. |
| SearchSpec.NeighboursCoveredCover | EmergencyNetwork.py:75-89 | Once all neighbours are handled, every positive edge out of the visited set, the new vertex included, has its offer taken. |
| SearchSpec.SearchExhausted | EmergencyNetwork.py:65-91 | An empty queue with the sink unvisited means the visited set is a cut, so no positive source-to-sink chain exists. |
| SearchSpec.CostStart | EmergencyNetwork.py:60-62 | The initial labels and queue satisfy the cost invariant: no entry is below its vertex's label, and every cost follows its predecessor's. |
| SearchSpec.CostPop | EmergencyNetwork.py:66 | Removing a queue entry keeps the cost invariant. |
| SearchSpec.PoppedCostIsLabel | EmergencyNetwork.py:66 | A least entry popped for an unvisited vertex carries exactly that vertex's label cost. |
| SearchSpec.CostRelax | EmergencyNetwork.py:79-89 | Relabelling a neighbour with its offer from a visited vertex, and pushing it, keeps the cost invariant. |
| SearchSpec.RelabelStart | EmergencyNetwork.py:75 | Before any neighbour is handled, the relabelling rule holds trivially. |
| SearchSpec.RelabelStep | EmergencyNetwork.py:84-89 | Relabelling a neighbour with a strictly cheaper offer keeps the relabelling rule. |
| SearchSpec.RelabelRuleConsequences | EmergencyNetwork.py:75-89 | Under the relabelling rule no cost rises and visited labels are unchanged. |
| SearchSpec.RelabelLowers | EmergencyNetwork.py:84-88 | Replacing a label by a strictly cheaper one raises no cost. |
| SearchSpec.OfferTakenLower | EmergencyNetwork.py:84 | An offer already taken stays taken when the head's cost does not rise. |
| SearchSpec.FrontierVisit | EmergencyNetwork.py:70 | Visiting a vertex keeps the frontier property for every vertex visited before it. |
| SearchSpec.PoppedAtFrontier | EmergencyNetwork.py:65-73 | At any pop of an unvisited vertex, its cost follows the predecessors, the source has cost 0 and was visited before unless it is the popped vertex, and the popped cost is at most every offer across a positive edge leaving the visited set. |
| SearchSpec.PoppedInOrderVisit | EmergencyNetwork.py:66-70 | Visiting a vertex popped at the frontier, with the next rank, keeps every visit in best-first order. |
| SearchSpec.PoppedInOrderRelabel | EmergencyNetwork.py:84-89 | Relabelling that leaves the visited labels alone keeps every visit in best-first order. |
| SearchSpec.DetourNotBestFirst | EmergencyNetwork.py:59-91 | On the four-edge detour network, no labels and visiting order make the detour s→a→x→w a best-first result: `a` would be visited at cost 7 while the source offers `w` the cost 6. |
| SearchSpec.LateRelabelNotBestFirst | EmergencyNetwork.py:59-91 | On a network where a vertex visited late relabels the sink (s→a 1, s→b 2, a→t 10, b→t 1), no labels and visiting order make s→a→t a best-first result, although it is an augmenting path. |
| SearchSpec.TieNotBestFirst | EmergencyNetwork.py:59-91 | On a network where both routes to the sink offer it the same cost 3 (s→a 1, s→b 2, a→t 2, b→t 1), no labels and visiting order make s→b→t a best-first result: visiting a before b makes t keep a's first offer, and visiting b first pops it above s's offer to a. |
| SearchSpec.TieBestFirst | EmergencyNetwork.py:59-91 | On that network, the path s→a→t that the search returns, with the labels it leaves (s 0, a 1, b 2, t 3 from a) and the visiting order s, a, b, t, is a best-first result. |
| SearchSpec.TwinNotBestFirst | EmergencyNetwork.py:59-91 | On a network where s offers both a and b the cost 1 and the two high-priority vertices are joined both ways (s→a 10, s→b 10, a→b 1, b→a 1, a→t 1, b→t 1, priorities a:10, b:10, t:1), no labels and visiting order make s→a→t a best-first result: the twin visited second is popped at 0.2 and offers t 1.2, below the 2 that s→a→t compounds to. |
| SearchSpec.TwinBestFirst | EmergencyNetwork.py:59-91 | On that network, the path s→a→b→t that the search returns, with the labels it leaves (s 0, a 1, b 0.2 from a, t 1.2 from b) and the visiting order s, a, b, t, is a best-first result. |
| SearchSpec.FirstOfferVisit | EmergencyNetwork.py:66-70 | Visiting a new vertex with the next rank keeps every label's first offer kept. |
| SearchSpec.FirstOfferRelabel | EmergencyNetwork.py:84-89 | Relabelling an unvisited neighbour with a strictly cheaper offer keeps every label's first offer kept: each vertex visited before the new predecessor had already offered no less. |
| SearchSpec.NoEarlierOffers | EmergencyNetwork.py:84 | The first-offer property holds when no vertex visited before a label's predecessor has a positive edge to the labelled vertex. |
| SearchSpec.LateRelabelBestFirst | EmergencyNetwork.py:59-91 | On that network, the path s→b→t that the search returns, with the labels it leaves (s 0, a 1, b 2, t 3) and the visiting order s, a, b, t, is a best-first result. |
| SearchSpec.PathRankedStep | EmergencyNetwork.py:34-37 | Prepending an edge whose tail was visited before its head keeps every edge of the path going up in the visiting order. |
| SearchSpec.BackChainStep | EmergencyNetwork.py:34-37 | Stepping from a visited vertex other than the source to its predecessor goes to an earlier-visited vertex, and keeps the chain back to the sink positive, duplicate-free and made of predecessor links. |
| SearchSpec.PushesStep | EmergencyNetwork.py:89 | Pushing a newly relabelled vertex at its new cost keeps every pushed entry accounted for by a relabelling. |
| SearchSpec.SearchLoopStart | EmergencyNetwork.py:60-63 | The initial labels, queue, visited set and empty visiting order satisfy the whole loop invariant. |
| SearchSpec.PopSkip | EmergencyNetwork.py:66-68 | Dropping an entry of a visited vertex shrinks the queue and keeps the loop invariant. |
| SearchSpec.PopSink | EmergencyNetwork.py:66-73 | Popping a least entry of the sink visits it and gives `SinkReached`: the predecessors lead back to the source in visiting order, no two vertices share a place in that order, every visit, the sink's included, was in best-first order, and every label kept the first of equal offers. |
| SearchSpec.PopVisit | EmergencyNetwork.py:66-70 | Popping a least entry of another unvisited vertex visits it at its label cost, shrinks the unvisited set, and leaves the search ready to relax its edges. |
| SearchSpec.PredecessorLinksStep | EmergencyNetwork.py:34-37 | Prepending the link from a vertex's predecessor keeps every edge a predecessor link. |
| SearchSpec.CostAlongStep | EmergencyNetwork.py:34-37 | Stepping back over a predecessor link keeps the sink's cost equal to the compounded cost from the current vertex, with that vertex's label cost as the start. |
| Grafo.Grafo.constructor | grafo.py:9-14 | A new graph has no labels, adjacency lists or edges. |
| Grafo.Grafo.AdicionarVertice | grafo.py:16-24 | A label already present is refused and nothing changes. A new label is appended with an empty neighbour list. The result is true exactly for a new label. No label is ever duplicated. |
| Grafo.Grafo.AdicionarAresta | grafo.py:26-36 | An unknown endpoint is refused and nothing changes. An existing edge is refused but its data is overwritten. A new edge appends its head and stores its data. The labels never change, and an edge has data exactly when it is in an adjacency list. |

## Left out

- `main.py` and the printing in `example_usage` are I/O. The example network is reproduced only in `FlowSpec.ExampleCostsNotMonotone`.
- Floating-point arithmetic: costs and factors are exact reals, and `float('inf')` is the explicit `Inf` of `Cost`. Rounding is not modelled.
- `heapq`: the queue is a multiset, and a pop takes any entry of least cost. Python breaks ties by comparing vertex labels, which is one of the behaviours allowed, so every property proved covers it. Heap layout and `heappush` internals are not modelled.
- `get_adjacent` on a `defaultdict` inserts an empty list for a vertex it has not seen. `GetAdjacent` is a pure read that returns the same (empty) list.
- `E` is stored and extended but never read. The caller's set is aliased, not copied, and this aliasing is not modelled, nor is aliasing of the vertex set and priority map.
- The bottleneck component of a label is computed as in the code and never used, so no property is stated about it.
- Vertices are strings. Capacities, travel and residence times and priorities are unbounded integers.
- FindAugmentingPath: requires `SearchReady`. That means a non-empty priority map with a non-zero maximum, and every edge ending at a vertex of `V` or at the source. The code raises `ValueError`, `ZeroDivisionError` or `KeyError` only when it actually relaxes an edge, so a search that never relaxes one also succeeds in Python without these conditions.
- DistributeSupplies: requires `SearchReady` when the supply is positive, for the same reason.
- RelaxNeighbours: requires `SearchReady` for the same reason.
- VisitVertex: requires `SearchReady` for the same reason.
- NextPath: requires `SearchReady` for the same reason.
- DistributionRound: requires `SearchReady` for the same reason; the loop calls it only while the supply is still missing, so the supply is positive.
- PriorityFactor: requires `FactorDefined`, the condition under which Python's `max` and division do not raise. The (0, 1] bound is stated only for priorities of at least 1. With zero or negative priorities the code still computes a factor, which is then not in that range.
- Termination of the distributor is proved by the missing supply, which each round lowers by a positive flow. The capacity drop it comes from is stated per step in `FlowSpec.GreedyStepLowersCapacities`.
- Monotonicity in capacity (more capacity never yields less flow) is not claimed. The distributor is greedy and never gives flow back, so the max-flow argument that would give this property does not apply to it. A repeated run yielding no more flow is proved; see `RepeatedRunYieldsNoMore` and `DistributeTwice`.
- FindAugmentingPath: the returned path is not claimed to have the least compounded cost. A factor below 1 lowers a cost, so a vertex reached later can still produce cheaper offers, and the search stops at the first pop of the sink. `FlowSpec.DetourCheaperThanDirect` gives a network where the returned path costs 6 and a detour costs 9/5. What is proved is `FoundBestFirst`: the sink's label cost is the returned path's compounded cost, the path follows the visiting order, and every vertex visited, the sink included, was popped at a cost at most every offer across a positive edge leaving the vertices visited before it. The visited vertices form a predecessor tree rooted at the source, in visiting order. Each label also keeps the first of equal offers, since the code relabels only on a strictly smaller cost (EmergencyNetwork.py:84). No two vertices share a place in the visiting order. `SearchSpec.DetourNotBestFirst`, `SearchSpec.LateRelabelNotBestFirst`, `SearchSpec.TieNotBestFirst` and `SearchSpec.TwinNotBestFirst` each exclude one path on one network, a path the search does not return there. `SearchSpec.LateRelabelBestFirst`, `SearchSpec.TieBestFirst` and `SearchSpec.TwinBestFirst` show that the path it does return meets the contract. It is not proved that every path meeting `FoundBestFirst` is one that some order of popping tied queue entries returns. The contract is stated over the labels and the visiting order, not as a function of the network, so it does not say which entry is popped when several queue entries tie at the least cost, and then more than one path can meet it.
- RelaxNeighbours: requires the popped cost to equal the label cost of the popped vertex. The search establishes this before the call, by `SearchSpec.PoppedCostIsLabel`.
- `Grafo.__str__` is text formatting.
- In `Grafo`, `_rotulos`, `_lista_adj` and `_arestas` are class attributes in the code, so every instance shares them. The model gives each `Grafo` object its own fields.
- The edge data of `Grafo` is the opaque type parameter `D`. The code stores an `Aresta_Info` for a new edge but a plain tuple when overwriting, and that difference in record type is not modelled.
