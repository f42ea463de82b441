/**
 * The emergency network: a graph store of directed edges with capacities and
 * travel times, per-vertex residence times and priorities; a label-correcting
 * best-first search for one source-to-sink path biased toward high-priority
 * vertices; and a greedy distributor that commits flow along such paths,
 * consuming the capacities in place, until the supply is met or no path is left.
 */
module EmergencyNetwork {
  import opened Collections
  import opened FlowSpec
  import opened SearchSpec

  /**
   * The priority factor is defined, and every edge of `edges` ends at a vertex
   * of `vs` or at `source`.
   */
  ghost predicate SearchableFrom(priorities: map<Vertex, int>, edges: set<Edge>, vs: set<Vertex>, source: Vertex)
  {
    && FactorDefined(priorities)
    && forall e :: e in edges ==> e.1 in vs || e.1 == source
  }

  class Network {
    /** The vertex set; the labels of a search are keyed by it. */
    var V: set<Vertex>
    /** The edge set given at construction and extended by AddEdge; nothing reads it. */
    var E: set<Edge>
    var priorities: map<Vertex, int>
    /** Travel time of each edge. */
    var TE: map<Edge, int>
    /** Residence time of the vertices that have one. */
    var Ts: map<Vertex, int>
    /** Remaining capacity of each edge; the distributor lowers it in place. */
    var capacities: Capacities
    /** Out-neighbours of each vertex, in insertion order. */
    var adj: map<Vertex, seq<Vertex>>

    /**
     * The store's invariant: every edge has both a capacity and a travel time,
     * and the adjacency lists mention exactly the stored edges.
     */
    ghost predicate Valid()
      reads this
    {
      && capacities.Keys == TE.Keys
      && (forall e :: e in capacities ==> e.0 in adj && e.1 in adj[e.0])
      && (forall u, v :: u in adj && v in adj[u] ==> (u, v) in capacities)
    }

    /**
     * What a search from `source` needs so that it neither fails on the
     * priorities nor looks up the label of a vertex it has none for: the
     * factor is defined, and every edge ends at a vertex of `V` or at the source.
     */
    ghost predicate SearchReady(source: Vertex)
      reads this
    {
      SearchableFrom(priorities, capacities.Keys, V, source)
    }

    constructor (vertices: set<Vertex>, edges: set<Edge>, priorities: map<Vertex, int>)
      ensures Valid()
      ensures V == vertices && E == edges && this.priorities == priorities
      ensures TE == map[] && Ts == map[] && capacities == map[] && adj == map[]
    {
      V := vertices;
      E := edges;
      this.priorities := priorities;
      TE := map[];
      Ts := map[];
      capacities := map[];
      adj := map[];
    }

    /** Sets the capacity and travel time of `(u, v)` and appends `v` to `u`'s neighbours. */
    method AddEdge(u: Vertex, v: Vertex, capacity: int, travelTime: int)
      requires Valid()
      modifies this
      ensures Valid()
      ensures capacities == old(capacities)[(u, v) := capacity]
      ensures TE == old(TE)[(u, v) := travelTime]
      ensures adj == old(adj)[u := old(GetAdjacent(u)) + [v]]
      ensures E == old(E) + {(u, v)}
      ensures V == old(V) && priorities == old(priorities) && Ts == old(Ts)
    {
      var neighbours := GetAdjacent(u);
      E := E + {(u, v)};
      capacities := capacities[(u, v) := capacity];
      TE := TE[(u, v) := travelTime];
      adj := adj[u := neighbours + [v]];
    }

    method SetVertexResidenceTime(vertex: Vertex, time: int)
      requires Valid()
      modifies this`Ts
      ensures Valid()
      ensures Ts == old(Ts)[vertex := time]
    {
      Ts := Ts[vertex := time];
    }

    /** The out-neighbours of `vertex`; a vertex without edges has none. */
    function GetAdjacent(vertex: Vertex): (r: seq<Vertex>)
      reads this
      requires Valid()
      ensures forall w :: w in r <==> (vertex, w) in capacities
    {
      if vertex in adj then adj[vertex] else []
    }

    /**
     * Follows predecessors back from the sink to the source.  The ghost `rank`
     * numbers the visited vertices in the order the search visited them; each
     * predecessor was visited earlier, which is why the walk ends.  The list is
     * built front to back directly instead of being appended to and reversed.
     * The path's edges are the predecessor links, so when every label's cost is
     * its predecessor's cost compounded over the edge, the sink's cost is the
     * compounded cost of the path.
     */
    method ReconstructPath(labels: map<Vertex, Label>, source: Vertex, sink: Vertex, ghost rank: map<Vertex, nat>)
      returns (r: Option<Path>)
      requires sink in labels && sink in rank
      requires PredecessorTree(labels, rank, source, capacities)
      ensures r.None? <==> labels[sink].cost == Inf
      ensures r.Some? ==> IsAugmentingPath(capacities, r.value, source, sink)
      ensures r.Some? && source == sink ==> r.value == []
      ensures r.Some? ==> PredecessorLinks(labels, r.value) && PathRanked(r.value, rank)
      ensures r.Some? && CostsFollowPredecessors(TE, Ts, priorities, labels) && source in labels && labels[source].cost == Fin(0.0) ==>
        HasCompoundedCost(TE, Ts, priorities, r.value, labels[sink].cost)
    {
      if labels[sink].cost == Inf {
        return None;
      }
      ghost var consistent := CostsFollowPredecessors(TE, Ts, priorities, labels) && source in labels && labels[source].cost == Fin(0.0);
      var path: Path := [];
      var current := sink;
      while current != source
        invariant BackChain(capacities, labels, rank, path, current, sink)
        invariant source == sink ==> path == []
        invariant consistent ==> CostAlong(TE, Ts, priorities, labels, current, path, labels[sink].cost)
        decreases rank[current]
      {
        var previous := labels[current].pred.value;
        BackChainStep(capacities, labels, rank, source, path, current, sink);
        if consistent {
          CostAlongStep(TE, Ts, priorities, labels, current, previous, path, labels[sink].cost);
        }
        path := [(previous, current)] + path;
        current := previous;
      }
      return Some(path);
    }

    /**
     * Travel time of every edge plus the residence time of every path vertex
     * except the last; computed as two accumulating loops.
     */
    method CalculatePathTime(path: Path) returns (totalTime: int)
      requires path != []
      requires forall i :: 0 <= i < |path| ==> path[i] in TE
      ensures totalTime == PathTime(TE, Ts, path)
    {
      totalTime := 0;
      for i := 0 to |path|
        invariant totalTime == TravelSum(TE, path[..i])
      {
        assert path[..i + 1][..i] == path[..i];
        totalTime := totalTime + TE[path[i]];
      }
      assert path[..|path|] == path;
      var vertices := PathVertices(path, path[0].0);
      var allButLast := vertices[..|vertices| - 1];
      for j := 0 to |allButLast|
        invariant totalTime == TravelSum(TE, path) + ResidenceSum(Ts, allButLast[..j])
      {
        assert allButLast[..j + 1][..j] == allButLast[..j];
        totalTime := totalTime + Residence(Ts, allButLast[j]);
      }
      assert allButLast[..|allButLast|] == allButLast;
    }

    /** Subtracts `flow` from the capacity of each edge of `path`, in order. */
    method UpdateResidualCapacities(path: Path, flow: int)
      requires Valid()
      requires forall i :: 0 <= i < |path| ==> path[i] in capacities
      modifies this`capacities
      ensures Valid()
      ensures capacities == Decrement(old(capacities), path, flow)
      ensures capacities.Keys == old(capacities).Keys
    {
      for i := 0 to |path|
        invariant capacities == Decrement(old(capacities), path[..i], flow)
      {
        assert path[..i + 1][..i] == path[..i];
        capacities := capacities[path[i] := capacities[path[i]] - flow];
      }
      assert path[..|path|] == path;
    }

    /**
     * The end of the search when a least entry of the sink is popped: the
     * sink is visited, and the path read back from the predecessors is
     * augmenting, runs over edges of the network, and is the best-first path
     * the labels and the visit order describe.
     */
    method PathToSink(labels: map<Vertex, Label>, queue: multiset<Entry>, visited: set<Vertex>,
                      ghost rank: map<Vertex, nat>, ghost clock: nat, entry: Entry, source: Vertex, sink: Vertex)
      returns (path: Path)
      requires Valid()
      requires SearchLoop(V, capacities, TE, Ts, priorities, source, sink, labels, queue, visited, rank, clock)
      requires entry in queue && entry.1 == sink && forall x :: x in queue ==> entry.0 <= x.0
      ensures source == sink ==> path == []
      ensures IsAugmentingPath(capacities, path, source, sink)
      ensures forall i :: 0 <= i < |path| ==> path[i] in capacities && path[i] in TE
      ensures FoundBestFirst(capacities, TE, Ts, priorities, path, labels, rank[sink := clock], source, sink)
    {
      PopSink(V, capacities, TE, Ts, priorities, source, sink, labels, queue, visited, rank, clock, entry);
      var r := ReconstructPath(labels, source, sink, rank[sink := clock]);
      path := r.value;
      forall i | 0 <= i < |path|
        ensures path[i] in capacities && path[i] in TE
      {
        assert IsPositiveEdge(capacities, path[i]);
      }
    }

    /**
     * Best-first search from `source` over edges with positive capacity.  A
     * neighbour's new cost is the popped cost plus travel and residence time,
     * times the neighbour's priority factor; the queue is popped at a least
     * cost, ties broken arbitrarily.  Returns the path to `sink` found, or
     * None when the sink cannot be reached over positive-capacity edges.
     *
     * The ghost results describe a found path: `finalLabels` are the labels when
     * the sink was popped and `finalRank` the order in which the vertices were
     * visited.  The path's edges are predecessor links going up in that order,
     * so the sink's cost is the path's compounded cost, and every vertex was
     * popped at a cost at most every offer across a positive edge leaving the
     * vertices visited before it.  The invariant and its step lemmas are in
     * module SearchSpec.
     */
    method FindAugmentingPath(source: Vertex, sink: Vertex)
      returns (r: Option<Path>, ghost finalLabels: map<Vertex, Label>, ghost finalRank: map<Vertex, nat>)
      requires Valid() && SearchReady(source)
      ensures source == sink ==> r == Some([])
      ensures r.Some? ==> IsAugmentingPath(capacities, r.value, source, sink)
      ensures r.Some? ==> forall i :: 0 <= i < |r.value| ==> r.value[i] in capacities && r.value[i] in TE
      ensures r.None? ==> NoPositivePath(capacities, source, sink)
      ensures r.Some? ==> FoundBestFirst(capacities, TE, Ts, priorities, r.value, finalLabels, finalRank, source, sink)
    {
      var labels := InitialLabels(V, source);
      var priorityQueue: multiset<Entry> := multiset{(0.0, source)};
      var visited: set<Vertex> := {};
      ghost var rank: map<Vertex, nat> := map[];
      ghost var clock: nat := 0;
      ghost var c, te, ts, ps := capacities, TE, Ts, priorities;
      SearchLoopStart(V, c, te, ts, ps, source, sink);

      while priorityQueue != multiset{}
        invariant SearchLoop(V, c, te, ts, ps, source, sink, labels, priorityQueue, visited, rank, clock)
        decreases |(V + {source}) - visited|, |priorityQueue|
      {
        var e0 :| e0 in priorityQueue;
        MinEntryExists(priorityQueue, e0);
        var entry :| entry in priorityQueue && forall x :: x in priorityQueue ==> entry.0 <= x.0;
        var u := entry.1;
        if u in visited {
          PopSkip(V, c, te, ts, ps, source, sink, labels, priorityQueue, visited, rank, clock, entry);
          priorityQueue := priorityQueue - multiset{entry};
          continue;
        }

        if u == sink {
          var path := PathToSink(labels, priorityQueue, visited, rank, clock, entry, source, sink);
          return Some(path), labels, rank[u := clock];
        }

        labels, priorityQueue, visited, rank, clock := VisitVertex(source, sink, labels, priorityQueue, visited, rank, clock, entry);
      }
      SearchExhausted(V, c, te, ts, ps, source, sink, labels, visited, rank, clock);
      return None, labels, rank;
    }

    /**
     * The search step for a least entry of a vertex neither visited nor the
     * sink: the entry is popped, its vertex marked visited, and its edges
     * relaxed.  The search invariant is kept and one more vertex is visited.
     */
    method VisitVertex(source: Vertex, sink: Vertex, labels0: map<Vertex, Label>, queue0: multiset<Entry>,
                       visited0: set<Vertex>, ghost rank0: map<Vertex, nat>, ghost clock0: nat, entry: Entry)
      returns (labels: map<Vertex, Label>, priorityQueue: multiset<Entry>, visited: set<Vertex>,
               ghost rank: map<Vertex, nat>, ghost clock: nat)
      requires Valid() && SearchReady(source)
      requires SearchLoop(V, capacities, TE, Ts, priorities, source, sink, labels0, queue0, visited0, rank0, clock0)
      requires entry in queue0 && entry.1 !in visited0 && entry.1 != sink
      requires forall x :: x in queue0 ==> entry.0 <= x.0
      ensures SearchLoop(V, capacities, TE, Ts, priorities, source, sink, labels, priorityQueue, visited, rank, clock)
      ensures visited == visited0 + {entry.1}
      ensures |(V + {source}) - visited| < |(V + {source}) - visited0|
    {
      var u := entry.1;
      PopVisit(V, capacities, TE, Ts, priorities, source, sink, labels0, queue0, visited0, rank0, clock0, entry);
      visited := visited0 + {u};
      rank := rank0[u := clock0];
      clock := clock0 + 1;
      labels, priorityQueue := RelaxNeighbours(source, u, entry.0, labels0, queue0 - multiset{entry}, visited, rank, clock, sink);
    }

    /**
     * One expansion step of the search: every neighbour `v` of the freshly
     * visited `u` that is unvisited and reached over positive capacity is
     * offered the cost `(currentTime + TE[(u, v)] + Ts.get(v, 0)) * factor(v)`;
     * when that is below its label's cost, `v` is relabelled with predecessor
     * `u` and pushed.  Afterwards every such neighbour's cost is at most the
     * offer, and the frontier invariant covers `u` too.
     */
    method RelaxNeighbours(source: Vertex, u: Vertex, currentTime: real, labels0: map<Vertex, Label>,
                           queue0: multiset<Entry>, visited: set<Vertex>, ghost rank: map<Vertex, nat>, ghost clock: nat,
                           ghost sink: Vertex)
      returns (labels: map<Vertex, Label>, priorityQueue: multiset<Entry>)
      requires Valid() && SearchReady(source)
      requires ReadyToRelax(V, capacities, TE, Ts, priorities, source, labels0, queue0, visited, rank, clock, u, currentTime)
      requires sink !in visited
      ensures SearchLoop(V, capacities, TE, Ts, priorities, source, sink, labels, priorityQueue, visited, rank, clock)
      ensures RelabelRule(capacities, TE, Ts, priorities, labels0, labels, visited, u, currentTime)
      ensures forall v :: IsPositiveEdge(capacities, (u, v)) && v !in visited ==>
        OfferTaken(TE, Ts, priorities, labels, u, currentTime, v)
      ensures forall w :: w in visited ==> labels[w] == labels0[w]
      ensures PushesRelabelled(labels0, labels, queue0, priorityQueue)
    {
      labels, priorityQueue := labels0, queue0;
      RelabelStart(capacities, TE, Ts, priorities, labels0, visited, u, currentTime);
      var neighbours := GetAdjacent(u);
      for i := 0 to |neighbours|
        invariant SearchState(V, capacities, source, labels, priorityQueue, visited, rank, clock)
        invariant CostState(TE, Ts, priorities, labels, priorityQueue)
        invariant labels.Keys == V + {source}
        invariant RelabelRule(capacities, TE, Ts, priorities, labels0, labels, visited, u, currentTime)
        invariant NeighboursCovered(capacities, TE, Ts, priorities, labels, visited, u, currentTime, neighbours, i)
        invariant PushesRelabelled(labels0, labels, queue0, priorityQueue)
        invariant FirstOfferKept(capacities, TE, Ts, priorities, labels, rank)
      {
        var v := neighbours[i];
        if v in visited || (if (u, v) in capacities then capacities[(u, v)] else 0) <= 0 {
          NeighboursCoveredStep(capacities, TE, Ts, priorities, labels, labels, visited, u, currentTime, neighbours, i);
          continue;
        }
        var priorityFactor := PriorityFactor(priorities, v);
        var adjustedTime := RelaxedCost(currentTime, TE[(u, v)], Residence(Ts, v), priorityFactor);
        if Fin(adjustedTime).Below(labels[v].cost) {
          var newLabel := Label(Fin(adjustedTime), Some(u), MinCost(labels[u].bottleneck, Fin(capacities[(u, v)] as real)));
          assert labels[u] == labels0[u];
          SearchRelax(V, capacities, source, labels, priorityQueue, visited, rank, clock,
                      u, v, adjustedTime, newLabel.bottleneck);
          CostRelax(capacities, TE, Ts, priorities, labels, priorityQueue, visited, u, v, adjustedTime, newLabel.bottleneck);
          RelabelStep(capacities, TE, Ts, priorities, labels0, labels, visited, u, currentTime, v, newLabel);
          PushesStep(labels0, labels, queue0, priorityQueue, v, newLabel, adjustedTime);
          FirstOfferRelabel(capacities, TE, Ts, priorities, labels0, labels, visited, rank, u, currentTime, v, newLabel);
          RelabelLowers(labels, v, newLabel);
          NeighboursCoveredStep(capacities, TE, Ts, priorities, labels, labels[v := newLabel], visited, u, currentTime, neighbours, i);
          labels := labels[v := newLabel];
          priorityQueue := priorityQueue + multiset{(adjustedTime, v)};
        } else {
          NeighboursCoveredStep(capacities, TE, Ts, priorities, labels, labels, visited, u, currentTime, neighbours, i);
        }
      }
      NeighboursCoveredCover(capacities, TE, Ts, priorities, labels0, labels, visited, visited, u, currentTime, neighbours);
      RelabelRuleConsequences(capacities, TE, Ts, priorities, labels0, labels, visited, u, currentTime);
      PoppedInOrderRelabel(capacities, TE, Ts, priorities, labels0, labels, rank);
    }

    /**
     * Repeatedly finds a path and commits the smaller of the missing supply and
     * the path's bottleneck along it, recording each path, its flow and its
     * time, until the supply is met or no path is left.  Capacities are lowered
     * forward only; nothing is ever given back.
     */
    method DistributeSupplies(source: Vertex, sink: Vertex, totalSupply: int)
      returns (paths: seq<(Path, int)>, times: seq<int>, currentFlow: int)
      requires Valid()
      requires totalSupply > 0 ==> SearchReady(source)
      modifies this`capacities
      ensures Valid()
      ensures totalSupply <= 0 ==> paths == [] && times == [] && currentFlow == 0 && capacities == old(capacities)
      ensures currentFlow == SumFlows(paths)
      ensures 0 <= currentFlow && (totalSupply >= 0 ==> currentFlow <= totalSupply)
      ensures TimesRecorded(TE, Ts, paths, times)
      ensures CommitRun(old(capacities), paths, source, sink, totalSupply) == Some(capacities)
      ensures currentFlow < totalSupply ==> source == sink || NoPositivePath(capacities, source, sink)
    {
      currentFlow := 0;
      paths := [];
      times := [];
      ghost var c0 := capacities;

      while currentFlow < totalSupply
        invariant Valid()
        invariant totalSupply > 0 ==> SearchReady(source)
        invariant DistributionState(c0, capacities, TE, Ts, paths, times, currentFlow, source, sink, totalSupply)
        decreases totalSupply - currentFlow
      {
        var stop;
        stop, currentFlow, paths, times := DistributionRound(source, sink, totalSupply, currentFlow, paths, times, c0);
        if stop {
          break;
        }
      }
    }

    /**
     * One pass of the distributor's loop: searches for a path and commits
     * along it, or reports that the distribution stops because the search
     * found no path or an empty one, with nothing changed.
     */
    method DistributionRound(source: Vertex, sink: Vertex, totalSupply: int,
                             flow0: int, paths0: seq<(Path, int)>, times0: seq<int>, ghost c0: Capacities)
      returns (stop: bool, currentFlow: int, paths: seq<(Path, int)>, times: seq<int>)
      requires Valid() && SearchReady(source)
      requires DistributionState(c0, capacities, TE, Ts, paths0, times0, flow0, source, sink, totalSupply)
      requires flow0 < totalSupply
      modifies this`capacities
      ensures Valid() && SearchReady(source)
      ensures DistributionState(c0, capacities, TE, Ts, paths, times, currentFlow, source, sink, totalSupply)
      ensures stop ==> && currentFlow == flow0 && paths == paths0 && times == times0 && capacities == old(capacities)
                       && (source == sink || NoPositivePath(capacities, source, sink))
      ensures !stop ==> flow0 < currentFlow
    {
      var found := NextPath(source, sink);
      if found.None? {
        return true, flow0, paths0, times0;
      }
      currentFlow, paths, times := CommitPath(source, sink, totalSupply, found.value, flow0, paths0, times0, c0);
      stop := false;
    }

    /**
     * The distributor's test on the search result: a missing path and an
     * empty one (source equal to sink) both end the distribution.  A path
     * returned is non-empty and augmenting; none is returned only when the
     * source is the sink or no positive-capacity path joins them.
     */
    method NextPath(source: Vertex, sink: Vertex) returns (r: Option<Path>)
      requires Valid() && SearchReady(source)
      ensures r.Some? ==> r.value != [] && IsAugmentingPath(capacities, r.value, source, sink)
      ensures r.Some? ==> forall i :: 0 <= i < |r.value| ==> r.value[i] in capacities && r.value[i] in TE
      ensures r.None? ==> source == sink || NoPositivePath(capacities, source, sink)
    {
      var found, _, _ := FindAugmentingPath(source, sink);
      if found.None? || found.value == [] {
        return None;
      }
      return found;
    }

    /**
     * One round of the distributor, for a non-empty path found: commits the
     * smaller of the missing supply and the path's bottleneck, records the
     * path with its flow and its time, and lowers the capacities along it.
     */
    method CommitPath(source: Vertex, sink: Vertex, totalSupply: int, path: Path,
                      flow0: int, paths0: seq<(Path, int)>, times0: seq<int>, ghost c0: Capacities)
      returns (currentFlow: int, paths: seq<(Path, int)>, times: seq<int>)
      requires Valid()
      requires DistributionState(c0, capacities, TE, Ts, paths0, times0, flow0, source, sink, totalSupply)
      requires flow0 < totalSupply
      requires path != [] && IsAugmentingPath(capacities, path, source, sink)
      requires forall i :: 0 <= i < |path| ==> path[i] in capacities && path[i] in TE
      modifies this`capacities
      ensures Valid() && capacities.Keys == old(capacities).Keys
      ensures DistributionState(c0, capacities, TE, Ts, paths, times, currentFlow, source, sink, totalSupply)
      ensures flow0 < currentFlow
      ensures paths == paths0 + [(path, currentFlow - flow0)]
      ensures capacities == Decrement(old(capacities), path, currentFlow - flow0)
    {
      var possibleFlow := Min(totalSupply - flow0, MinCapacity(capacities, path));
      var time := CalculatePathTime(path);
      DistributionStep(c0, capacities, TE, Ts, paths0, times0, flow0, source, sink, totalSupply, path, time);

      currentFlow := flow0 + possibleFlow;
      paths := paths0 + [(path, possibleFlow)];
      times := times0 + [time];

      UpdateResidualCapacities(path, possibleFlow);
    }
  
    /**
     * Two distributions in a row on the same network with the same request:
     * each run is a replay of greedy steps, the second starting from the
     * capacities the first left; no capacity rises, and the second run
     * commits no more flow than the first.
     */
    method DistributeTwice(source: Vertex, sink: Vertex, totalSupply: int)
      returns (paths1: seq<(Path, int)>, firstFlow: int, paths2: seq<(Path, int)>, secondFlow: int)
      requires Valid()
      requires totalSupply > 0 ==> SearchReady(source)
      modifies this`capacities
      ensures Valid()
      ensures firstFlow == SumFlows(paths1) && secondFlow == SumFlows(paths2)
      ensures CommitRun(old(capacities), paths1, source, sink, totalSupply).Some?
      ensures CommitRun(CommitRun(old(capacities), paths1, source, sink, totalSupply).value, paths2, source, sink, totalSupply)
        == Some(capacities)
      ensures capacities.Keys == old(capacities).Keys
      ensures forall e :: e in capacities ==> capacities[e] <= old(capacities)[e]
      ensures secondFlow <= firstFlow
    {
      ghost var c0 := capacities;
      var times1, times2;
      paths1, times1, firstFlow := DistributeSupplies(source, sink, totalSupply);
      ghost var c1 := capacities;
      paths2, times2, secondFlow := DistributeSupplies(source, sink, totalSupply);
      RepeatedRunYieldsNoMore(c0, c1, paths1, paths2, source, sink, totalSupply);
      CommitRunLowers(c0, paths1, source, sink, totalSupply);
      CommitRunLowers(c1, paths2, source, sink, totalSupply);
    }
  }
}
