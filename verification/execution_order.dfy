/**
  The order in which a workflow's components run (`_get_execution_order` in
  backend/app/services/workflow_executor.py): Kahn's topological sort with a FIFO queue
  over the components' ids, driven by the connections.

  What is proved about the order it produces:
  - no id twice, and only component ids;
  - whenever a component is listed, every source of a connection into it is listed earlier;
  - it begins with the components that have no incoming connection, in list order;
  - a component is left out exactly when it lies on a cycle or downstream of one, so for
    an acyclic graph the order lists every component id.
*/
module ExecutionOrder {
  import opened Text
  import opened Schema

  // ---------------------------------------------------------------------------
  // Ids and connection counting

  /** The components' ids, in list order. */
  function Ids(components: seq<ComponentConfig>): (r: seq<string>)
    ensures |r| == |components|
  {
    if components == [] then [] else [components[0].id] + Ids(components[1..])
  }

  predicate Distinct(s: seq<string>) {
    forall i, j :: 0 <= i < j < |s| ==> s[i] != s[j]
  }

  /** What the only caller has checked (`_validate_workflow`): every endpoint is a component id. */
  predicate EndpointsKnown(components: seq<ComponentConfig>, conns: seq<WorkflowConnection>) {
    forall k :: 0 <= k < |conns| ==> conns[k].source in Ids(components) && conns[k].target in Ids(components)
  }

  /** Appends the ids of `xs` not seen yet, keeping the first occurrence of each. */
  function DedupInto(acc: seq<string>, xs: seq<string>): (r: seq<string>)
    requires Distinct(acc)
    ensures Distinct(r)
    ensures forall x :: x in r <==> x in acc || x in xs
    ensures |r| >= |acc| && r[..|acc|] == acc
    decreases |xs|
  {
    if xs == [] then acc
    else if xs[0] in acc then DedupInto(acc, xs[1..])
    else DedupInto(acc + [xs[0]], xs[1..])
  }

  /** The keys of `{comp.id: ... for comp in components}`: each id once, in order of first occurrence. */
  function DistinctIds(components: seq<ComponentConfig>): (nodes: seq<string>)
    ensures Distinct(nodes)
    ensures forall x :: x in nodes <==> x in Ids(components)
  {
    DedupInto([], Ids(components))
  }

  /** `graph[u]`: the targets of the connections leaving `u`, in connection order. */
  function Targets(conns: seq<WorkflowConnection>, u: string): seq<string> {
    if conns == [] then []
    else (if conns[0].source == u then [conns[0].target] else []) + Targets(conns[1..], u)
  }

  /** Occurrences of `v` in `s`. */
  function Count(s: seq<string>, v: string): nat {
    if s == [] then 0 else (if s[0] == v then 1 else 0) + Count(s[1..], v)
  }

  /** Connections into `v` whose source has not been emitted yet (is not in `done`). */
  function Pending(conns: seq<WorkflowConnection>, done: seq<string>, v: string): nat {
    if conns == [] then 0
    else (if conns[0].target == v && conns[0].source !in done then 1 else 0) + Pending(conns[1..], done, v)
  }

  /** `in_degree[v]` after the counting loop: the number of connections into `v`. */
  function InDegree(conns: seq<WorkflowConnection>, v: string): nat {
    Pending(conns, [], v)
  }

  /** The ids among `keys` with no incoming connection, in order. */
  function RootsAmong(keys: seq<string>, conns: seq<WorkflowConnection>): (r: seq<string>)
    ensures forall v :: v in r <==> v in keys && InDegree(conns, v) == 0
  {
    if keys == [] then []
    else (if InDegree(conns, keys[0]) == 0 then [keys[0]] else []) + RootsAmong(keys[1..], conns)
  }

  /** The components with no incoming connection, in dictionary order: the initial queue. */
  function Roots(components: seq<ComponentConfig>, conns: seq<WorkflowConnection>): seq<string> {
    RootsAmong(DistinctIds(components), conns)
  }

  // ---------------------------------------------------------------------------
  // Properties of an execution order

  /** Every source of a connection into a listed component is listed before it. */
  ghost predicate SourcesFirst(conns: seq<WorkflowConnection>, order: seq<string>) {
    forall i, k :: 0 <= i < |order| && 0 <= k < |conns| && conns[k].target == order[i] ==> conns[k].source in order[..i]
  }

  /**
    Every component left out still has a pending connection: one coming in from a
    component that is left out too (see `PendingZero`).
  */
  ghost predicate OmittedAreBlocked(components: seq<ComponentConfig>, conns: seq<WorkflowConnection>, order: seq<string>) {
    forall v :: v in Ids(components) && v !in order ==> Pending(conns, order, v) > 0
  }

  ghost predicate HasEdge(conns: seq<WorkflowConnection>, u: string, v: string) {
    exists k :: 0 <= k < |conns| && conns[k].source == u && conns[k].target == v
  }

  /** A walk along connections: `w[i]` is connected to `w[i + 1]`. */
  ghost predicate IsPath(conns: seq<WorkflowConnection>, w: seq<string>) {
    |w| >= 1 && forall i :: 0 <= i < |w| - 1 ==> HasEdge(conns, w[i], w[i + 1])
  }

  /** `w` is a walk from `u` to `v`. */
  ghost predicate WalkBetween(conns: seq<WorkflowConnection>, w: seq<string>, u: string, v: string) {
    IsPath(conns, w) && w[0] == u && w[|w| - 1] == v
  }

  /** `v` lies on a cycle: a walk of at least one connection leads from `v` back to `v`. */
  ghost predicate OnCycle(conns: seq<WorkflowConnection>, v: string) {
    exists w :: WalkBetween(conns, w, v, v) && |w| >= 2
  }

  /** `v` can be reached from a component on a cycle (possibly `v` itself). */
  ghost predicate DownstreamOfCycle(conns: seq<WorkflowConnection>, v: string) {
    exists w, u :: WalkBetween(conns, w, u, v) && OnCycle(conns, u)
  }

  ghost predicate Acyclic(conns: seq<WorkflowConnection>) {
    forall v :: !OnCycle(conns, v)
  }

  // ---------------------------------------------------------------------------
  // The algorithm

  /** `{comp.id: [] for comp in components}`. */
  function EmptyAdjacency(ids: seq<string>): (m: map<string, seq<string>>)
    ensures forall v :: v in m <==> v in ids
    ensures forall v :: v in m ==> m[v] == []
  {
    if ids == [] then map[] else EmptyAdjacency(ids[1..])[ids[0] := []]
  }

  /** `{comp.id: 0 for comp in components}`. */
  function ZeroCounts(ids: seq<string>): (m: map<string, int>)
    ensures forall v :: v in m <==> v in ids
    ensures forall v :: v in m ==> m[v] == 0
  {
    if ids == [] then map[] else ZeroCounts(ids[1..])[ids[0] := 0]
  }

  /** `[node for node in in_degree if in_degree[node] == 0]`, the keys taken in order. */
  function ZeroEntries(keys: seq<string>, inDegree: map<string, int>): (q: seq<string>)
    requires forall v :: v in keys ==> v in inDegree
    ensures forall v :: v in q <==> v in keys && inDegree[v] == 0
  {
    if keys == [] then []
    else (if inDegree[keys[0]] == 0 then [keys[0]] else []) + ZeroEntries(keys[1..], inDegree)
  }

  lemma {:induction false} ZeroEntriesAreRoots(keys: seq<string>, inDegree: map<string, int>, conns: seq<WorkflowConnection>)
    requires forall v :: v in keys ==> v in inDegree && inDegree[v] == InDegree(conns, v)
    ensures ZeroEntries(keys, inDegree) == RootsAmong(keys, conns)
  {
    if keys != [] {
      ZeroEntriesAreRoots(keys[1..], inDegree, conns);
    }
  }

  lemma {:induction false} RootsDistinct(keys: seq<string>, conns: seq<WorkflowConnection>)
    requires Distinct(keys)
    ensures Distinct(RootsAmong(keys, conns))
  {
    if keys != [] {
      RootsDistinct(keys[1..], conns);
    }
  }

  /**
    The first half of `_get_execution_order`: one adjacency list and one in-degree
    counter per distinct component id, filled by a pass over the connections.
  */
  method BuildGraph(components: seq<ComponentConfig>, connections: seq<WorkflowConnection>)
    returns (graph: map<string, seq<string>>, inDegree: map<string, int>)
    requires EndpointsKnown(components, connections)
    ensures forall v :: v in graph <==> v in Ids(components)
    ensures forall v :: v in inDegree <==> v in Ids(components)
    ensures forall v :: v in graph ==> graph[v] == Targets(connections, v)
    ensures forall v :: v in inDegree ==> inDegree[v] == InDegree(connections, v)
  {
    graph := EmptyAdjacency(Ids(components));
    inDegree := ZeroCounts(Ids(components));

    for k := 0 to |connections|
      invariant forall v :: v in graph <==> v in Ids(components)
      invariant forall v :: v in inDegree <==> v in Ids(components)
      invariant forall v :: v in graph ==> graph[v] == Targets(connections[..k], v)
      invariant forall v :: v in inDegree ==> inDegree[v] == InDegree(connections[..k], v)
    {
      var c := connections[k];
      AdjacencyStep(graph, connections, k);
      CounterStep(inDegree, connections, k);
      graph := graph[c.source := graph[c.source] + [c.target]];
      inDegree := inDegree[c.target := inDegree[c.target] + 1];
    }
    TakeAll(connections);
  }

  /**
    The in-degrees and the queued ids after `for neighbor in graph[current]` has handled
    `neighbors`: each one's count drops by one, and it is queued, in `neighbors` order,
    at the moment its count reaches 0.
  */
  function Release(neighbors: seq<string>, inDegree: map<string, int>): (r: (map<string, int>, seq<string>))
    ensures forall v :: v in r.0 <==> v in inDegree
  {
    if neighbors == [] then (inDegree, [])
    else
      var before := Release(neighbors[..|neighbors| - 1], inDegree);
      var nb := neighbors[|neighbors| - 1];
      if nb !in before.0 then before
      else
        var after := before.0[nb := before.0[nb] - 1];
        (after, before.1 + (if after[nb] == 0 then [nb] else []))
  }

  /**
    The `while queue` loop as a recursive function: pop the head, emit it, release its
    successors and go on with the queue. `fuel` bounds the number of pops; the number of
    distinct component ids is enough (see `DrainQueue`).
  */
  function KahnFrom(graph: map<string, seq<string>>, inDegree: map<string, int>, queue: seq<string>, fuel: nat): seq<string>
    decreases fuel
  {
    if queue == [] || fuel == 0 || queue[0] !in graph then []
    else
      var released := Release(graph[queue[0]], inDegree);
      [queue[0]] + KahnFrom(graph, released.0, queue[1..] + released.1, fuel - 1)
  }

  /** `graph` as `_get_execution_order` builds it: each id's targets, in connection order. */
  function Adjacency(components: seq<ComponentConfig>, conns: seq<WorkflowConnection>): map<string, seq<string>> {
    map v | v in Ids(components) :: Targets(conns, v)
  }

  /** `in_degree` as `_get_execution_order` builds it. */
  function InDegrees(components: seq<ComponentConfig>, conns: seq<WorkflowConnection>): map<string, int> {
    map v | v in Ids(components) :: InDegree(conns, v)
  }

  /** The order `_get_execution_order` returns: Kahn's algorithm with a FIFO queue seeded by the roots. */
  function KahnOrder(components: seq<ComponentConfig>, conns: seq<WorkflowConnection>): seq<string> {
    KahnFrom(Adjacency(components, conns), InDegrees(components, conns), Roots(components, conns), |DistinctIds(components)|)
  }

  /**
    The inner loop of `_get_execution_order`: each successor of the component just emitted
    loses one incoming connection, and joins the queue when it has none left.
  */
  method ReleaseSuccessors(neighbors: seq<string>, inDegree0: map<string, int>, queue0: seq<string>)
    returns (inDegree: map<string, int>, queue: seq<string>)
    requires forall v :: v in neighbors ==> v in inDegree0
    requires forall v :: v in inDegree0 ==> Count(neighbors, v) <= inDegree0[v]
    ensures forall v :: v in inDegree <==> v in inDegree0
    ensures forall v :: v in inDegree0 ==> inDegree[v] == inDegree0[v] - Count(neighbors, v)
    ensures |queue0| <= |queue| && queue[..|queue0|] == queue0
    ensures Distinct(queue[|queue0|..])
    ensures forall v :: v in queue[|queue0|..] <==> v in inDegree0 && inDegree0[v] > 0 && inDegree[v] == 0
    ensures inDegree == Release(neighbors, inDegree0).0 && queue == queue0 + Release(neighbors, inDegree0).1
  {
    inDegree, queue := inDegree0, queue0;
    assert neighbors[..0] == [];
    assert queue0 + [] == queue0;
    for j := 0 to |neighbors|
      invariant inDegree == Release(neighbors[..j], inDegree0).0 && queue == queue0 + Release(neighbors[..j], inDegree0).1
    {
      var nb := neighbors[j];
      ghost var before := Release(neighbors[..j], inDegree0);
      ghost var next := Release(neighbors[..j + 1], inDegree0);
      ReleaseStep(neighbors, inDegree0, j);
      inDegree := inDegree[nb := inDegree[nb] - 1];
      assert inDegree == next.0;
      if inDegree[nb] == 0 {
        AppendAssoc(queue0, before.1, [nb]);
        queue := queue + [nb];
      } else {
        assert before.1 + [] == before.1;
      }
      assert queue == queue0 + next.1;
    }
    TakeAll(neighbors);
    ReleaseMeaning(neighbors, inDegree0);
    assert queue[..|queue0|] == queue0 && queue[|queue0|..] == Release(neighbors, inDegree0).1;
  }

  /**
    What `Release` computes: every count drops by the neighbour's multiplicity, and the
    queued ids are, without repeats, exactly those whose positive count reached zero.
  */
  lemma {:induction false} ReleaseMeaning(neighbors: seq<string>, inDegree: map<string, int>)
    requires forall v :: v in neighbors ==> v in inDegree
    requires forall v :: v in inDegree ==> Count(neighbors, v) <= inDegree[v]
    ensures forall v :: v in inDegree ==> Release(neighbors, inDegree).0[v] == inDegree[v] - Count(neighbors, v)
    ensures Distinct(Release(neighbors, inDegree).1)
    ensures forall v :: v in Release(neighbors, inDegree).1 <==>
      v in inDegree && inDegree[v] > 0 && Release(neighbors, inDegree).0[v] == 0
    decreases |neighbors|
  {
    if neighbors != [] {
      var k := |neighbors| - 1;
      var nb := neighbors[k];
      var pre := neighbors[..k];
      assert neighbors == pre + [nb];
      assert nb in neighbors;
      forall v | v in inDegree ensures Count(neighbors, v) == Count(pre, v) + (if nb == v then 1 else 0) {
        CountAppend(pre, [nb], v);
      }
      forall v | v in pre ensures v in inDegree {
        assert v in neighbors;
      }
      ReleaseMeaning(pre, inDegree);
      var before := Release(pre, inDegree);
      ReleaseLast(pre, nb, inDegree, before.0, before.1);
      var after := before.0[nb := before.0[nb] - 1];
      assert Release(neighbors, inDegree) == (after, before.1 + (if after[nb] == 0 then [nb] else []));
    }
  }

  /**
    The last step of `ReleaseMeaning`: the facts for the neighbours `pre` carry over to
    `pre + [nb]` once `nb` is decremented and, on reaching zero, queued.
  */
  lemma ReleaseLast(pre: seq<string>, nb: string, inDegree: map<string, int>, counts: map<string, int>, queued: seq<string>)
    requires nb in inDegree && forall v :: v in counts <==> v in inDegree
    requires forall v :: v in inDegree ==> Count(pre, v) + (if nb == v then 1 else 0) <= inDegree[v]
    requires forall v :: v in inDegree ==> counts[v] == inDegree[v] - Count(pre, v)
    requires Distinct(queued)
    requires forall v :: v in queued <==> v in inDegree && inDegree[v] > 0 && counts[v] == 0
    ensures var after := counts[nb := counts[nb] - 1];
      var added := if after[nb] == 0 then [nb] else [];
      && (forall v :: v in inDegree ==> after[v] == inDegree[v] - (Count(pre, v) + (if nb == v then 1 else 0)))
      && Distinct(queued + added)
      && (forall v :: v in queued + added <==> v in inDegree && inDegree[v] > 0 && after[v] == 0)
  {
    var after := counts[nb := counts[nb] - 1];
    var added := if after[nb] == 0 then [nb] else [];
    assert counts[nb] >= 1;
    forall v ensures v in queued + added <==> v in inDegree && inDegree[v] > 0 && after[v] == 0 {
      if v != nb {
        assert v !in added;
      }
    }
    DistinctAppend(queued, added);
  }



  /**
    `_get_execution_order`: builds `graph` and `in_degree`, seeds the queue with the
    components of in-degree 0 and repeatedly pops the head, emits it and decrements its
    successors' in-degrees, enqueueing those that reach 0.
  */
  method GetExecutionOrder(components: seq<ComponentConfig>, connections: seq<WorkflowConnection>)
    returns (order: seq<string>)
    requires EndpointsKnown(components, connections)
    ensures Distinct(order)
    ensures forall v :: v in order ==> v in Ids(components)
    ensures SourcesFirst(connections, order)
    ensures OmittedAreBlocked(components, connections, order)
    ensures |Roots(components, connections)| <= |order|
    ensures order[..|Roots(components, connections)|] == Roots(components, connections)
    ensures order == KahnOrder(components, connections)
  {
    var graph, inDegree := BuildGraph(components, connections);
    assert graph == Adjacency(components, connections);
    assert inDegree == InDegrees(components, connections);
    var nodes := DistinctIds(components);
    var queue := ZeroEntries(nodes, inDegree);
    InitialState(components, connections, nodes, inDegree, queue);
    var inDegree';
    order, inDegree' := DrainQueue(components, connections, graph, nodes, inDegree, queue);
    FinalState(components, connections, nodes, inDegree', order);
  }

  /** The `while queue` loop of `_get_execution_order`, from the initial queue to the final order. */
  method DrainQueue(
    components: seq<ComponentConfig>, connections: seq<WorkflowConnection>, graph: map<string, seq<string>>,
    nodes: seq<string>, inDegree0: map<string, int>, queue0: seq<string>)
    returns (order: seq<string>, inDegree: map<string, int>)
    requires EndpointsKnown(components, connections) && nodes == DistinctIds(components)
    requires forall v :: v in nodes ==> v in graph && graph[v] == Targets(connections, v)
    requires QueueState(connections, nodes, inDegree0, [], queue0)
    ensures QueueState(connections, nodes, inDegree, order, [])
    ensures |queue0| <= |order| && order[..|queue0|] == queue0
    ensures ReadyWhenListed(connections, order)
    ensures order == KahnFrom(graph, inDegree0, queue0, |nodes|)
  {
    var queue;
    order, inDegree, queue := [], inDegree0, queue0;
    assert [] + queue0 == queue0;
    ghost var whole := KahnFrom(graph, inDegree0, queue0, |nodes|);
    ghost var fuel: nat := |nodes|;
    assert [] + whole == whole;
    while queue != []
      invariant LoopState(connections, nodes, inDegree, order, queue, queue0)
      invariant fuel == |nodes| - |order|
      invariant order + KahnFrom(graph, inDegree, queue, fuel) == whole
      decreases |nodes| - |order|
    {
      var current := queue[0];
      PopKeepsState(components, connections, graph, nodes, inDegree, order, queue, queue0);
      var neighbors := graph[current];
      var inDegree', queue' := ReleaseSuccessors(neighbors, inDegree, queue[1..]);
      ReleaseKeepsState(connections, graph, nodes, inDegree, inDegree', order, queue, queue', queue0);
      KahnAdvance(graph, inDegree, inDegree', order, queue, queue', fuel, whole);
      order, inDegree, queue, fuel := order + [current], inDegree', queue', fuel - 1;
    }
    assert order + queue == order;
  }

  // ---------------------------------------------------------------------------
  // Lemmas used by the algorithm

  /**
    What holds between two iterations of the main loop: the emitted and queued ids are
    distinct component ids; `in_degree` counts the connections whose source has not been
    emitted; and an id is emitted or queued exactly when that count is 0.
  */
  ghost predicate QueueState(
    conns: seq<WorkflowConnection>, nodes: seq<string>, inDegree: map<string, int>, order: seq<string>, queue: seq<string>)
  {
    && Distinct(order + queue)
    && (forall v :: v in order + queue ==> v in nodes)
    && (forall v :: v in inDegree <==> v in nodes)
    && (forall v :: v in nodes ==> inDegree[v] == Pending(conns, order, v))
    && (forall v :: v in nodes ==> (inDegree[v] == 0 <==> v in order + queue))
  }

  /** The initial queue holds exactly the components with nothing pending, and they are the roots. */
  lemma InitialState(
    components: seq<ComponentConfig>, conns: seq<WorkflowConnection>, nodes: seq<string>,
    inDegree: map<string, int>, queue: seq<string>)
    requires nodes == DistinctIds(components)
    requires forall v :: v in inDegree <==> v in Ids(components)
    requires forall v :: v in inDegree ==> inDegree[v] == InDegree(conns, v)
    requires queue == ZeroEntries(nodes, inDegree)
    ensures QueueState(conns, nodes, inDegree, [], queue)
    ensures queue == Roots(components, conns)
  {
    ZeroEntriesAreRoots(nodes, inDegree, conns);
    RootsDistinct(nodes, conns);
    assert [] + queue == queue;
  }

  /** When the queue is empty, the order has the properties promised for it. */
  lemma FinalState(
    components: seq<ComponentConfig>, conns: seq<WorkflowConnection>, nodes: seq<string>,
    inDegree: map<string, int>, order: seq<string>)
    requires nodes == DistinctIds(components)
    requires QueueState(conns, nodes, inDegree, order, [])
    requires ReadyWhenListed(conns, order)
    ensures Distinct(order)
    ensures forall v :: v in order ==> v in Ids(components)
    ensures SourcesFirst(conns, order)
    ensures OmittedAreBlocked(components, conns, order)
  {
    assert order + [] == order;
    ReadyMeansSourcesFirst(conns, order);
  }

  /** The loop invariant: `QueueState`, the roots stay first, and each emitted component was ready. */
  ghost predicate LoopState(
    conns: seq<WorkflowConnection>, nodes: seq<string>, inDegree: map<string, int>,
    order: seq<string>, queue: seq<string>, roots: seq<string>)
  {
    && QueueState(conns, nodes, inDegree, order, queue)
    && |roots| <= |order + queue| && (order + queue)[..|roots|] == roots
    && ReadyWhenListed(conns, order)
  }

  /** The head of the queue is a component not emitted yet, with nothing pending. */
  lemma HeadIsReady(
    conns: seq<WorkflowConnection>, nodes: seq<string>, inDegree: map<string, int>, order: seq<string>, queue: seq<string>)
    requires Distinct(nodes)
    requires QueueState(conns, nodes, inDegree, order, queue) && queue != []
    ensures queue[0] in nodes && queue[0] !in order && Pending(conns, order, queue[0]) == 0
    ensures |order| < |nodes|
  {
    var all := order + queue;
    assert all[|order|] == queue[0];
    forall i | 0 <= i < |order| ensures order[i] != queue[0] {
      assert all[i] == order[i];
    }
    DistinctSubsetLength(all, nodes);
  }

  /** Popping the head of the queue: its successors are counted, and their counts allow the decrements. */
  lemma PopKeepsState(
    components: seq<ComponentConfig>, conns: seq<WorkflowConnection>, graph: map<string, seq<string>>,
    nodes: seq<string>, inDegree: map<string, int>, order: seq<string>, queue: seq<string>, roots: seq<string>)
    requires EndpointsKnown(components, conns) && nodes == DistinctIds(components)
    requires forall v :: v in nodes ==> v in graph && graph[v] == Targets(conns, v)
    requires LoopState(conns, nodes, inDegree, order, queue, roots) && queue != []
    ensures queue[0] in graph && |order| < |nodes|
    ensures forall v :: v in graph[queue[0]] ==> v in inDegree
    ensures forall v :: v in inDegree ==> Count(graph[queue[0]], v) <= inDegree[v]
  {
    HeadIsReady(conns, nodes, inDegree, order, queue);
    TargetsAreKnown(components, conns, queue[0]);
    forall v | v in inDegree ensures Count(Targets(conns, queue[0]), v) <= inDegree[v] {
      PendingSplit(conns, order, queue[0], v);
    }
  }

  /** Emitting the head and releasing its successors keeps the loop invariant. */
  lemma ReleaseKeepsState(
    conns: seq<WorkflowConnection>, graph: map<string, seq<string>>, nodes: seq<string>,
    inDegree: map<string, int>, inDegree': map<string, int>,
    order: seq<string>, queue: seq<string>, queue': seq<string>, roots: seq<string>)
    requires Distinct(nodes)
    requires forall v :: v in nodes ==> v in graph && graph[v] == Targets(conns, v)
    requires LoopState(conns, nodes, inDegree, order, queue, roots) && queue != []
    requires forall v :: v in inDegree' <==> v in inDegree
    requires forall v :: v in inDegree ==> inDegree'[v] == inDegree[v] - Count(graph[queue[0]], v)
    requires |queue| - 1 <= |queue'| && queue'[..|queue| - 1] == queue[1..]
    requires Distinct(queue'[|queue| - 1..])
    requires forall v :: v in queue'[|queue| - 1..] <==> v in inDegree && inDegree[v] > 0 && inDegree'[v] == 0
    ensures LoopState(conns, nodes, inDegree', order + [queue[0]], queue', roots)
  {
    var u := queue[0];
    HeadIsReady(conns, nodes, inDegree, order, queue);
    ReadyExtend(conns, order, u);
    var added := queue'[|queue| - 1..];
    RequeueSplit(order, queue, queue');
    ReleaseCounts(conns, nodes, inDegree, inDegree', order, u);
    ReleaseZeros(nodes, inDegree, inDegree', order + queue, added);
    DistinctAppend(order + queue, added);
    PrefixKept(order + queue, added, roots);
  }

  /** Moving the head to the emitted list and appending to the queue only appends to their concatenation. */
  lemma RequeueSplit(order: seq<string>, queue: seq<string>, queue': seq<string>)
    requires queue != [] && |queue| - 1 <= |queue'| && queue'[..|queue| - 1] == queue[1..]
    ensures (order + [queue[0]]) + queue' == (order + queue) + queue'[|queue| - 1..]
  {
    assert queue == [queue[0]] + queue[1..];
    assert queue' == queue[1..] + queue'[|queue| - 1..];
  }

  /** Decrementing by the successors of `u` is exactly what emitting `u` does to the pending counts. */
  lemma ReleaseCounts(
    conns: seq<WorkflowConnection>, nodes: seq<string>, inDegree: map<string, int>, inDegree': map<string, int>,
    order: seq<string>, u: string)
    requires forall v :: v in inDegree <==> v in nodes
    requires forall v :: v in nodes ==> inDegree[v] == Pending(conns, order, v)
    requires u !in order
    requires forall v :: v in inDegree' <==> v in inDegree
    requires forall v :: v in inDegree ==> inDegree'[v] == inDegree[v] - Count(Targets(conns, u), v)
    ensures forall v :: v in inDegree' <==> v in nodes
    ensures forall v :: v in nodes ==> inDegree'[v] == Pending(conns, order + [u], v)
  {
    forall v | v in nodes ensures inDegree'[v] == Pending(conns, order + [u], v) {
      PendingSplit(conns, order, u, v);
    }
  }

  /** After the release, the components with nothing pending are the listed ones plus the newly queued. */
  lemma ReleaseZeros(
    nodes: seq<string>, inDegree: map<string, int>, inDegree': map<string, int>, listed: seq<string>, added: seq<string>)
    requires forall v :: v in listed ==> v in nodes
    requires forall v :: v in inDegree <==> v in nodes
    requires forall v :: v in inDegree' <==> v in inDegree
    requires forall v :: v in nodes ==> inDegree'[v] >= 0 && inDegree'[v] <= inDegree[v]
    requires forall v :: v in nodes ==> (inDegree[v] == 0 <==> v in listed)
    requires forall v :: v in added <==> v in inDegree && inDegree[v] > 0 && inDegree'[v] == 0
    ensures forall v :: v in listed + added ==> v in nodes
    ensures forall v :: v in nodes ==> (inDegree'[v] == 0 <==> v in listed + added)
    ensures forall v :: v in added ==> v !in listed
  {
  }

  /** Handling one more neighbour is one more step of `Release`. */
  lemma ReleaseStep(neighbors: seq<string>, inDegree: map<string, int>, j: nat)
    requires j < |neighbors| && forall v :: v in neighbors ==> v in inDegree
    ensures neighbors[j] in Release(neighbors[..j], inDegree).0
    ensures var before := Release(neighbors[..j], inDegree);
      var after := before.0[neighbors[j] := before.0[neighbors[j]] - 1];
      Release(neighbors[..j + 1], inDegree) == (after, before.1 + (if after[neighbors[j]] == 0 then [neighbors[j]] else []))
  {
    assert neighbors[..j + 1][..j] == neighbors[..j];
    assert neighbors[j] in neighbors;
  }

  /** One pass of the `while queue` loop is one step of `KahnFrom`. */
  lemma KahnStep(graph: map<string, seq<string>>, inDegree: map<string, int>, queue: seq<string>, fuel: nat)
    requires queue != [] && fuel > 0 && queue[0] in graph
    ensures KahnFrom(graph, inDegree, queue, fuel) ==
      [queue[0]] + KahnFrom(graph, Release(graph[queue[0]], inDegree).0, queue[1..] + Release(graph[queue[0]], inDegree).1, fuel - 1)
  {
  }

  /** The `KahnFrom` part of the `DrainQueue` invariant survives one pass of the loop. */
  lemma KahnAdvance(
    graph: map<string, seq<string>>, inDegree: map<string, int>, inDegree': map<string, int>,
    order: seq<string>, queue: seq<string>, queue': seq<string>, fuel: nat, whole: seq<string>)
    requires queue != [] && fuel > 0 && queue[0] in graph
    requires inDegree' == Release(graph[queue[0]], inDegree).0
    requires queue' == queue[1..] + Release(graph[queue[0]], inDegree).1
    requires order + KahnFrom(graph, inDegree, queue, fuel) == whole
    ensures (order + [queue[0]]) + KahnFrom(graph, inDegree', queue', fuel - 1) == whole
  {
    KahnStep(graph, inDegree, queue, fuel);
    AppendAssoc(order, [queue[0]], KahnFrom(graph, inDegree', queue', fuel - 1));
  }

  lemma AppendAssoc<T>(a: seq<T>, b: seq<T>, c: seq<T>)
    ensures a + (b + c) == (a + b) + c
  {
  }

  lemma TakeOneMore<T>(s: seq<T>, k: nat)
    requires k < |s|
    ensures s[..k + 1] == s[..k] + [s[k]]
  {
  }

  lemma TakeAll<T>(s: seq<T>)
    ensures s[..|s|] == s
  {
  }

  lemma PopFront(order: seq<string>, queue: seq<string>)
    requires queue != []
    ensures (order + [queue[0]]) + queue[1..] == order + queue
  {
    assert queue == [queue[0]] + queue[1..];
  }

  lemma AppendSplit(order: seq<string>, queue: seq<string>, queue': seq<string>)
    requires |queue| <= |queue'| && queue'[..|queue|] == queue
    ensures order + queue' == (order + queue) + queue'[|queue|..]
  {
    assert queue' == queue'[..|queue|] + queue'[|queue|..];
  }

  lemma PrefixKept(s: seq<string>, t: seq<string>, r: seq<string>)
    requires |r| <= |s| && s[..|r|] == r
    ensures |r| <= |s + t| && (s + t)[..|r|] == r
  {
    assert (s + t)[..|r|] == s[..|r|];
  }

  lemma AppendNew(queue: seq<string>, n: nat, x: string)
    requires n <= |queue|
    ensures (queue + [x])[..n] == queue[..n]
    ensures (queue + [x])[n..] == queue[n..] + [x]
  {
  }

  lemma DistinctAppend(a: seq<string>, b: seq<string>)
    requires Distinct(a) && Distinct(b)
    requires forall v :: v in b ==> v !in a
    ensures Distinct(a + b)
  {
    var s := a + b;
    forall i, j | 0 <= i < j < |s| ensures s[i] != s[j] {
      if j < |a| {
        assert s[i] == a[i] && s[j] == a[j];
      } else if i >= |a| {
        assert s[i] == b[i - |a|] && s[j] == b[j - |a|];
      } else {
        assert s[i] == a[i] && s[j] == b[j - |a|];
        assert b[j - |a|] in b;
      }
    }
  }

  /** One more element of `s` adds one to its own count and leaves the others. */
  lemma CountStep(s: seq<string>, j: nat)
    requires j < |s|
    ensures forall v :: Count(s[..j + 1], v) == Count(s[..j], v) + (if s[j] == v then 1 else 0)
  {
    TakeOneMore(s, j);
    forall v ensures Count(s[..j + 1], v) == Count(s[..j], v) + (if s[j] == v then 1 else 0) {
      CountAppend(s[..j], [s[j]], v);
    }
  }

  lemma {:induction false} CountAppend(a: seq<string>, b: seq<string>, v: string)
    ensures Count(a + b, v) == Count(a, v) + Count(b, v)
  {
    if a != [] {
      assert (a + b)[1..] == a[1..] + b;
      CountAppend(a[1..], b, v);
    } else {
      assert a + b == b;
    }
  }

  lemma CountPrefixBound(s: seq<string>, j: nat, v: string)
    requires j <= |s|
    ensures Count(s[..j], v) <= Count(s, v)
  {
    assert s == s[..j] + s[j..];
    CountAppend(s[..j], s[j..], v);
  }

  lemma AdjacencyStep(graph: map<string, seq<string>>, conns: seq<WorkflowConnection>, k: nat)
    requires k < |conns| && conns[k].source in graph
    requires forall v :: v in graph ==> graph[v] == Targets(conns[..k], v)
    ensures forall v :: v in graph ==>
      graph[conns[k].source := graph[conns[k].source] + [conns[k].target]][v] == Targets(conns[..k + 1], v)
  {
    TakeOneMore(conns, k);
    forall v | v in graph
      ensures graph[conns[k].source := graph[conns[k].source] + [conns[k].target]][v] == Targets(conns[..k + 1], v)
    {
      TargetsAppend(conns[..k], [conns[k]], v);
    }
  }

  lemma CounterStep(inDegree: map<string, int>, conns: seq<WorkflowConnection>, k: nat)
    requires k < |conns| && conns[k].target in inDegree
    requires forall v :: v in inDegree ==> inDegree[v] == InDegree(conns[..k], v)
    ensures forall v :: v in inDegree ==>
      inDegree[conns[k].target := inDegree[conns[k].target] + 1][v] == InDegree(conns[..k + 1], v)
  {
    TakeOneMore(conns, k);
    forall v | v in inDegree
      ensures inDegree[conns[k].target := inDegree[conns[k].target] + 1][v] == InDegree(conns[..k + 1], v)
    {
      PendingAppend(conns[..k], [conns[k]], [], v);
    }
  }

  /** Each listed component had no pending connection left at the moment it was listed. */
  ghost predicate ReadyWhenListed(conns: seq<WorkflowConnection>, order: seq<string>) {
    forall i :: 0 <= i < |order| ==> Pending(conns, order[..i], order[i]) == 0
  }

  lemma ReadyExtend(conns: seq<WorkflowConnection>, order: seq<string>, u: string)
    requires ReadyWhenListed(conns, order) && Pending(conns, order, u) == 0
    ensures ReadyWhenListed(conns, order + [u])
  {
    var s := order + [u];
    forall i | 0 <= i < |s| ensures Pending(conns, s[..i], s[i]) == 0 {
      if i < |order| {
        assert s[..i] == order[..i] && s[i] == order[i];
      } else {
        assert s[..i] == order;
      }
    }
  }

  lemma ReadyMeansSourcesFirst(conns: seq<WorkflowConnection>, order: seq<string>)
    requires ReadyWhenListed(conns, order)
    ensures SourcesFirst(conns, order)
  {
    forall i, k | 0 <= i < |order| && 0 <= k < |conns| && conns[k].target == order[i]
      ensures conns[k].source in order[..i]
    {
      PendingZero(conns, order[..i], order[i]);
    }
  }

  lemma {:induction false} TargetsAppend(a: seq<WorkflowConnection>, b: seq<WorkflowConnection>, u: string)
    ensures Targets(a + b, u) == Targets(a, u) + Targets(b, u)
  {
    if a != [] {
      assert (a + b)[1..] == a[1..] + b;
      TargetsAppend(a[1..], b, u);
    } else {
      assert a + b == b;
    }
  }

  lemma {:induction false} PendingAppend(a: seq<WorkflowConnection>, b: seq<WorkflowConnection>, done: seq<string>, v: string)
    ensures Pending(a + b, done, v) == Pending(a, done, v) + Pending(b, done, v)
  {
    if a != [] {
      assert (a + b)[1..] == a[1..] + b;
      PendingAppend(a[1..], b, done, v);
    } else {
      assert a + b == b;
    }
  }

  /** Emitting `u` moves its outgoing connections from the pending count to `graph[u]`. */
  lemma {:induction false} PendingSplit(conns: seq<WorkflowConnection>, done: seq<string>, u: string, v: string)
    requires u !in done
    ensures Pending(conns, done, v) == Pending(conns, done + [u], v) + Count(Targets(conns, u), v)
  {
    if conns != [] {
      PendingSplit(conns[1..], done, u, v);
      var t := Targets(conns, u);
      if conns[0].source == u {
        assert t[0] == conns[0].target && t[1..] == Targets(conns[1..], u);
      } else {
        assert t == Targets(conns[1..], u);
      }
    }
  }

  /** No pending connection into `v` means every source of `v` has been emitted. */
  lemma {:induction false} PendingZero(conns: seq<WorkflowConnection>, done: seq<string>, v: string)
    ensures Pending(conns, done, v) == 0 <==>
      forall k :: 0 <= k < |conns| && conns[k].target == v ==> conns[k].source in done
  {
    if conns != [] {
      PendingZero(conns[1..], done, v);
      assert forall k :: 1 <= k < |conns| ==> conns[k] == conns[1..][k - 1];
    }
  }

  lemma {:induction false} TargetsAreKnown(components: seq<ComponentConfig>, conns: seq<WorkflowConnection>, u: string)
    requires EndpointsKnown(components, conns)
    ensures forall x :: x in Targets(conns, u) ==> x in Ids(components)
  {
    if conns != [] {
      assert EndpointsKnown(components, conns[1..]) by {
        assert forall k :: 0 <= k < |conns[1..]| ==> conns[1..][k] == conns[k + 1];
      }
      TargetsAreKnown(components, conns[1..], u);
    }
  }

  /** The set of a sequence has at most as many elements as the sequence, exactly as many when it is distinct. */
  lemma {:induction false} SeqSetCard(s: seq<string>)
    ensures |set x | x in s| <= |s|
    ensures Distinct(s) ==> |set x | x in s| == |s|
  {
    if s != [] {
      SeqSetCard(s[1..]);
      assert (set x | x in s) == {s[0]} + (set x | x in s[1..]);
    }
  }

  /** A distinct sequence drawn from `b` is no longer than `b`. */
  lemma DistinctSubsetLength(a: seq<string>, b: seq<string>)
    requires Distinct(a)
    requires forall x :: x in a ==> x in b
    ensures |a| <= |b|
  {
    SeqSetCard(a);
    SeqSetCard(b);
    var sa, sb := set x | x in a, set x | x in b;
    assert sa <= sb;
    assert sb == sa + (sb - sa);
    assert sa * (sb - sa) == {};
  }

  // ---------------------------------------------------------------------------
  // Which components are left out

  function IndexOf(s: seq<string>, x: string): (i: nat)
    requires x in s
    ensures i < |s| && s[i] == x && x !in s[..i]
  {
    if s[0] == x then 0 else assert s[1..][IndexOf(s[1..], x)] == x; 1 + IndexOf(s[1..], x)
  }

  lemma {:induction false} IndexOfFirst(s: seq<string>, x: string, q: nat)
    requires q < |s| && s[q] == x
    ensures IndexOf(s, x) <= q
  {
    if s[0] != x {
      IndexOfFirst(s[1..], x, q - 1);
    }
  }

  /** A walk that ends at a listed component has all its earlier steps listed earlier. */
  lemma {:induction false} PathIntoOrder(conns: seq<WorkflowConnection>, order: seq<string>, w: seq<string>)
    requires Distinct(order) && SourcesFirst(conns, order)
    requires IsPath(conns, w) && w[|w| - 1] in order
    ensures w[0] in order
    ensures |w| >= 2 ==> IndexOf(order, w[0]) < IndexOf(order, w[|w| - 1])
    decreases |w|
  {
    if |w| >= 2 {
      var n := |w|;
      var p := IndexOf(order, w[n - 1]);
      assert HasEdge(conns, w[n - 2], w[n - 1]);
      var k :| 0 <= k < |conns| && conns[k].source == w[n - 2] && conns[k].target == w[n - 1];
      assert w[n - 2] in order[..p];
      var q :| 0 <= q < p && order[q] == w[n - 2];
      IndexOfFirst(order, w[n - 2], q);
      var w' := w[..n - 1];
      assert IsPath(conns, w') by {
        forall i | 0 <= i < |w'| - 1 ensures HasEdge(conns, w'[i], w'[i + 1]) {
          assert w'[i] == w[i] && w'[i + 1] == w[i + 1];
        }
      }
      PathIntoOrder(conns, order, w');
    }
  }

  /** A component on a cycle, or reachable from one, is never listed. */
  lemma DownstreamOfCycleOmitted(conns: seq<WorkflowConnection>, order: seq<string>, v: string)
    requires Distinct(order) && SourcesFirst(conns, order)
    requires DownstreamOfCycle(conns, v)
    ensures v !in order
  {
    var w, u :| WalkBetween(conns, w, u, v) && OnCycle(conns, u);
    var c :| WalkBetween(conns, c, u, u) && |c| >= 2;
    if v in order {
      PathIntoOrder(conns, order, w);
      PathIntoOrder(conns, order, c);
    }
  }

  lemma PathSlice(conns: seq<WorkflowConnection>, w: seq<string>, i: nat, j: nat)
    requires IsPath(conns, w) && i < j <= |w|
    ensures IsPath(conns, w[i..j])
  {
    forall m | 0 <= m < j - i - 1 ensures HasEdge(conns, w[i..j][m], w[i..j][m + 1]) {
      assert w[i..j][m] == w[i + m] && w[i..j][m + 1] == w[i + m + 1];
    }
  }

  /** Following blocked components backwards gives walks of any length among omitted components. */
  lemma {:induction false} BackwardWalk(
    components: seq<ComponentConfig>, conns: seq<WorkflowConnection>, order: seq<string>, v: string, len: nat)
    returns (w: seq<string>)
    requires EndpointsKnown(components, conns) && OmittedAreBlocked(components, conns, order)
    requires v in Ids(components) && v !in order && len >= 1
    ensures |w| == len && IsPath(conns, w) && w[len - 1] == v
    ensures forall x :: x in w ==> x in Ids(components)
    decreases len
  {
    if len == 1 {
      w := [v];
    } else {
      PendingZero(conns, order, v);
      var k :| 0 <= k < |conns| && conns[k].target == v && conns[k].source !in order;
      var u := conns[k].source;
      var prefix := BackwardWalk(components, conns, order, u, len - 1);
      w := prefix + [v];
      forall i | 0 <= i < |w| - 1 ensures HasEdge(conns, w[i], w[i + 1]) {
        if i < len - 2 {
          assert w[i] == prefix[i] && w[i + 1] == prefix[i + 1];
        } else {
          assert w[i] == u && w[i + 1] == v;
        }
      }
    }
  }

  /** A sequence longer than the set it is drawn from repeats an element. */
  lemma Pigeonhole(w: seq<string>, nodes: seq<string>)
    requires forall x :: x in w ==> x in nodes
    requires |w| > |nodes|
    ensures exists i, j :: 0 <= i < j < |w| && w[i] == w[j]
  {
    if !exists i, j :: 0 <= i < j < |w| && w[i] == w[j] {
      DistinctSubsetLength(w, nodes);
    }
  }

  /** A walk that visits more components than there are ends downstream of a cycle. */
  lemma RepeatGivesCycle(conns: seq<WorkflowConnection>, w: seq<string>, nodes: seq<string>)
    requires IsPath(conns, w)
    requires forall x :: x in w ==> x in nodes
    requires |w| > |nodes|
    ensures DownstreamOfCycle(conns, w[|w| - 1])
  {
    Pigeonhole(w, nodes);
    var i, j :| 0 <= i < j < |w| && w[i] == w[j];
    PathSlice(conns, w, i, j + 1);
    PathSlice(conns, w, i, |w|);
    WalkFromCycle(conns, w[i..j + 1], w[i..]);
  }

  lemma WalkFromCycle(conns: seq<WorkflowConnection>, cycle: seq<string>, walk: seq<string>)
    requires IsPath(conns, cycle) && |cycle| >= 2 && cycle[0] == cycle[|cycle| - 1]
    requires IsPath(conns, walk) && walk[0] == cycle[0]
    ensures DownstreamOfCycle(conns, walk[|walk| - 1])
  {
    assert WalkBetween(conns, cycle, cycle[0], cycle[0]);
    assert WalkBetween(conns, walk, walk[0], walk[|walk| - 1]);
  }

  /** Conversely, every component left out lies on a cycle or downstream of one. */
  lemma OmittedAreDownstreamOfCycle(
    components: seq<ComponentConfig>, conns: seq<WorkflowConnection>, order: seq<string>, v: string)
    requires EndpointsKnown(components, conns) && OmittedAreBlocked(components, conns, order)
    requires v in Ids(components) && v !in order
    ensures DownstreamOfCycle(conns, v)
  {
    var nodes := DistinctIds(components);
    var w := BackwardWalk(components, conns, order, v, |nodes| + 1);
    assert forall x :: x in w ==> x in nodes;
    RepeatGivesCycle(conns, w, nodes);
  }

  /** For an acyclic graph the order is a permutation of the (distinct) component ids. */
  lemma AcyclicOrderIsComplete(components: seq<ComponentConfig>, conns: seq<WorkflowConnection>, order: seq<string>)
    requires EndpointsKnown(components, conns) && Acyclic(conns)
    requires Distinct(order) && (forall v :: v in order ==> v in Ids(components))
    requires OmittedAreBlocked(components, conns, order)
    ensures forall v :: v in order <==> v in Ids(components)
    ensures |order| == |DistinctIds(components)|
  {
    forall v | v in Ids(components) ensures v in order {
      if v !in order {
        OmittedAreDownstreamOfCycle(components, conns, order, v);
        assert false;
      }
    }
    DistinctSubsetLength(order, DistinctIds(components));
    DistinctSubsetLength(DistinctIds(components), order);
  }

  // ---------------------------------------------------------------------------
  // An example

  /**
    The queue is first-in first-out: in the diamond a -> b, a -> c, b -> d, c -> d, the
    successors of `a` run in connection order, so `b` comes before `c`.
  */
  lemma DiamondIsBreadthFirst()
    ensures KahnFrom(map["a" := ["b", "c"], "b" := ["d"], "c" := ["d"], "d" := []],
      map["a" := 0, "b" := 1, "c" := 1, "d" := 2], ["a"], 4) == ["a", "b", "c", "d"]
  {
    var graph := map["a" := ["b", "c"], "b" := ["d"], "c" := ["d"], "d" := []];
    var d0 := map["a" := 0, "b" := 1, "c" := 1, "d" := 2];
    var d1 := d0["b" := 0]["c" := 0];
    var d2 := d1["d" := 1];
    var d3 := d2["d" := 0];
    ReleasePair("b", "c", d0);
    KahnStep(graph, d0, ["a"], 4);
    assert ["a"][1..] + ["b", "c"] == ["b", "c"];
    ReleaseSingle("d", d1);
    KahnStep(graph, d1, ["b", "c"], 3);
    assert ["b", "c"][1..] + [] == ["c"];
    ReleaseSingle("d", d2);
    KahnStep(graph, d2, ["c"], 2);
    assert ["c"][1..] + ["d"] == ["d"];
    assert Release([], d3) == (d3, []);
    KahnStep(graph, d3, ["d"], 1);
    assert ["d"][1..] + [] == [];
  }

  lemma ReleaseSingle(x: string, inDegree: map<string, int>)
    requires x in inDegree
    ensures Release([x], inDegree) == (inDegree[x := inDegree[x] - 1], if inDegree[x] == 1 then [x] else [])
  {
    assert [x][..0] == [];
    assert Release([], inDegree) == (inDegree, []);
    assert [] + [x] == [x] && Release([], inDegree).1 + [] == [];
  }

  lemma ReleasePair(x: string, y: string, inDegree: map<string, int>)
    requires x in inDegree && y in inDegree && x != y
    ensures Release([x, y], inDegree) ==
      (inDegree[x := inDegree[x] - 1][y := inDegree[y] - 1],
       (if inDegree[x] == 1 then [x] else []) + (if inDegree[y] == 1 then [y] else []))
  {
    assert [x, y][..1] == [x];
    ReleaseSingle(x, inDegree);
  }
}
