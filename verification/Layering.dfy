/**
The worklist that assigns graph layers. Whatever the links, cyclic or not, the
layer of a node comes out as the length of the longest walk ending there,
capped at one less than the number of nodes.
*/
module Layering {
  import opened GraphTypes
  import opened StableSort
  import opened ModArith

  /** Neighbour lists; every node has one. */
  type Adjacency = map<NodeId, seq<NodeId>>

  // Reading the links.

  predicate JoinsNodes(g: GraphView, l: LinkId, u: NodeId, v: NodeId) {
    && l in g.links
    && var link := g.links[l];
    && link.outputPort in g.ports && g.ports[link.outputPort].nodeId == u
    && link.inputPort in g.ports && g.ports[link.inputPort].nodeId == v
    && u != v && u in g.nodes && v in g.nodes
  }

  /** Some link leads from `u` to a different node `v`. */
  ghost predicate Edge(g: GraphView, u: NodeId, v: NodeId) {
    exists l :: JoinsNodes(g, l, u, v)
  }

  ghost predicate EdgeAmong(g: GraphView, links: seq<LinkId>, u: NodeId, v: NodeId) {
    exists l :: l in links && JoinsNodes(g, l, u, v)
  }

  ghost predicate ListsTargets(g: GraphView, links: seq<LinkId>, outgoing: Adjacency) {
    && outgoing.Keys == g.nodes.Keys
    && (forall u, v :: u in outgoing ==> (v in outgoing[u] <==> EdgeAmong(g, links, u, v)))
  }

  ghost predicate ListsSources(g: GraphView, links: seq<LinkId>, incoming: Adjacency) {
    && incoming.Keys == g.nodes.Keys
    && (forall v, u :: v in incoming ==> (u in incoming[v] <==> EdgeAmong(g, links, u, v)))
  }

  ghost predicate Describes(g: GraphView, incoming: Adjacency, outgoing: Adjacency) {
    && incoming.Keys == g.nodes.Keys && outgoing.Keys == g.nodes.Keys
    && (forall u, v :: u in outgoing ==> (v in outgoing[u] <==> Edge(g, u, v)))
    && (forall u, v :: v in incoming ==> (u in incoming[v] <==> Edge(g, u, v)))
    && (forall n :: n in g.nodes ==> Distinct(incoming[n]) && Distinct(outgoing[n]))
  }

  function Numeric(): (NodeId, NodeId) -> bool {
    (a: NodeId, b: NodeId) => a <= b
  }

  /** `Vec::dedup`: drop elements equal to their predecessor. */
  function Dedup(xs: seq<NodeId>): seq<NodeId> {
    if |xs| < 2 then xs
    else if xs[0] == xs[1] then Dedup(xs[1..])
    else [xs[0]] + Dedup(xs[1..])
  }

  lemma {:induction false} DedupSorted(xs: seq<NodeId>)
    requires SortedBy(xs, Numeric())
    ensures forall x :: x in Dedup(xs) <==> x in xs
    ensures forall i, j :: 0 <= i < j < |Dedup(xs)| ==> Dedup(xs)[i] < Dedup(xs)[j]
    ensures xs != [] ==> Dedup(xs) != [] && Dedup(xs)[0] == xs[0]
  {
    if |xs| >= 2 {
      assert xs == [xs[0]] + xs[1..];
      assert Numeric()(xs[0], xs[1]);
      DedupSorted(xs[1..]);
    }
  }

  function SortDedup(xs: seq<NodeId>): seq<NodeId> {
    Dedup(Sort(xs, Numeric()))
  }

  lemma SortDedupKeepsMembers(xs: seq<NodeId>)
    ensures forall x :: x in SortDedup(xs) <==> x in xs
    ensures Distinct(SortDedup(xs))
  {
    SortSorts(xs, Numeric());
    SortPermutes(xs, Numeric());
    PermutationFacts(xs, Sort(xs, Numeric()));
    DedupSorted(Sort(xs, Numeric()));
  }

  function Normalized(lists: Adjacency): Adjacency {
    map n | n in lists :: SortDedup(lists[n])
  }

  lemma NormalizedDescribes(g: GraphView, order: seq<LinkId>, incoming: Adjacency, outgoing: Adjacency)
    requires ListsTargets(g, order, outgoing) && ListsSources(g, order, incoming)
    requires forall l :: l in g.links ==> l in order
    ensures Describes(g, Normalized(incoming), Normalized(outgoing))
  {
    forall n | n in g.nodes
      ensures Distinct(Normalized(incoming)[n]) && Distinct(Normalized(outgoing)[n])
      ensures forall x :: x in Normalized(incoming)[n] <==> x in incoming[n]
      ensures forall x :: x in Normalized(outgoing)[n] <==> x in outgoing[n]
    {
      SortDedupKeepsMembers(incoming[n]);
      SortDedupKeepsMembers(outgoing[n]);
    }
    forall u, v
      ensures Edge(g, u, v) <==> EdgeAmong(g, order, u, v)
    {
    }
  }

  /** What has been gathered from the links seen so far. */
  ghost predicate Tallied(g: GraphView, seen: seq<LinkId>, incoming: Adjacency, outgoing: Adjacency,
                          incomingCount: map<NodeId, nat>) {
    && ListsTargets(g, seen, outgoing) && ListsSources(g, seen, incoming)
    && incomingCount.Keys == g.nodes.Keys
    && (forall v :: v in incoming ==> incomingCount[v] == |incoming[v]|)
  }

  method TallyLink(g: GraphView, ghost seen: seq<LinkId>, l: LinkId,
                   sources: Adjacency, targets: Adjacency, counts: map<NodeId, nat>)
    returns (incoming: Adjacency, outgoing: Adjacency, incomingCount: map<NodeId, nat>)
    requires l in g.links && Tallied(g, seen, sources, targets, counts)
    ensures Tallied(g, seen + [l], incoming, outgoing, incomingCount)
  {
    incoming, outgoing, incomingCount := sources, targets, counts;
    var link := g.links[l];
    if link.outputPort !in g.ports || link.inputPort !in g.ports {
      NoMoreLinks(g, seen, l);
      return;
    }
    var source, target := g.ports[link.outputPort].nodeId, g.ports[link.inputPort].nodeId;
    if source == target || source !in g.nodes || target !in g.nodes {
      NoMoreLinks(g, seen, l);
      return;
    }
    OneMoreLink(g, seen, l, source, target);
    outgoing := outgoing[source := outgoing[source] + [target]];
    incoming := incoming[target := incoming[target] + [source]];
    incomingCount := incomingCount[target := incomingCount[target] + 1];
  }

  lemma NormalizedEmptiness(lists: Adjacency, n: NodeId)
    requires n in lists
    ensures lists[n] == [] <==> Normalized(lists)[n] == []
  {
    SortDedupKeepsMembers(lists[n]);
    if lists[n] != [] {
      assert lists[n][0] in Normalized(lists)[n];
    }
  }

  /** Gather all links, in the order of their ids. */
  method TallyAll(g: GraphView)
    returns (incoming: Adjacency, outgoing: Adjacency, incomingCount: map<NodeId, nat>, ghost order: seq<LinkId>)
    ensures Tallied(g, order, incoming, outgoing, incomingCount)
    ensures forall l :: l in g.links ==> l in order
  {
    incomingCount := map n | n in g.nodes :: 0;
    incoming := map n | n in g.nodes :: [];
    outgoing := map n | n in g.nodes :: [];
    var links := Ascending(g.links.Keys);
    AscendingHas(g.links.Keys);
    for i := 0 to |links|
      invariant Tallied(g, links[..i], incoming, outgoing, incomingCount)
    {
      assert links[i] in links;
      assert links[..i + 1] == links[..i] + [links[i]];
      incoming, outgoing, incomingCount := TallyLink(g, links[..i], links[i], incoming, outgoing, incomingCount);
    }
    assert links[..|links|] == links;
    order := links;
  }

  /** Neighbour lists in both directions, and how many links arrive at each node. */
  method BuildAdjacency(g: GraphView)
    returns (incoming: Adjacency, outgoing: Adjacency, incomingCount: map<NodeId, nat>)
    ensures Describes(g, incoming, outgoing)
    ensures incomingCount.Keys == g.nodes.Keys
    ensures forall v :: v in g.nodes ==> (incomingCount[v] == 0 <==> incoming[v] == [])
  {
    ghost var order;
    incoming, outgoing, incomingCount, order := TallyAll(g);
    NormalizedDescribes(g, order, incoming, outgoing);
    forall v | v in g.nodes
      ensures incomingCount[v] == 0 <==> Normalized(incoming)[v] == []
    {
      NormalizedEmptiness(incoming, v);
    }
    outgoing := Normalized(outgoing);
    incoming := Normalized(incoming);
  }

  lemma OneMoreLink(g: GraphView, seen: seq<LinkId>, l: LinkId, source: NodeId, target: NodeId)
    requires JoinsNodes(g, l, source, target)
    ensures forall u, v :: EdgeAmong(g, seen + [l], u, v) <==> EdgeAmong(g, seen, u, v) || (u == source && v == target)
  {
    assert l in seen + [l];
    forall u, v | EdgeAmong(g, seen, u, v)
      ensures EdgeAmong(g, seen + [l], u, v)
    {
      var m :| m in seen && JoinsNodes(g, m, u, v);
      assert m in seen + [l];
    }
  }

  lemma NoMoreLinks(g: GraphView, seen: seq<LinkId>, l: LinkId)
    requires forall u, v :: !JoinsNodes(g, l, u, v)
    ensures forall u, v :: EdgeAmong(g, seen + [l], u, v) <==> EdgeAmong(g, seen, u, v)
  {
    forall u, v | EdgeAmong(g, seen, u, v)
      ensures EdgeAmong(g, seen + [l], u, v)
    {
      var m :| m in seen && JoinsNodes(g, m, u, v);
      assert m in seen + [l];
    }
  }

  // Walks along outgoing lists.

  ghost predicate NoSelfLoops(out: Adjacency) {
    forall u, v :: u in out && v in out[u] ==> v in out && v != u
  }

  ghost predicate IsWalk(out: Adjacency, w: seq<NodeId>) {
    && |w| > 0
    && (forall i :: 0 <= i < |w| ==> w[i] in out)
    && (forall i :: 0 < i < |w| ==> w[i] in out[w[i - 1]])
  }

  ghost predicate WalkTo(out: Adjacency, n: NodeId, links: nat, w: seq<NodeId>) {
    IsWalk(out, w) && w[|w| - 1] == n && |w| == links + 1
  }

  /** A walk of exactly `links` links ends at `n`. */
  ghost predicate Reached(out: Adjacency, n: NodeId, links: nat) {
    exists w :: WalkTo(out, n, links, w)
  }

  lemma Extend(out: Adjacency, u: NodeId, v: NodeId, links: nat)
    requires NoSelfLoops(out) && u in out && v in out[u] && Reached(out, u, links)
    ensures Reached(out, v, links + 1)
  {
    var w :| WalkTo(out, u, links, w);
    assert WalkTo(out, v, links + 1, w + [v]);
  }

  lemma Shorten(out: Adjacency, v: NodeId, links: nat)
    requires Reached(out, v, links + 1)
    ensures Reached(out, v, links)
  {
    var w :| WalkTo(out, v, links + 1, w);
    assert WalkTo(out, v, links, w[1..]);
  }

  // Layer assignments.

  ghost predicate Bounded(out: Adjacency, layers: map<NodeId, nat>, limit: nat) {
    layers.Keys == out.Keys && forall n :: n in layers ==> layers[n] <= limit
  }

  ghost predicate Witnessed(out: Adjacency, layers: map<NodeId, nat>) {
    forall n :: n in layers ==> Reached(out, n, layers[n])
  }

  /** No target of `u` can be raised any further from `u`. */
  ghost predicate Relaxed(out: Adjacency, layers: map<NodeId, nat>, u: NodeId, limit: nat)
    requires layers.Keys == out.Keys && u in out
  {
    forall v :: v in out[u] && v in layers ==> layers[v] >= Min(layers[u] + 1, limit)
  }

  ghost predicate Layered(out: Adjacency, layers: map<NodeId, nat>, limit: nat) {
    && Bounded(out, layers, limit)
    && Witnessed(out, layers)
    && (forall u :: u in out ==> Relaxed(out, layers, u, limit))
  }

  /** The longest walk to `n`, counting no more than `limit` links. */
  ghost predicate LongestWalk(out: Adjacency, n: NodeId, limit: nat, links: nat) {
    && links <= limit && Reached(out, n, links)
    && forall more: nat :: links < more <= limit ==> !Reached(out, n, more)
  }

  lemma {:induction false} WalkRaises(out: Adjacency, layers: map<NodeId, nat>, limit: nat, w: seq<NodeId>)
    requires NoSelfLoops(out) && Layered(out, layers, limit) && IsWalk(out, w)
    ensures layers[w[|w| - 1]] >= Min(|w| - 1, limit)
  {
    if |w| > 1 {
      var shorter := w[..|w| - 1];
      WalkRaises(out, layers, limit, shorter);
      var u, v := shorter[|w| - 2], w[|w| - 1];
      assert Relaxed(out, layers, u, limit) && v in out[u];
    }
  }

  /** On every graph a finished layering is the capped longest walk, so nothing else can be one. */
  lemma LayersAreLongestWalks(out: Adjacency, layers: map<NodeId, nat>, limit: nat, n: NodeId)
    requires NoSelfLoops(out) && Layered(out, layers, limit) && n in out
    ensures LongestWalk(out, n, limit, layers[n])
  {
    forall more: nat | layers[n] < more <= limit
      ensures !Reached(out, n, more)
    {
      if Reached(out, n, more) {
        var w :| WalkTo(out, n, more, w);
        WalkRaises(out, layers, limit, w);
      }
    }
  }

  lemma LayeringIsUnique(out: Adjacency, a: map<NodeId, nat>, b: map<NodeId, nat>, limit: nat)
    requires NoSelfLoops(out) && Layered(out, a, limit) && Layered(out, b, limit)
    ensures a == b
  {
    forall n | n in a
      ensures a[n] == b[n]
    {
      LayersAreLongestWalks(out, a, limit, n);
      LayersAreLongestWalks(out, b, limit, n);
    }
  }

  // Acyclic graphs.

  ghost predicate Acyclic(out: Adjacency) {
    forall w :: IsWalk(out, w) && |w| > 1 ==> w[0] != w[|w| - 1]
  }

  lemma {:induction false} DistinctFits(xs: seq<NodeId>, s: set<NodeId>)
    requires Distinct(xs) && forall i :: 0 <= i < |xs| ==> xs[i] in s
    ensures |xs| <= |s|
  {
    if xs != [] {
      var last, rest := xs[|xs| - 1], xs[..|xs| - 1];
      DistinctFits(rest, s - {last});
    }
  }

  lemma AcyclicWalksAreShort(out: Adjacency, w: seq<NodeId>)
    requires Acyclic(out) && IsWalk(out, w)
    ensures |w| <= |out|
  {
    forall i, j | 0 <= i < j < |w|
      ensures w[i] != w[j]
    {
      var part := w[i..j + 1];
      assert IsWalk(out, part);
      assert part[0] == w[i] && part[|part| - 1] == w[j];
    }
    DistinctFits(w, out.Keys);
  }

  /** The layer of a node of an acyclic graph is the length of the longest walk to it, uncapped. */
  lemma AcyclicLayersAreLongestPaths(out: Adjacency, layers: map<NodeId, nat>, n: NodeId, w: seq<NodeId>)
    requires NoSelfLoops(out) && |out| > 0 && Layered(out, layers, |out| - 1)
    requires Acyclic(out) && IsWalk(out, w) && w[|w| - 1] == n
    ensures Reached(out, n, layers[n])
    ensures |w| - 1 <= layers[n]
  {
    AcyclicWalksAreShort(out, w);
    WalkRaises(out, layers, |out| - 1, w);
  }

  ghost predicate LinksRise(out: Adjacency, layers: map<NodeId, nat>)
    requires layers.Keys == out.Keys
  {
    forall u, v :: u in out && v in out[u] && v in layers ==> layers[u] < layers[v]
  }

  lemma {:induction false} RisingWalk(out: Adjacency, layers: map<NodeId, nat>, w: seq<NodeId>)
    requires NoSelfLoops(out) && layers.Keys == out.Keys && LinksRise(out, layers) && IsWalk(out, w)
    ensures layers[w[0]] + |w| - 1 <= layers[w[|w| - 1]]
  {
    if |w| > 1 {
      var shorter := w[..|w| - 1];
      RisingWalk(out, layers, shorter);
      var u, v := shorter[|w| - 2], w[|w| - 1];
      assert v in out[u];
    }
  }

  lemma AcyclicLinkRises(out: Adjacency, layers: map<NodeId, nat>, u: NodeId, v: NodeId)
    requires NoSelfLoops(out) && |out| > 0 && Layered(out, layers, |out| - 1)
    requires Acyclic(out) && u in out && v in out[u]
    ensures layers[u] < layers[v]
  {
    Extend(out, u, v, layers[u]);
    var w :| WalkTo(out, v, layers[u] + 1, w);
    AcyclicLayersAreLongestPaths(out, layers, v, w);
  }

  /** Every link leads to a strictly later layer exactly when no walk returns to where it began. */
  lemma LinksRiseIffAcyclic(out: Adjacency, layers: map<NodeId, nat>)
    requires NoSelfLoops(out) && |out| > 0 && Layered(out, layers, |out| - 1)
    ensures LinksRise(out, layers) <==> Acyclic(out)
  {
    if Acyclic(out) {
      forall u, v | u in out && v in out[u]
        ensures layers[u] < layers[v]
      {
        AcyclicLinkRises(out, layers, u, v);
      }
    }
    if LinksRise(out, layers) {
      forall w | IsWalk(out, w) && |w| > 1
        ensures w[0] != w[|w| - 1]
      {
        RisingWalk(out, layers, w);
      }
    }
  }

  // The worklist.

  /** How far all the layers together are below the limit. */
  function Headroom(order: seq<NodeId>, layers: map<NodeId, nat>, limit: nat): nat
    requires forall n :: n in order ==> n in layers && layers[n] <= limit
  {
    if order == [] then 0 else limit - layers[order[0]] + Headroom(order[1..], layers, limit)
  }

  lemma {:induction false} RaisingUsesHeadroom(order: seq<NodeId>, before: map<NodeId, nat>, after: map<NodeId, nat>,
                                               limit: nat)
    requires forall n :: n in order ==> n in before && n in after && before[n] <= after[n] <= limit
    ensures Headroom(order, after, limit) <= Headroom(order, before, limit)
    ensures (exists n :: n in order && before[n] < after[n]) ==>
              Headroom(order, after, limit) < Headroom(order, before, limit)
  {
    if order != [] {
      RaisingUsesHeadroom(order[1..], before, after, limit);
      assert order == [order[0]] + order[1..];
    }
  }

  ghost predicate Within(queue: seq<NodeId>, out: Adjacency) {
    forall n :: n in queue ==> n in out
  }

  /** Raising may only go up, and whatever went up is queued. */
  ghost predicate RaisedInto(before: map<NodeId, nat>, after: map<NodeId, nat>, queue: seq<NodeId>) {
    && before.Keys == after.Keys
    && (forall n :: n in before ==> before[n] <= after[n])
    && (forall n :: n in before && before[n] != after[n] ==> n in queue)
  }

  /** Everything is relaxed, queued, or still waiting to be seeded in layer 0. */
  ghost predicate Progress(out: Adjacency, layers: map<NodeId, nat>, limit: nat, queue: seq<NodeId>, unseeded: set<NodeId>) {
    && Bounded(out, layers, limit) && Witnessed(out, layers) && Within(queue, out)
    && (forall u :: u in out ==> u in queue || Relaxed(out, layers, u, limit) || (u in unseeded && layers[u] == 0))
  }

  method RelaxTargets(out: Adjacency, limit: nat, node: NodeId, start: map<NodeId, nat>, pending: seq<NodeId>)
    returns (layers: map<NodeId, nat>, queue: seq<NodeId>)
    requires NoSelfLoops(out) && node in out
    requires Bounded(out, start, limit) && Witnessed(out, start) && Within(pending, out)
    ensures Bounded(out, layers, limit) && Witnessed(out, layers) && Within(queue, out)
    ensures forall n :: n in pending ==> n in queue
    ensures RaisedInto(start, layers, queue)
    ensures Relaxed(out, layers, node, limit)
    ensures layers == start ==> queue == pending
  {
    layers, queue := start, pending;
    var current := layers[node];
    var targets := out[node];
    for i := 0 to |targets|
      invariant Bounded(out, layers, limit) && Witnessed(out, layers) && Within(queue, out)
      invariant layers[node] == current
      invariant forall n :: n in pending ==> n in queue
      invariant RaisedInto(start, layers, queue)
      invariant forall j :: 0 <= j < i ==> targets[j] in out && layers[targets[j]] >= Min(current + 1, limit)
      invariant layers == start ==> queue == pending
    {
      var target := targets[i];
      assert target in targets && target in out && target != node;
      var candidate := Min(current + 1, limit);
      if candidate > layers[target] {
        Extend(out, node, target, current);
        if candidate < current + 1 {
          assert candidate == current;
          Shorten(out, target, current);
        }
        assert start[target] < candidate;
        layers := layers[target := candidate];
        queue := queue + [target];
        assert layers[target] != start[target];
      }
    }
  }

  lemma StepMakesProgress(out: Adjacency, limit: nat, queue: seq<NodeId>, unseeded: set<NodeId>,
                          before: map<NodeId, nat>, after: map<NodeId, nat>, rest: seq<NodeId>)
    requires queue != [] && Progress(out, before, limit, queue, unseeded)
    requires Bounded(out, after, limit) && Witnessed(out, after) && Within(rest, out)
    requires forall n :: n in queue[1..] ==> n in rest
    requires RaisedInto(before, after, rest) && Relaxed(out, after, queue[0], limit)
    ensures Progress(out, after, limit, rest, unseeded)
  {
    assert queue == [queue[0]] + queue[1..];
    forall u | u in out && u !in rest
      ensures Relaxed(out, after, u, limit) || (u in unseeded && after[u] == 0)
    {
      assert after[u] == before[u];
      if u != queue[0] {
        assert u !in queue;
        if Relaxed(out, before, u, limit) {
          assert Relaxed(out, after, u, limit);
        }
      }
    }
  }

  /** Run the worklist until it is empty. */
  method Drain(out: Adjacency, limit: nat, start: map<NodeId, nat>, pending: seq<NodeId>, ghost unseeded: set<NodeId>)
    returns (layers: map<NodeId, nat>)
    requires NoSelfLoops(out) && Progress(out, start, limit, pending, unseeded)
    ensures Progress(out, layers, limit, [], unseeded)
    ensures forall n :: n in out ==> start[n] <= layers[n]
  {
    layers := start;
    var queue := pending;
    ghost var order := Ascending(out.Keys);
    AscendingHas(out.Keys);
    while queue != []
      invariant Progress(out, layers, limit, queue, unseeded)
      invariant forall n :: n in out ==> start[n] <= layers[n]
      decreases Headroom(order, layers, limit), |queue|
    {
      ghost var before := layers;
      var node := queue[0];
      assert node in queue;
      var rest;
      layers, rest := RelaxTargets(out, limit, node, layers, queue[1..]);
      StepMakesProgress(out, limit, queue, unseeded, before, layers, rest);
      RaisingUsesHeadroom(order, before, layers, limit);
      if layers != before {
        var raised :| raised in out && layers[raised] != before[raised];
        assert raised in order && before[raised] < layers[raised];
      }
      queue := rest;
    }
  }

  function Roots(order: seq<NodeId>, incomingCount: map<NodeId, nat>): (roots: seq<NodeId>)
    requires forall n :: n in order ==> n in incomingCount
    ensures forall n :: n in roots <==> n in order && incomingCount[n] == 0
  {
    if order == [] then []
    else if incomingCount[order[0]] == 0 then [order[0]] + Roots(order[1..], incomingCount)
    else Roots(order[1..], incomingCount)
  }

  ghost function Waiting(order: seq<NodeId>, incomingCount: map<NodeId, nat>): set<NodeId>
    requires forall n :: n in order ==> n in incomingCount
  {
    set n | n in order && incomingCount[n] > 0
  }

  lemma InitialProgress(out: Adjacency, limit: nat, order: seq<NodeId>, incomingCount: map<NodeId, nat>,
                        layers: map<NodeId, nat>, queue: seq<NodeId>)
    requires incomingCount.Keys == out.Keys == layers.Keys && forall n :: n in order <==> n in out
    requires forall n :: n in out ==> layers[n] == 0
    requires Within(queue, out) && forall n :: n in Roots(order, incomingCount) ==> n in queue
    ensures Progress(out, layers, limit, queue, Waiting(order, incomingCount))
  {
    forall n | n in out
      ensures Reached(out, n, 0)
    {
      assert WalkTo(out, n, 0, [n]);
    }
  }

  /** Seed what no root reached, in node order. */
  method SeedRemaining(out: Adjacency, limit: nat, order: seq<NodeId>, incomingCount: map<NodeId, nat>,
                       start: map<NodeId, nat>)
    returns (layers: map<NodeId, nat>)
    requires NoSelfLoops(out) && incomingCount.Keys == out.Keys && forall n :: n in order ==> n in out
    requires Progress(out, start, limit, [], Waiting(order, incomingCount))
    ensures Layered(out, layers, limit)
  {
    layers := start;
    assert order[0..] == order;
    for i := 0 to |order|
      invariant Progress(out, layers, limit, [], Waiting(order[i..], incomingCount))
    {
      var node := order[i];
      assert node in order;
      ghost var rest := order[i + 1..];
      assert order[i..] == [node] + rest;
      SeedOrSkip(out, limit, incomingCount, layers, node, rest);
      if incomingCount[node] > 0 && layers[node] == 0 {
        layers := Drain(out, limit, layers, [node], Waiting(rest, incomingCount));
      }
    }
  }

  /** The next node either joins the worklist or has nothing left to wait for. */
  lemma SeedOrSkip(out: Adjacency, limit: nat, incomingCount: map<NodeId, nat>, layers: map<NodeId, nat>, node: NodeId,
                   rest: seq<NodeId>)
    requires incomingCount.Keys == out.Keys && node in out && forall n :: n in rest ==> n in out
    requires Progress(out, layers, limit, [], Waiting([node] + rest, incomingCount))
    ensures if incomingCount[node] > 0 && layers[node] == 0
            then Progress(out, layers, limit, [node], Waiting(rest, incomingCount))
            else Progress(out, layers, limit, [], Waiting(rest, incomingCount))
  {
  }

  /** Layers from the roots (or the first node if there are none), then from each cycle nothing reached. */
  method GraphLayers(out: Adjacency, incomingCount: map<NodeId, nat>) returns (layers: map<NodeId, nat>)
    requires NoSelfLoops(out) && |out| > 0 && incomingCount.Keys == out.Keys
    ensures Layered(out, layers, |out| - 1)
    ensures forall n :: n in out ==> LongestWalk(out, n, |out| - 1, layers[n])
  {
    var limit := |out| - 1;
    var order := Ascending(out.Keys);
    AscendingHas(out.Keys);
    AscendingIncreases(out.Keys);
    layers := map n | n in out :: 0;
    var queue := Roots(order, incomingCount);
    if queue == [] {
      queue := order[..1];
    }
    InitialProgress(out, limit, order, incomingCount, layers, queue);
    layers := Drain(out, limit, layers, queue, Waiting(order, incomingCount));
    layers := SeedRemaining(out, limit, order, incomingCount, layers);
    forall n | n in out
      ensures LongestWalk(out, n, limit, layers[n])
    {
      LayersAreLongestWalks(out, layers, limit, n);
    }
  }
}
