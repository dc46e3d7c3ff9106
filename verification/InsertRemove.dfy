/** Inserting an effect into a link and removing it again. */
module InsertRemoves {
  import opened GraphTypes
  import opened GraphStore
  import opened EndpointResolver
  import opened OwnedNodes
  import opened DriverStates

  ghost predicate SameTopology(g: GraphView, h: GraphView) {
    g.nodes == h.nodes && g.ports == h.ports && Pairs(g) == Pairs(h)
  }

  /** Cutting the inserted effect's links leaves the graph as it was before, less the original link. */
  lemma CutReroute(d: Detour)
    requires LinkIdsBelow(d.g, d.next) && Untouched(d.g.links, {d.e.inputPort}, {d.e.outputPort}) == d.g.links
    ensures WithoutTouching(d.Whole(), EffectClaim(d.e)) == WithoutLink(d.g, d.original)
  {
    var first, second := Link(d.next, d.output, d.e.inputPort), Link(d.next + 1, d.e.outputPort, d.input);
    var whole := d.Whole();
    assert whole.links == (d.g.links - {d.original})[first.id := first][second.id := second];
    CutTwo(d.g.links, d.original, first, second, {d.e.inputPort}, {d.e.outputPort});
  }

  lemma DirectLinkFitsAgain(s: SoundState, output: PortId, input: PortId, original: LinkId, g: GraphView, next: nat)
    requires original in LinksBetween(s.graph, output, input)
    requires g.links == s.graph.links - {original} && next >= s.nextLinkId
    requires forall p :: p in s.graph.ports ==> p in g.ports && g.ports[p] == s.graph.ports[p]
    ensures LinkProblem(g, next, output, input).None?
  {
    JoinedPortsExist(s.graph, original);
    if Connected(g, output, input) {
      var l :| l in g.links && g.links[l].outputPort == output && g.links[l].inputPort == input;
      assert SamePair(s.graph.links[l], s.graph.links[original]);
    }
  }

  lemma PairsAfterSwap(g: SoundGraph, original: LinkId, next: LinkId, output: PortId, input: PortId, h: GraphView)
    requires original in g.links && next !in g.links
    requires h.links == (g.links - {original})[next := Link(next, output, input)]
    ensures Pairs(h) == Pairs(g) - {(g.links[original].outputPort, g.links[original].inputPort)} + {(output, input)}
  {
    RemoveLinkPairs(g, original);
    var bare := WithoutLink(g, original);
    forall pair | pair in Pairs(bare)
      ensures pair in Pairs(h)
    {
      var l :| l in bare.links && pair == (bare.links[l].outputPort, bare.links[l].inputPort);
      assert h.links[l] == bare.links[l];
    }
    assert h.links[next] == Link(next, output, input);
  }

  /** What `created` adds to `s` for the effect `e`, and that `t` still has it. */
  ghost predicate AddsEffect(s: DriverState, t: DriverState, e: EffectInstance, created: GraphView) {
    && created.links == s.graph.links
    && e.nodeId !in s.graph.nodes && e.nodeId in t.graph.nodes
    && e.inputPort !in s.graph.ports && e.outputPort !in s.graph.ports
    && created.nodes - {e.nodeId} == s.graph.nodes
    && created.ports - {e.inputPort, e.outputPort} == s.graph.ports
  }

  /** The graph after removing `e`, with `o` and `i` joined directly. */
  lemma RestoredGraph(s: DriverState, t: DriverState, e: EffectInstance, created: GraphView, original: LinkId,
                      o: PortId, i: PortId, g: GraphView)
    requires LinksJoin(s.graph) && AddsEffect(s, t, e, created) && t.nextLinkId !in s.graph.links
    requires WithoutTouching(t.graph, EffectClaim(e)) == WithoutLink(created, original)
    requires RemoveAndRestore(t, e, o, i).result.Done? && g == RemoveAndRestore(t, e, o, i).state.graph
    ensures g.nodes == s.graph.nodes && g.ports == s.graph.ports
    ensures g.links == if o == e.outputPort || i == e.inputPort then s.graph.links - {original}
                       else (s.graph.links - {original})[t.nextLinkId := Link(t.nextLinkId, o, i)]
  {
    var inputs, outputs := {e.inputPort}, {e.outputPort};
    var bare := WithoutLink(created, original);
    NewPortsUntouched(s.graph, bare.links, inputs, outputs);
    CutOne(bare.links, t.nextLinkId, Link(t.nextLinkId, o, i), inputs, outputs);
    assert inputs + outputs == {e.inputPort, e.outputPort};
  }

  lemma RestoredPairs(g: SoundGraph, h: GraphView, original: LinkId, next: LinkId, output: PortId, input: PortId,
                      o: PortId, i: PortId, cut: bool)
    requires original in LinksBetween(g, output, input) && next !in g.links
    requires h.links == if cut then g.links - {original} else (g.links - {original})[next := Link(next, o, i)]
    ensures Pairs(h) == Pairs(g) <==> !cut && (o, i) == (output, input)
  {
    assert (output, input) in Pairs(g);
    RemoveLinkPairs(g, original);
    if cut {
      assert Pairs(h) == Pairs(WithoutLink(g, original));
    } else {
      PairsAfterSwap(g, original, next, o, i, h);
    }
  }

  /** Removing an effect that was just inserted, when its keys lead to `o` and `i`. */
  lemma RemoveRestores(s: SoundState, t: DriverState, e: EffectInstance, created: GraphView, original: LinkId,
                       output: PortId, input: PortId, o: PortId, i: PortId, removed: Outcome<()>)
    requires original in LinksBetween(s.graph, output, input) && t.nextLinkId == s.nextLinkId + 2
    requires AddsEffect(s, t, e, created)
    requires WithoutTouching(t.graph, EffectClaim(e)) == WithoutLink(created, original)
    requires removed == RemoveAndRestore(t, e, o, i)
    ensures SameTopology(removed.state.graph, s.graph) <==> (o, i) == (output, input)
    ensures (o, i) == (output, input) ==> removed.result.Done?
  {
    JoinedPortsExist(s.graph, original);
    if (o, i) == (output, input) {
      DirectLinkFitsAgain(s, output, input, original, WithoutLink(created, original), t.nextLinkId);
    }
    if removed.result.Done? {
      RestoredGraph(s, t, e, created, original, o, i, removed.state.graph);
      RestoredPairs(s.graph, removed.state.graph, original, t.nextLinkId, output, input, o, i,
                    o == e.outputPort || i == e.inputPort);
    }
  }

  lemma CreatedDiffers(s: DriverState, request: EffectRequest, preparation: Preparation, created: Outcome<EffectInstance>)
    requires created == CreateOutcome(s, request, preparation) && created.result.Done?
    ensures AddsEffect(s, created.state, created.result.value, created.state.graph)
    ensures request.instanceId !in s.effects && created.result.value.instanceId == request.instanceId
  {
    var e, id := created.result.value, s.nextEffectId;
    var grown := created.state.graph;
    AddThenDrop(s.graph.nodes, id, grown.nodes[id], id, grown.nodes[id]);
    AddThenDrop(s.graph.ports, id + 1, EffectInput(id), id + 2, EffectOutput(id));
  }

  lemma InsertedState(s: SoundState, request: EffectRequest, preparation: Preparation, source: PortKey,
                      destination: PortKey, output: PortId, input: PortId, original: LinkId,
                      created: Outcome<EffectInstance>, done: Outcome<EffectInstance>)
    requires output in s.graph.ports && original in LinksBetween(s.graph, output, input)
    requires created == CreateOutcome(s, request, preparation)
    requires done == InsertBetween(s, request, preparation, source, destination, output, input, original)
    requires done.result.Done?
    ensures created.result.Done?
    ensures forall p :: p in s.graph.ports ==> p in done.state.graph.ports && done.state.graph.ports[p] == s.graph.ports[p]
    ensures AddsEffect(s, done.state, done.result.value, created.state.graph)
    ensures done.state.nextLinkId == s.nextLinkId + 2
    ensures WithoutTouching(done.state.graph, EffectClaim(done.result.value)) == WithoutLink(created.state.graph, original)
  {
    InsertedShape(s, request, preparation, source, destination, output, input, original, created, done);
    CreatedDiffers(s, request, preparation, created);
    CreatedPorts(s, request, preparation, created, created.state.graph, created.result.value);
    InsertedCut(s, request, preparation, output, input, original, created, done.state.graph);
  }

  /** Cutting the inserted effect off again leaves what its creation and the cut of the link left. */
  lemma InsertedCut(s: SoundState, request: EffectRequest, preparation: Preparation, output: PortId, input: PortId,
                    original: LinkId, created: Outcome<EffectInstance>, g: GraphView)
    requires output in s.graph.ports && original in LinksBetween(s.graph, output, input)
    requires created == CreateOutcome(s, request, preparation) && created.result.Done?
    requires g == Rerouted(created.state.graph, original, s.nextLinkId, output, input, created.result.value)
    ensures WithoutTouching(g, EffectClaim(created.result.value)) == WithoutLink(created.state.graph, original)
  {
    CreateKeepsInv(s, request, preparation, created);
    var d := Detour(created.state.graph, created.result.value, original, output, input, s.nextLinkId);
    CreatedIsReady(s, request, preparation, created, d);
    CutReroute(d);
  }

  lemma InsertedRegistry(s: DriverState, request: EffectRequest, preparation: Preparation, source: PortKey,
                         destination: PortKey, output: PortId, input: PortId, original: LinkId,
                         done: Outcome<EffectInstance>)
    requires output in s.graph.ports && done.result.Done?
    requires done == InsertBetween(s, request, preparation, source, destination, output, input, original)
    ensures var t, e := done.state, done.result.value;
      && e.source == Some(source) && e.destination == Some(destination) && e.instanceId == request.instanceId
      && request.instanceId in t.effects && t.effects[request.instanceId] == e
      && t.effects - {request.instanceId} == s.effects
      && (request.instanceId !in s.processors ==> t.processors - {request.instanceId} == s.processors)
  {
  }

  /** Both keys resolve in `h` as they did in `g`. */
  predicate StillLead(g: GraphView, h: GraphView, source: PortKey, destination: PortKey) {
    && ResolvePortKey(h, source) == ResolvePortKey(g, source)
    && ResolvePortKey(h, destination) == ResolvePortKey(g, destination)
  }

  /** Restoring finds the original pair exactly when both keys still resolve as they did. */
  lemma StillResolves(g: GraphView, h: GraphView, source: PortKey, destination: PortKey, output: PortId, input: PortId,
                      original: LinkId, ends: DriverResult<(PortId, PortId)>)
    requires LinksJoin(g) && LinkEndpoints(g, source, destination) == Done((output, input, original))
    requires forall p :: p in g.ports ==> p in h.ports && h.ports[p] == g.ports[p]
    requires ends == RestoreEndpoints(h, source, destination)
    ensures ends == Done((output, input)) <==> StillLead(g, h, source, destination)
  {
    JoinedPortsExist(g, original);
  }

  lemma RemovedRegistry(t: DriverState, e: EffectInstance, removed: Outcome<()>)
    requires e.instanceId in t.effects && t.effects[e.instanceId] == e
    requires removed == RemoveOutcome(t, e.instanceId) && removed.result.Done?
    ensures removed.state.effects == t.effects - {e.instanceId}
    ensures removed.state.processors == t.processors - {e.instanceId}
  {
  }

  lemma RemovedGraph(t: DriverState, e: EffectInstance, source: PortKey, destination: PortKey,
                     ends: DriverResult<(PortId, PortId)>, removed: Outcome<()>)
    requires e.instanceId in t.effects && t.effects[e.instanceId] == e
    requires e.source == Some(source) && e.destination == Some(destination)
    requires ends == RestoreEndpoints(t.graph, source, destination) && removed == RemoveOutcome(t, e.instanceId)
    ensures ends.Done? ==> removed == RemoveAndRestore(t, e, ends.value.0, ends.value.1)
    ensures ends.Refused? ==> removed.state == t
  {
  }

  // When a key keeps its meaning.

  /** The score a port of a new node would get, judged before anything is added. */
  function NewcomerScore(g: GraphView, node: Node, port: Port, selector: Selector): Option<nat> {
    Candidate(WithNode(g, node), port, selector)
  }

  /** The newcomer is no candidate that reaches the best score there is now. */
  predicate Outranked(g: GraphView, node: Node, port: Port, selector: Selector) {
    match NewcomerScore(g, node, port, selector)
    case None => true
    case Some(score) => score < TopScore(g, selector)
  }

  /** Neither port of the effect about to be made can compete for the key. */
  predicate Undisturbed(s: DriverState, request: EffectRequest, processor: Processor, key: PortKey) {
    var id := s.nextEffectId;
    var node := EffectNode(id, request, processor);
    && Outranked(s.graph, node, EffectInput(id), key.ToSelector())
    && Outranked(s.graph, node, EffectOutput(id), key.ToSelector())
  }

  /** `h` is `g` with one more node, up to its port list, and its two ports; links may differ. */
  ghost predicate Joined(g: GraphView, h: GraphView, node: Node, p: Port, q: Port) {
    && (forall n :: n in g.nodes ==> n in h.nodes && h.nodes[n] == g.nodes[n])
    && node.id in h.nodes && SameButId(node, h.nodes[node.id])
    && p.nodeId == q.nodeId == node.id
    && h.ports == g.ports[p.id := p][q.id := q] && p.id !in g.ports && q.id !in g.ports && p.id != q.id
  }

  lemma OldCandidate(g: GraphView, h: GraphView, node: Node, p: Port, q: Port, selector: Selector, x: PortId)
    requires WellFormed(g) && Joined(g, h, node, p, q) && x in g.ports
    ensures Candidate(h, h.ports[x], selector) == Candidate(g, g.ports[x], selector)
  {
    var n := g.ports[x].nodeId;
    assert n in g.nodes && h.nodes[n] == g.nodes[n];
  }

  lemma NewCandidate(g: GraphView, h: GraphView, node: Node, p: Port, q: Port, selector: Selector, x: Port)
    requires Joined(g, h, node, p, q) && (x == p || x == q)
    ensures Candidate(h, x, selector) == NewcomerScore(g, node, x, selector)
  {
    SameNodeSameCandidate(WithNode(g, node), h, x, x, selector);
  }

  /** A key resolves to a port exactly when that port alone has the best score. */
  lemma ResolvedIsOnlyTop(g: GraphView, selector: Selector, x: PortId)
    requires Keyed(g)
    ensures ResolveEndpoint(g, selector).Resolved() == Some(x) <==> TopPorts(g, selector) == {x}
  {
    ResolutionIsTopSet(g, selector);
    var r := ResolveEndpoint(g, selector);
    if r.Ambiguous? {
      assert r.ports[0] != r.ports[1];
      assert r.ports[0] in TopPorts(g, selector) && r.ports[1] in TopPorts(g, selector);
    }
  }

  lemma OnlyTopIsHighest(g: GraphView, selector: Selector, x: PortId)
    requires Keyed(g) && TopPorts(g, selector) == {x}
    ensures IsCandidate(g, selector, x, TopScore(g, selector))
    ensures forall y, score: nat :: IsCandidate(g, selector, y, score) && y != x ==> score < TopScore(g, selector)
  {
    BestHolds(g, selector, x);
    var top := TopScore(g, selector);
    assert IsTop(g, selector, x);
    forall y, score: nat | IsCandidate(g, selector, y, score) && y != x
      ensures score < top
    {
      assert !IsTop(g, selector, y) by {
        assert y !in TopPorts(g, selector);
      }
    }
  }

  lemma HighestIsOnlyTop(g: GraphView, selector: Selector, x: PortId, top: nat)
    requires IsCandidate(g, selector, x, top)
    requires forall y, score: nat :: IsCandidate(g, selector, y, score) && y != x ==> score < top
    ensures TopPorts(g, selector) == {x}
  {
    assert IsTop(g, selector, x);
    forall y | y in TopPorts(g, selector)
      ensures y == x
    {
      var score: nat :| IsCandidate(g, selector, y, score)
        && forall q, other: nat :: IsCandidate(g, selector, q, other) ==> other <= score;
    }
  }

  /** With the newcomers outranked the old best port stays the only one. */
  lemma TopStays(g: GraphView, h: GraphView, node: Node, p: Port, q: Port, selector: Selector, x: PortId)
    requires WellFormed(g) && Joined(g, h, node, p, q) && TopPorts(g, selector) == {x}
    requires Outranked(g, node, p, selector) && Outranked(g, node, q, selector)
    ensures TopPorts(h, selector) == {x}
  {
    var top := TopScore(g, selector);
    OnlyTopIsHighest(g, selector, x);
    OldCandidate(g, h, node, p, q, selector, x);
    forall y, score: nat | IsCandidate(h, selector, y, score) && y != x
      ensures score < top
    {
      if y in g.ports {
        OldCandidate(g, h, node, p, q, selector, y);
        assert IsCandidate(g, selector, y, score);
      } else {
        NewCandidate(g, h, node, p, q, selector, h.ports[y]);
      }
    }
    HighestIsOnlyTop(h, selector, x, top);
  }

  /** A newcomer that reaches the best score takes part in the tie or wins. */
  lemma TopMoves(g: GraphView, h: GraphView, node: Node, p: Port, q: Port, selector: Selector, x: PortId, newcomer: Port)
    requires WellFormed(g) && Keyed(h) && Joined(g, h, node, p, q) && TopPorts(g, selector) == {x}
    requires (newcomer == p || newcomer == q) && !Outranked(g, node, newcomer, selector)
    ensures TopPorts(h, selector) != {x}
  {
    OnlyTopIsHighest(g, selector, x);
    OldCandidate(g, h, node, p, q, selector, x);
    NewCandidate(g, h, node, p, q, selector, newcomer);
    var score := NewcomerScore(g, node, newcomer, selector).value;
    assert IsCandidate(h, selector, newcomer.id, score);
    if TopPorts(h, selector) == {x} {
      OnlyTopIsHighest(h, selector, x);
    }
  }

  /** A key that resolved to `x` still does exactly when neither newcomer reaches its score. */
  lemma KeepsMeaning(g: GraphView, h: GraphView, node: Node, p: Port, q: Port, key: PortKey, x: PortId)
    requires WellFormed(g) && Keyed(h) && Joined(g, h, node, p, q) && ResolvePortKey(g, key) == Some(x)
    ensures ResolvePortKey(h, key) == Some(x)
       <==> Outranked(g, node, p, key.ToSelector()) && Outranked(g, node, q, key.ToSelector())
  {
    var selector := key.ToSelector();
    ResolvedIsOnlyTop(g, selector, x);
    ResolvedIsOnlyTop(h, selector, x);
    if Outranked(g, node, p, selector) && Outranked(g, node, q, selector) {
      TopStays(g, h, node, p, q, selector, x);
    } else {
      TopMoves(g, h, node, p, q, selector, x, if Outranked(g, node, p, selector) then q else p);
    }
  }

  /** The graph after an insertion is the old one with the effect's node and ports. */
  lemma InsertedJoins(s: DriverState, request: EffectRequest, preparation: Preparation, source: PortKey,
                      destination: PortKey, output: PortId, input: PortId, original: LinkId, done: Outcome<EffectInstance>)
    requires output in s.graph.ports && original in LinksBetween(s.graph, output, input)
    requires done == InsertBetween(s, request, preparation, source, destination, output, input, original)
    requires done.result.Done?
    ensures preparation.Prepared?
    ensures var id := s.nextEffectId;
      Joined(s.graph, done.state.graph, EffectNode(id, request, preparation.processor), EffectInput(id), EffectOutput(id))
  {
    var created := CreateOutcome(s, request, preparation);
    InsertedShape(s, request, preparation, source, destination, output, input, original, created, done);
    CreatedJoins(s, request, preparation.processor, created.state.graph);
    LinksDoNotMatter(s.graph, created.state.graph, done.state.graph, s.nextEffectId, request, preparation.processor);
  }

  lemma InvKeyed(s: SoundState)
    ensures WellFormed(s.graph) && Keyed(s.graph)
  {
  }

  lemma CreatedJoins(s: DriverState, request: EffectRequest, processor: Processor, g: GraphView)
    requires IdProblem(s.graph, s.nextEffectId, s.nextEffectId + 1, Some(s.nextEffectId + 2)).None?
    requires g == WithEffect(s, request, processor).graph
    ensures Joined(s.graph, g, EffectNode(s.nextEffectId, request, processor), EffectInput(s.nextEffectId),
                   EffectOutput(s.nextEffectId))
  {
  }

  lemma LinksDoNotMatter(g: GraphView, h: GraphView, k: GraphView, id: NodeId, request: EffectRequest, processor: Processor)
    requires Joined(g, h, EffectNode(id, request, processor), EffectInput(id), EffectOutput(id))
    requires k.nodes == h.nodes && k.ports == h.ports
    ensures Joined(g, k, EffectNode(id, request, processor), EffectInput(id), EffectOutput(id))
  {
  }

  /**
  Inserting an effect and removing it again restores the nodes, the ports and the set of connected
  pairs exactly when, judged before the insertion, neither port of the new effect reaches the score with
  which a saved key resolves now.  Then both keys still lead to the ports they led to.
  */
  lemma InsertThenRemove(s: SoundState, request: EffectRequest, preparation: Preparation, source: PortKey,
                         destination: PortKey, done: Outcome<EffectInstance>, removed: Outcome<()>)
    requires done == InsertOutcome(s, request, preparation, source, destination) && done.result.Done?
    requires removed == RemoveOutcome(done.state, request.instanceId)
    ensures preparation.Prepared?
    ensures SameTopology(removed.state.graph, s.graph)
       <==> && Undisturbed(s, request, preparation.processor, source)
            && Undisturbed(s, request, preparation.processor, destination)
    ensures SameTopology(removed.state.graph, s.graph) <==> StillLead(s.graph, done.state.graph, source, destination)
    ensures SameTopology(removed.state.graph, s.graph) ==>
              removed.result.Done? && removed.state.effects == s.effects && removed.state.processors == s.processors
  {
    var (output, input, original) := LinkEndpoints(s.graph, source, destination).value;
    StillLeadIffUndisturbed(s, request, preparation, source, destination, output, input, original, done);
    RemovedIffStillLead(s, request, preparation, source, destination, output, input, original, done, removed);
  }

  lemma StillLeadIffUndisturbed(s: SoundState, request: EffectRequest, preparation: Preparation, source: PortKey,
                                destination: PortKey, output: PortId, input: PortId, original: LinkId,
                                done: Outcome<EffectInstance>)
    requires LinkEndpoints(s.graph, source, destination) == Done((output, input, original))
    requires done == InsertBetween(s, request, preparation, source, destination, output, input, original)
    requires done.result.Done?
    ensures preparation.Prepared?
    ensures StillLead(s.graph, done.state.graph, source, destination)
       <==> && Undisturbed(s, request, preparation.processor, source)
            && Undisturbed(s, request, preparation.processor, destination)
  {
    InsertedJoins(s, request, preparation, source, destination, output, input, original, done);
    InsertKeepsInv(s, request, preparation, source, destination, output, input, original, done);
    InvKeyed(s);
    InvKeyed(done.state);
    var id := s.nextEffectId;
    var node, p, q := EffectNode(id, request, preparation.processor), EffectInput(id), EffectOutput(id);
    KeepsMeaning(s.graph, done.state.graph, node, p, q, source, output);
    KeepsMeaning(s.graph, done.state.graph, node, p, q, destination, input);
  }

  lemma RemovedIffStillLead(s: SoundState, request: EffectRequest, preparation: Preparation, source: PortKey,
                            destination: PortKey, output: PortId, input: PortId, original: LinkId,
                            done: Outcome<EffectInstance>, removed: Outcome<()>)
    requires LinkEndpoints(s.graph, source, destination) == Done((output, input, original))
    requires done == InsertBetween(s, request, preparation, source, destination, output, input, original)
    requires done.result.Done? && removed == RemoveOutcome(done.state, request.instanceId)
    ensures StillLead(s.graph, done.state.graph, source, destination) <==> SameTopology(removed.state.graph, s.graph)
    ensures StillLead(s.graph, done.state.graph, source, destination) ==>
              removed.result.Done? && removed.state.effects == s.effects && removed.state.processors == s.processors
  {
    var t, e := done.state, done.result.value;
    var created := CreateOutcome(s, request, preparation);
    InsertedState(s, request, preparation, source, destination, output, input, original, created, done);
    InsertedRegistry(s, request, preparation, source, destination, output, input, original, done);
    var ends := RestoreEndpoints(t.graph, source, destination);
    StillResolves(s.graph, t.graph, source, destination, output, input, original, ends);
    RemovedGraph(t, e, source, destination, ends, removed);
    if ends.Done? {
      RemoveRestores(s, t, e, created.state.graph, original, output, input, ends.value.0, ends.value.1, removed);
      if removed.result.Done? {
        RemovedRegistry(t, e, removed);
      }
    }
  }

  // Removing at any later time.

  /** The connected pairs that do not involve `e`. */
  ghost function PairsWithout(g: GraphView, e: EffectInstance): set<(PortId, PortId)> {
    set pair | pair in Pairs(g) && pair.0 != e.outputPort && pair.1 != e.inputPort
  }

  /** A port of the effect itself: a link on it goes with the effect. */
  predicate IsOwn(e: EffectInstance, output: PortId, input: PortId) {
    output == e.outputPort || input == e.inputPort
  }

  lemma BareConnected(g: GraphView, e: EffectInstance, bare: GraphView, output: PortId, input: PortId)
    requires bare == WithoutTouching(g, EffectClaim(e))
    ensures Connected(bare, output, input) <==> Connected(g, output, input) && !IsOwn(e, output, input)
  {
    if Connected(g, output, input) && !IsOwn(e, output, input) {
      var l :| l in g.links && g.links[l].outputPort == output && g.links[l].inputPort == input;
      assert l in bare.links && bare.links[l] == g.links[l];
    }
    if Connected(bare, output, input) {
      var l :| l in bare.links && bare.links[l].outputPort == output && bare.links[l].inputPort == input;
      assert l in g.links && bare.links[l] == g.links[l] && !Touches(g.links[l], {e.inputPort}, {e.outputPort});
    }
  }

  lemma RejoinedPairs(g: GraphView, h: GraphView, e: EffectInstance, next: LinkId, output: PortId, input: PortId)
    requires next !in g.links
    requires h.links == var bare := Untouched(g.links, {e.inputPort}, {e.outputPort});
                        if IsOwn(e, output, input) then bare else bare[next := Link(next, output, input)]
    ensures Pairs(h) == PairsWithout(g, e) + if IsOwn(e, output, input) then {} else {(output, input)}
  {
    var pairs := PairsWithout(g, e) + if IsOwn(e, output, input) then {} else {(output, input)};
    forall pair | pair in Pairs(h)
      ensures pair in pairs
    {
      var l :| l in h.links && pair == (h.links[l].outputPort, h.links[l].inputPort);
      if l != next {
        assert l in g.links && h.links[l] == g.links[l] && !Touches(g.links[l], {e.inputPort}, {e.outputPort});
        assert pair in Pairs(g);
      }
    }
    forall pair | pair in pairs
      ensures pair in Pairs(h)
    {
      if pair in PairsWithout(g, e) {
        var l :| l in g.links && pair == (g.links[l].outputPort, g.links[l].inputPort);
        assert l in h.links && h.links[l] == g.links[l];
      } else {
        assert h.links[next] == Link(next, output, input);
      }
    }
  }

  /** The links after taking `e` out of `bare` with the new link in place. */
  lemma RejoinedLinks(g: GraphView, e: EffectInstance, next: LinkId, output: PortId, input: PortId)
    requires next !in g.links
    ensures var bare := Untouched(g.links, {e.inputPort}, {e.outputPort});
      Untouched(bare[next := Link(next, output, input)], {e.inputPort}, {e.outputPort})
      == if IsOwn(e, output, input) then bare else bare[next := Link(next, output, input)]
  {
    var bare := Untouched(g.links, {e.inputPort}, {e.outputPort});
    UntouchedAll(bare, {e.inputPort}, {e.outputPort});
    CutOne(bare, next, Link(next, output, input), {e.inputPort}, {e.outputPort});
  }

  lemma RejoinedGraph(t: DriverState, e: EffectInstance, output: PortId, input: PortId, removed: Outcome<()>)
    requires t.nextLinkId !in t.graph.links
    requires removed == RemoveAndRestore(t, e, output, input) && removed.result.Done?
    ensures Pairs(removed.state.graph)
         == PairsWithout(t.graph, e) + if IsOwn(e, output, input) then {} else {(output, input)}
    ensures removed.state.graph.ports == t.graph.ports - {e.inputPort, e.outputPort}
  {
    RejoinedLinks(t.graph, e, t.nextLinkId, output, input);
    RejoinedPairs(t.graph, removed.state.graph, e, t.nextLinkId, output, input);
    assert {e.inputPort} + {e.outputPort} == {e.inputPort, e.outputPort};
  }

  /**
  Removing an inserted effect from any later state in which its keys lead to `output` and `input`.  It
  succeeds exactly when the two ports carry the same type and are not linked directly; then the pairs of the
  effect are replaced by this one, unless the port is the effect's own, and nothing else is gone or new.
  */
  lemma RemoveLater(t: SoundState, e: EffectInstance, source: PortKey, destination: PortKey, output: PortId, input: PortId,
                    removed: Outcome<()>)
    requires e.instanceId in t.effects && t.effects[e.instanceId] == e
    requires e.source == Some(source) && e.destination == Some(destination)
    requires RestoreEndpoints(t.graph, source, destination) == Done((output, input))
    requires removed == RemoveOutcome(t, e.instanceId)
    ensures removed.result.Done?
       <==> && t.graph.ports[output].portType == t.graph.ports[input].portType
            && (IsOwn(e, output, input) || !Connected(t.graph, output, input))
    ensures removed.result.Done? ==>
              && Pairs(removed.state.graph)
                 == PairsWithout(t.graph, e) + (if IsOwn(e, output, input) then {} else {(output, input)})
              && removed.state.graph.nodes == t.graph.nodes - {e.nodeId}
              && removed.state.graph.ports == t.graph.ports - {e.inputPort, e.outputPort}
              && removed.state.effects == t.effects - {e.instanceId}
    ensures removed.result.Refused? ==> removed.state.graph == t.graph && removed.state.effects == t.effects
  {
    NextLinkIsNew(t);
    RemovedGraph(t, e, source, destination, Done((output, input)), removed);
    RejoinedIffFree(t, e, output, input, removed);
    if removed.result.Done? {
      RejoinedGraph(t, e, output, input, removed);
    }
  }

  lemma NextLinkIsNew(t: SoundState)
    ensures t.nextLinkId !in t.graph.links
  {
    assert LinkIdsBelow(t.graph, t.nextLinkId);
  }

  lemma RejoinedIffFree(t: DriverState, e: EffectInstance, output: PortId, input: PortId, removed: Outcome<()>)
    requires t.nextLinkId !in t.graph.links && output in t.graph.ports && input in t.graph.ports
    requires t.graph.ports[output].direction == Source && t.graph.ports[input].direction == Sink
    requires removed == RemoveAndRestore(t, e, output, input)
    ensures removed.result.Done?
       <==> && t.graph.ports[output].portType == t.graph.ports[input].portType
            && (IsOwn(e, output, input) || !Connected(t.graph, output, input))
  {
    BareConnected(t.graph, e, WithoutTouching(t.graph, EffectClaim(e)), output, input);
  }

  /** A key that names a kind of node other than an effect. */
  predicate NamesOtherKind(key: PortKey) {
    !key.nodeType.Effect? && !key.nodeType.UnknownNode?
  }

  lemma OtherKindsUndisturbed(s: DriverState, request: EffectRequest, processor: Processor, key: PortKey)
    requires NamesOtherKind(key)
    ensures Undisturbed(s, request, processor, key)
  {
  }

  /** Between keys of other kinds, inserting and removing an effect always restores everything. */
  lemma OtherKindsAlwaysRestore(s: SoundState, request: EffectRequest, preparation: Preparation, source: PortKey,
                                destination: PortKey, done: Outcome<EffectInstance>, removed: Outcome<()>)
    requires done == InsertOutcome(s, request, preparation, source, destination) && done.result.Done?
    requires removed == RemoveOutcome(done.state, request.instanceId)
    requires NamesOtherKind(source) && NamesOtherKind(destination)
    ensures removed.result.Done? && SameTopology(removed.state.graph, s.graph)
    ensures removed.state.effects == s.effects && removed.state.processors == s.processors
  {
    InsertThenRemove(s, request, preparation, source, destination, done, removed);
    OtherKindsUndisturbed(s, request, preparation.processor, source);
    OtherKindsUndisturbed(s, request, preparation.processor, destination);
  }

  // A key that does not keep its meaning.

  /** A key that says nothing about its node. */
  function NamelessKey(portName: string, direction: Direction): PortKey {
    PortKey("", None, UnknownNode, portName, None, direction, Audio, None, Instance)
  }

  function PlainNode(id: NodeId, name: string, port: PortId): Node {
    NewNode(id, name, PipeWire).(ports := [port])
  }

  /** A microphone with a port called "output", linked to a recorder. */
  function TwoNodes(): GraphView {
    GraphView(map[1 := PlainNode(1, "mic", 10), 2 := PlainNode(2, "recorder", 20)],
              map[10 := Port(10, 1, "output", None, Source, Audio), 20 := Port(20, 2, "in", None, Sink, Audio)],
              map[1 := Link(1, 10, 20)])
  }

  lemma TwoNodesListed(g: GraphView)
    requires g == TwoNodes()
    ensures Keyed(g) && PortsListed(g)
  {
    assert g.nodes[1].ports == [10] && g.nodes[2].ports == [20];
  }

  lemma TwoNodesJoined(g: GraphView)
    requires g == TwoNodes()
    ensures LinksJoin(g)
  {
  }

  /** A port called "output" and a sink port called "in". */
  ghost predicate OnlyPorts(g: GraphView, o: PortId, i: PortId) {
    && o != i && g.ports.Keys == {o, i}
    && g.ports[o].name == "output" && g.ports[o].direction == Source && g.ports[o].portType == Audio
    && g.ports[i].name == "in" && g.ports[i].direction == Sink && g.ports[i].portType == Audio
    && g.ports[o].nodeId in g.nodes && g.ports[i].nodeId in g.nodes
  }

  /** The only port of that name answers a nameless key, with 100 points. */
  lemma NamelessResolves(g: GraphView, x: PortId, key: PortKey)
    requires Keyed(g) && x in g.ports && g.ports[x].nodeId in g.nodes && g.ports[x].portType == Audio
    requires key == NamelessKey(g.ports[x].name, g.ports[x].direction)
    requires g.ports[x].name != "FL" && g.ports[x].name != "FR"
    requires forall y :: y in g.ports && y != x ==> g.ports[y].name != g.ports[x].name
    ensures ResolvePortKey(g, key) == Some(x) && TopScore(g, key.ToSelector()) == 100
  {
    var selector := key.ToSelector();
    assert IsCandidate(g, selector, x, 100);
    HighestIsOnlyTop(g, selector, x, 100);
    ResolvedIsOnlyTop(g, selector, x);
    OnlyTopIsHighest(g, selector, x);
  }

  lemma NamelessEnds(g: GraphView, o: PortId, i: PortId, l: LinkId, source: PortKey, destination: PortKey)
    requires Keyed(g) && OnlyPorts(g, o, i) && l in LinksBetween(g, o, i)
    requires source == NamelessKey("output", Source) && destination == NamelessKey("in", Sink)
    ensures LinkEndpoints(g, source, destination).Done? && LinkEndpoints(g, source, destination).value.0 == o
    ensures TopScore(g, source.ToSelector()) == 100
  {
    NamelessResolves(g, o, source);
    NamelessResolves(g, i, destination);
  }

  lemma NamelessTies(s: DriverState, request: EffectRequest, processor: Processor, source: PortKey)
    requires source == NamelessKey("output", Source) && TopScore(s.graph, source.ToSelector()) == 100
    ensures !Undisturbed(s, request, processor, source)
  {
    var node := EffectNode(s.nextEffectId, request, processor);
    assert NewcomerScore(s.graph, node, EffectOutput(s.nextEffectId), source.ToSelector()) == Some(100);
  }

  lemma NamelessInserts(s: DriverState, request: EffectRequest, processor: Processor, source: PortKey, destination: PortKey,
                        o: PortId)
    requires processor.descriptorId == request.effectId && request.instanceId !in s.effects
    requires IdProblem(s.graph, s.nextEffectId, s.nextEffectId + 1, Some(s.nextEffectId + 2)).None?
    requires LinkEndpoints(s.graph, source, destination).Done? && LinkEndpoints(s.graph, source, destination).value.0 == o
    requires o in s.graph.ports && s.graph.ports[o].portType == Audio
    ensures InsertOutcome(s, request, Prepared(processor), source, destination).result.Done?
  {
  }

  lemma NamelessBreaks(s: SoundState, request: EffectRequest, processor: Processor, o: PortId, i: PortId, l: LinkId,
                       done: Outcome<EffectInstance>)
    requires processor.descriptorId == request.effectId && request.instanceId !in s.effects
    requires IdProblem(s.graph, s.nextEffectId, s.nextEffectId + 1, Some(s.nextEffectId + 2)).None?
    requires OnlyPorts(s.graph, o, i) && l in LinksBetween(s.graph, o, i)
    requires done == InsertOutcome(s, request, Prepared(processor), NamelessKey("output", Source), NamelessKey("in", Sink))
    ensures done.result.Done?
    ensures !SameTopology(RemoveOutcome(done.state, request.instanceId).state.graph, s.graph)
  {
    var source, destination := NamelessKey("output", Source), NamelessKey("in", Sink);
    InvKeyed(s);
    NamelessEnds(s.graph, o, i, l, source, destination);
    NamelessInserts(s, request, processor, source, destination, o);
    NamelessTies(s, request, processor, source);
    InsertThenRemove(s, request, Prepared(processor), source, destination, done,
                     RemoveOutcome(done.state, request.instanceId));
  }

  function FreshState(g: GraphView): DriverState {
    DriverState(g, 2, 1000, map[], map[], map[], 1, map[], None)
  }

  lemma TwoNodesEnds(g: GraphView)
    requires g == TwoNodes()
    ensures OnlyPorts(g, 10, 20) && 1 in LinksBetween(g, 10, 20) && LinkIdsBelow(g, 2)
    ensures IdProblem(g, 1000, 1001, Some(1002)).None?
  {
  }

  lemma FreshIsSound(g: SoundGraph) returns (s: SoundState)
    requires LinkIdsBelow(g, 2)
    ensures s == FreshState(g)
  {
    InitialInv(g, 2, FreshState(g));
    s := FreshState(g);
  }

  lemma MicAndRecorder() returns (s: SoundState)
    ensures s == FreshState(TwoNodes()) && OnlyPorts(s.graph, 10, 20) && 1 in LinksBetween(s.graph, 10, 20)
    ensures IdProblem(s.graph, s.nextEffectId, s.nextEffectId + 1, Some(s.nextEffectId + 2)).None? && s.effects == map[]
  {
    var g := TwoNodes();
    TwoNodesListed(g);
    TwoNodesJoined(g);
    TwoNodesEnds(g);
    s := FreshIsSound(g);
  }

  /**
  Joined by nameless keys, an effect inserted behind a port called "output" has a port of that name itself.
  The two tie at 100 points, the source no longer resolves, and the removal does not restore the link.
  */
  lemma NamelessKeyIsDisturbed(request: EffectRequest, processor: Processor)
    returns (s: SoundState, done: Outcome<EffectInstance>, removed: Outcome<()>)
    requires processor.descriptorId == request.effectId
    ensures s == FreshState(TwoNodes())
    ensures done == InsertOutcome(s, request, Prepared(processor), NamelessKey("output", Source), NamelessKey("in", Sink))
    ensures removed == RemoveOutcome(done.state, request.instanceId)
    ensures done.result.Done? && !SameTopology(removed.state.graph, s.graph)
  {
    s := MicAndRecorder();
    done := InsertOutcome(s, request, Prepared(processor), NamelessKey("output", Source), NamelessKey("in", Sink));
    removed := RemoveOutcome(done.state, request.instanceId);
    NamelessBreaks(s, request, processor, 10, 20, 1, done);
  }
}
