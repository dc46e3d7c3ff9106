/** The in-memory driver: graph edits step by step, with the rollback the source performs. */
module DemoDrivers {
  import opened GraphTypes
  import opened GraphStore
  import opened EndpointResolver
  import opened OwnedNodes
  import opened DriverStates

  /** `removed` lists exactly the links of `before` that touch the ports, each once. */
  ghost predicate IsCut(before: map<LinkId, Link>, removed: seq<Link>, inputs: set<PortId>, outputs: set<PortId>) {
    && (forall l :: l in before && Touches(before[l], inputs, outputs) ==> before[l] in removed && before[l].id == l)
    && (forall k :: k in removed ==> k.id in before && before[k.id] == k && Touches(k, inputs, outputs))
    && (forall i, j :: 0 <= i < j < |removed| ==> removed[i].id != removed[j].id)
  }

  function TouchingIds(links: map<LinkId, Link>, inputs: set<PortId>, outputs: set<PortId>): set<LinkId> {
    set l | l in links && Touches(links[l], inputs, outputs)
  }

  /** One more than the highest link id. */
  function FirstLinkId(links: map<LinkId, Link>): nat {
    var order := Ascending(links.Keys);
    if order == [] then 1 else order[|order| - 1] + 1
  }

  lemma FirstLinkIdIsFree(links: map<LinkId, Link>)
    ensures forall l :: l in links ==> l < FirstLinkId(links)
  {
    var order := Ascending(links.Keys);
    AscendingHas(links.Keys);
    AscendingIncreases(links.Keys);
    forall l | l in links
      ensures l < FirstLinkId(links)
    {
      assert l in order;
      var i :| 0 <= i < |order| && order[i] == l;
      assert i < |order| - 1 ==> order[i] < order[|order| - 1];
    }
  }

  /** What reinserting has put back after `done` links. */
  ghost predicate PutBack(before: map<LinkId, Link>, links: map<LinkId, Link>, removed: seq<Link>, done: int,
                          inputs: set<PortId>, outputs: set<PortId>)
  {
    && (forall l :: l in links ==> l in before && links[l] == before[l])
    && (forall l :: l in before && !Touches(before[l], inputs, outputs) ==> l in links)
    && (forall j :: 0 <= j < |removed| ==> (removed[j].id in links <==> j < done))
  }

  lemma PutBackOne(before: map<LinkId, Link>, links: map<LinkId, Link>, removed: seq<Link>, done: nat,
                   inputs: set<PortId>, outputs: set<PortId>)
    requires IsCut(before, removed, inputs, outputs) && PutBack(before, links, removed, done, inputs, outputs)
    requires done < |removed|
    ensures PutBack(before, links[removed[done].id := removed[done]], removed, done + 1, inputs, outputs)
  {
    assert removed[done] in removed;
  }

  lemma PutBackAll(before: map<LinkId, Link>, links: map<LinkId, Link>, removed: seq<Link>,
                   inputs: set<PortId>, outputs: set<PortId>)
    requires IsCut(before, removed, inputs, outputs) && PutBack(before, links, removed, |removed|, inputs, outputs)
    ensures links == before
  {
    forall l | l in before
      ensures l in links
    {
      if Touches(before[l], inputs, outputs) {
        assert before[l] in removed;
        var j :| 0 <= j < |removed| && removed[j] == before[l];
        assert removed[j].id == l;
      }
    }
  }

  lemma CutIsExact(before: map<LinkId, Link>, ids: seq<LinkId>, removed: seq<Link>, inputs: set<PortId>, outputs: set<PortId>)
    requires forall l :: l in before ==> before[l].id == l
    requires forall l :: l in ids <==> l in TouchingIds(before, inputs, outputs)
    requires forall i, j :: 0 <= i < j < |ids| ==> ids[i] < ids[j]
    requires |removed| == |ids| && forall i :: 0 <= i < |ids| ==> ids[i] in before && removed[i] == before[ids[i]]
    ensures IsCut(before, removed, inputs, outputs)
    ensures (map l | l in before && l !in ids :: before[l]) == Untouched(before, inputs, outputs)
  {
    forall l | l in before && Touches(before[l], inputs, outputs)
      ensures before[l] in removed
    {
      assert l in ids;
      var i :| 0 <= i < |ids| && ids[i] == l;
      assert removed[i] == before[l];
    }
    forall k | k in removed
      ensures k.id in before && before[k.id] == k && Touches(k, inputs, outputs)
    {
      var i :| 0 <= i < |removed| && removed[i] == k;
      assert ids[i] in ids;
    }
  }

  /** No number from `from` up to `id` is free, and `id` is. */
  ghost predicate FirstFree(g: GraphView, from: nat, id: nat) {
    && from <= id && id !in g.nodes
    && forall k :: from <= k < id ==> k in g.nodes
  }

  ghost function UsedFrom(used: set<NodeId>, id: NodeId): set<NodeId> {
    set k | k in used && k >= id
  }

  class DemoDriver {
    const graph: Graph
    var nextLinkId: nat
    var nextEffectId: nat
    var effects: map<string, EffectInstance>
    var processors: map<string, Processor>
    var recorders: map<nat, DemoRecorder>
    var nextRecorderId: nat
    var filters: map<string, VideoFilter>
    var capture: Option<Capture>

    function State(): DriverState
      reads this, graph
    {
      DriverState(graph.View(), nextLinkId, nextEffectId, effects, processors, recorders, nextRecorderId, filters, capture)
    }

    constructor (g: GraphView)
      requires WellFormed(g)
      ensures Inv(State()) && fresh(graph)
      ensures State() == DriverState(g, FirstLinkId(g.links), 1000, map[], map[], map[], 1, map[], None)
    {
      graph := new Graph.From(g);
      nextLinkId := FirstLinkId(g.links);
      nextEffectId, nextRecorderId := 1000, 1;
      effects, processors, recorders, filters, capture := map[], map[], map[], map[], None;
      new;
      FirstLinkIdIsFree(g.links);
      InitialInv(g, nextLinkId, State());
    }

    method Connect(source: PortId, destination: PortId) returns (result: DriverResult<Link>)
      requires Inv(State())
      modifies this`nextLinkId, graph`links
      ensures Inv(State())
      ensures result == match LinkProblem(old(graph.View()), old(nextLinkId), source, destination)
                        case Some(error) => Refused(GraphFailure(error))
                        case None => Done(Link(old(nextLinkId), source, destination))
      ensures State() == old(State()).(
                nextLinkId := old(nextLinkId) + 1,
                graph := if result.Done? then WithLink(old(graph.View()), result.value) else old(graph.View()))
    {
      ghost var before := State();
      var link := nextLinkId;
      nextLinkId := nextLinkId + 1;
      var added := graph.AddLink(link, source, destination);
      if added.Failure? {
        CountersKeepInv(before, State());
        return Refused(GraphFailure(added.error));
      }
      AddLinkKeeps(before.graph, link, source, destination);
      RelinkedKeepsInv(before, State());
      result := Done(added.value);
    }

    method Disconnect(link: LinkId) returns (result: DriverResult<Link>)
      requires Inv(State())
      modifies graph`links
      ensures Inv(State())
      ensures result == if link in old(graph.links) then Done(old(graph.links)[link])
                        else Refused(GraphFailure(MissingLink(link)))
      ensures State() == old(State()).(graph := WithoutLink(old(graph.View()), link))
    {
      ghost var before := State();
      var removed := graph.RemoveLink(link);
      RemoveLinkKeeps(before.graph, link);
      RelinkedKeepsInv(before, State());
      result := if removed.Success? then Done(removed.value) else Refused(GraphFailure(removed.error));
    }

    /** Add a node and its ports; a duplicate id takes back what was already added. */
    method AddOwned(node: Node, p: Port, q: Option<Port>) returns (problem: Option<GraphError>)
      requires Belong(node, p, q) && (q.Some? ==> q.value.id != p.id)
      modifies graph
      ensures problem == IdProblem(old(graph.View()), node.id, p.id, PortOption(q))
      ensures graph.View() == if problem.None? then Grown(old(graph.View()), node, p, q) else old(graph.View())
    {
      ghost var before := graph.View();
      var added := graph.AddNode(node);
      if added.Failure? {
        return Some(added.error);
      }
      added := graph.AddPort(p);
      if added.Failure? {
        graph.nodes := graph.nodes - {node.id};
        return Some(added.error);
      }
      FirstPort(before, node, p);
      if q.Some? {
        problem := AddSecond(node, p, q.value, before);
      } else {
        problem := None;
      }
    }

    method AddSecond(node: Node, p: Port, q: Port, ghost before: GraphView) returns (problem: Option<GraphError>)
      requires Belong(node, p, Some(q)) && q.id != p.id && Fits(before, node, p, None)
      requires graph.View() == Grown(before, node, p, None)
      modifies graph
      ensures problem == if q.id in before.ports then Some(DuplicatePort(q.id)) else None
      ensures graph.View() == if problem.None? then Grown(before, node, p, Some(q)) else before
    {
      var added := graph.AddPort(q);
      if added.Failure? {
        AddThenDrop(before.nodes, node.id, graph.nodes[node.id], node.id, node);
        AddThenDrop(before.ports, p.id, p, p.id, p);
        graph.ports := graph.ports - {p.id};
        graph.nodes := graph.nodes - {node.id};
        return Some(added.error);
      }
      SecondPort(before, node, p, q);
      problem := None;
    }

    // Effects.

    method CreateEffectNode(request: EffectRequest, preparation: Preparation) returns (result: DriverResult<EffectInstance>)
      requires Inv(State())
      modifies this`nextEffectId, this`effects, this`processors, graph
      ensures Outcome(State(), result) == CreateOutcome(old(State()), request, preparation)
      ensures Inv(State())
      ensures result.Refused? ==> OnlyCountersMoved(old(State()), State())
    {
      ghost var before := State();
      result := CheckAndBuild(request, preparation);
      CreateKeepsInv(before, request, preparation, Outcome(State(), result));
    }

    method CheckAndBuild(request: EffectRequest, preparation: Preparation) returns (result: DriverResult<EffectInstance>)
      modifies this`nextEffectId, this`effects, this`processors, graph
      ensures Outcome(State(), result) == CreateOutcome(old(State()), request, preparation)
    {
      if request.instanceId in effects {
        return Refused(EffectAlreadyExists);
      }
      if preparation.Unprepared? {
        return Refused(PreparationFailed);
      }
      if preparation.processor.descriptorId != request.effectId {
        return Refused(PreparedForAnother);
      }
      result := BuildEffectNode(request, preparation.processor);
    }

    method BuildEffectNode(request: EffectRequest, processor: Processor) returns (result: DriverResult<EffectInstance>)
      modifies this`nextEffectId, this`effects, this`processors, graph
      ensures
        var id := old(nextEffectId);
        match IdProblem(old(graph.View()), id, id + 1, Some(id + 2))
        case Some(error) => result == Refused(GraphFailure(error)) && State() == old(State()).(nextEffectId := id + 3)
        case None => result == Done(NewInstance(id, request)) && State() == WithEffect(old(State()), request, processor)
    {
      var id := nextEffectId;
      nextEffectId := nextEffectId + 3;
      var problem := AddOwned(EffectNode(id, request, processor), EffectInput(id), Some(EffectOutput(id)));
      if problem.Some? {
        return Refused(GraphFailure(problem.value));
      }
      var instance := NewInstance(id, request);
      effects := effects[request.instanceId := instance];
      processors := processors[request.instanceId := processor];
      result := Done(instance);
    }

    /** Remove every link that touches the ports, one at a time. */
    method CutLinks(inputs: set<PortId>, outputs: set<PortId>) returns (removed: seq<Link>)
      requires Keyed(graph.View())
      modifies graph`links
      ensures graph.links == Untouched(old(graph.links), inputs, outputs)
      ensures IsCut(old(graph.links), removed, inputs, outputs)
    {
      var ids := Ascending(TouchingIds(graph.links, inputs, outputs));
      AscendingHas(TouchingIds(graph.links, inputs, outputs));
      AscendingIncreases(TouchingIds(graph.links, inputs, outputs));
      ghost var before := graph.links;
      removed := CutAll(ids);
      CutIsExact(before, ids, removed, inputs, outputs);
    }

    method CutAll(ids: seq<LinkId>) returns (removed: seq<Link>)
      requires forall l :: l in ids ==> l in graph.links
      requires forall i, j :: 0 <= i < j < |ids| ==> ids[i] < ids[j]
      modifies graph`links
      ensures |removed| == |ids| && forall i :: 0 <= i < |ids| ==> removed[i] == old(graph.links)[ids[i]]
      ensures graph.links == map l | l in old(graph.links) && l !in ids :: old(graph.links)[l]
    {
      removed := [];
      for i := 0 to |ids|
        invariant |removed| == i && forall j :: 0 <= j < i ==> removed[j] == old(graph.links)[ids[j]]
        invariant graph.links == map l | l in old(graph.links) && l !in ids[..i] :: old(graph.links)[l]
      {
        assert ids[i] in ids && ids[..i + 1] == ids[..i] + [ids[i]] && ids[i] !in ids[..i];
        var link := graph.RemoveLink(ids[i]);
        removed := removed + [link.value];
      }
      assert ids[..|ids|] == ids;
    }

    /** Put cut links back under their own ids. */
    method ReinsertLinks(removed: seq<Link>, ghost before: GraphView, ghost inputs: set<PortId>, ghost outputs: set<PortId>)
      requires LinksJoin(before) && graph.View() == before.(links := Untouched(before.links, inputs, outputs))
      requires IsCut(before.links, removed, inputs, outputs)
      modifies graph`links
      ensures graph.View() == before
    {
      assert PutBack(before.links, graph.links, removed, 0, inputs, outputs) by {
        forall j | 0 <= j < |removed|
          ensures removed[j].id !in graph.links
        {
          assert removed[j] in removed;
        }
      }
      for i := 0 to |removed|
        invariant PutBack(before.links, graph.links, removed, i, inputs, outputs)
      {
        assert removed[i] in removed;
        JoinedPortsExist(before, removed[i].id);
        PutBackOne(before.links, graph.links, removed, i, inputs, outputs);
        var inserted := graph.InsertExistingLink(removed[i]);
      }
      PutBackAll(before.links, graph.links, removed, inputs, outputs);
    }

    /** Take out an effect with its node, ports and links; its neighbours stay unconnected. */
    method RemoveEffectNode(e: EffectInstance)
      requires Keyed(graph.View())
      modifies this`effects, this`processors, graph
      ensures State() == Dropped(old(State()), e)
    {
      ghost var before := graph.View();
      var removed := CutLinks({e.inputPort}, {e.outputPort});
      assert graph.ports - {e.inputPort} - {e.outputPort} == before.ports - ({e.inputPort} + {e.outputPort});
      graph.ports := graph.ports - {e.inputPort};
      graph.ports := graph.ports - {e.outputPort};
      graph.nodes := graph.nodes - {e.nodeId};
      effects := effects - {e.instanceId};
      processors := processors - {e.instanceId};
    }

    /**
    Reroute a direct link through a new effect node. A refusal leaves nodes, ports, links, effects
    and processors exactly as they were, the original link under its own id included.
    */
    method InsertEffect(request: EffectRequest, preparation: Preparation, source: PortKey, destination: PortKey)
      returns (result: DriverResult<EffectInstance>)
      requires Inv(State())
      modifies this, graph
      ensures Outcome(State(), result) == InsertOutcome(old(State()), request, preparation, source, destination)
      ensures Inv(State())
      ensures result.Refused? ==> OnlyCountersMoved(old(State()), State())
    {
      var ends := LinkEndpoints(graph.View(), source, destination);
      if ends.Refused? {
        return Refused(ends.error);
      }
      ghost var before := State();
      result := InsertIntoLink(request, preparation, source, destination, ends.value.0, ends.value.1, ends.value.2);
      InsertKeepsInv(before, request, preparation, source, destination, ends.value.0, ends.value.1, ends.value.2,
                     Outcome(State(), result));
    }

    method InsertIntoLink(request: EffectRequest, preparation: Preparation, source: PortKey, destination: PortKey,
                          output: PortId, input: PortId, original: LinkId)
      returns (result: DriverResult<EffectInstance>)
      requires Inv(State()) && output in graph.ports && original in LinksBetween(graph.View(), output, input)
      modifies this, graph
      ensures Outcome(State(), result)
           == InsertBetween(old(State()), request, preparation, source, destination, output, input, original)
    {
      ghost var before := State();
      result := CheckAndBuild(request, preparation);
      if result.Done? {
        ghost var created := Outcome(State(), result);
        ghost var d := DetourBegins(before, request, preparation, created, output, input, original);
        var instance := result.value.(source := Some(source), destination := Some(destination));
        result := Reroute(result.value, instance, original, output, input, d, before);
        InsertedByDetour(before, request, preparation, source, destination, output, input, original,
                         created.state, d, instance, result, State());
      }
    }

    /** Swap the original link for the two hops; a refused first hop undoes the whole insertion. */
    method Reroute(made: EffectInstance, instance: EffectInstance, original: LinkId, output: PortId, input: PortId,
                   ghost d: Detour, ghost before: DriverState)
      returns (result: DriverResult<EffectInstance>)
      requires Ready(d) && graph.View() == d.g && d == Detour(d.g, made, original, output, input, nextLinkId)
      requires WellFormed(before.graph) && Pruned(d.g, EffectClaim(made)) == before.graph
      requires OnlyAdds(before, State(), made) && output in graph.ports
      requires output in before.graph.ports && before.graph.ports[output] == graph.ports[output]
      modifies this, graph
      ensures Detoured(before, old(State()), d, instance, result, State())
    {
      ghost var created := State();
      var first := nextLinkId;
      var second := nextLinkId + 1;
      nextLinkId := nextLinkId + 2;
      assert d.next == first && State() == created.(nextLinkId := first + 2);
      var problem := SwapForFirstLink(made, original, first, output, d);
      if problem.Some? {
        Abandon(made, original, output, input, d, before, created, instance);
        return Refused(GraphFailure(problem.value));
      }
      Finish(made, instance, second, input, d, before, created);
      result := Done(instance);
    }

    /** The second hop, and the saved endpoints. */
    method Finish(made: EffectInstance, instance: EffectInstance, second: LinkId, input: PortId, ghost d: Detour,
                  ghost before: DriverState, ghost created: DriverState)
      requires Ready(d) && made == d.e && input == d.input && second == d.next + 1
      requires HasAudioPort(d.g, d.output, Source) && graph.View() == d.Half()
      requires d.output in before.graph.ports && before.graph.ports[d.output].portType == Audio
      requires State() == created.(graph := State().graph, nextLinkId := d.next + 2)
      modifies this`effects, graph`links
      ensures State() == old(State()).(graph := d.Whole(), effects := old(effects)[instance.instanceId := instance])
      ensures Detoured(before, created, d, instance, Done(instance), State())
    {
      SecondLink(made, second, input, d);
      effects := effects[instance.instanceId := instance];
    }

    /** The first hop was refused: go back to where the insertion began. */
    method Abandon(made: EffectInstance, original: LinkId, output: PortId, input: PortId, ghost d: Detour,
                   ghost before: DriverState, ghost created: DriverState, ghost instance: EffectInstance)
      requires Ready(d) && d == Detour(d.g, made, original, output, input, d.next)
      requires graph.View() == WithoutLink(d.g, original)
      requires WellFormed(before.graph) && Pruned(d.g, EffectClaim(made)) == before.graph
      requires OnlyAdds(before, created, made)
      requires output in before.graph.ports && before.graph.ports[output].portType != Audio
      requires State() == created.(graph := State().graph, nextLinkId := d.next + 2)
      modifies this, graph
      ensures Detoured(before, created, d, instance,
                       Refused(GraphFailure(IncompatiblePorts(output, made.inputPort))), State())
    {
      RollBack(made, original, output, input, d, before);
    }

    /** Replace the original link by the first hop, or just take it out. */
    method SwapForFirstLink(made: EffectInstance, original: LinkId, first: LinkId, output: PortId, ghost d: Detour)
      returns (problem: Option<GraphError>)
      requires Ready(d) && graph.View() == d.g && d == Detour(d.g, made, original, output, d.input, first)
      modifies graph`links
      ensures output in d.g.ports && State() == old(State()).(graph := State().graph)
      ensures if d.g.ports[output].portType == Audio then
                problem == None && graph.View() == d.Half() && HasAudioPort(d.g, output, Source)
              else
                problem == Some(IncompatiblePorts(output, made.inputPort)) && graph.View() == WithoutLink(d.g, original)
    {
      ReadyEnds(d);
      FirstHop(d);
      var removed := graph.RemoveLink(original);
      var added := graph.AddLink(first, output, made.inputPort);
      problem := if added.Failure? then Some(added.error) else None;
    }

    /** The second hop; the original link proves that the types agree, so it cannot be refused. */
    method SecondLink(made: EffectInstance, second: LinkId, input: PortId, ghost d: Detour)
      requires Ready(d) && made == d.e && input == d.input && HasAudioPort(d.g, d.output, Source)
      requires graph.View() == d.Half() && second == d.next + 1
      modifies graph`links
      ensures graph.View() == d.Whole()
    {
      ghost var hop := Link(second, d.e.outputPort, d.input);
      SecondHop(d, graph.View(), hop);
      TwoHops(d, hop);
      var added := graph.AddLink(second, made.outputPort, input);
    }

    /** Remove the new effect node and put the original link back under its own id. */
    method RollBack(made: EffectInstance, original: LinkId, output: PortId, input: PortId,
                    ghost d: Detour, ghost before: DriverState)
      requires Ready(d) && d == Detour(d.g, made, original, output, input, d.next)
      requires graph.View() == WithoutLink(d.g, original)
      requires WellFormed(before.graph) && Pruned(d.g, EffectClaim(made)) == before.graph
      requires OnlyAdds(before, State(), made)
      modifies this, graph
      ensures State() == before.(nextLinkId := old(nextLinkId), nextEffectId := old(nextEffectId))
    {
      RemoveLinkKeeps(d.g, original);
      CutThenDrop(before, d);
      RemoveEffectNode(made);
      RemoveThenAddRestores(before.graph, original);
      var restored := graph.AddLink(original, output, input);
    }

    /** Remove an effect, joining its saved endpoints again; a refusal leaves graph, effects and processors alone. */
    method RemoveEffect(instanceId: string) returns (result: DriverResult<()>)
      requires Inv(State())
      modifies this, graph
      ensures Outcome(State(), result) == RemoveOutcome(old(State()), instanceId)
      ensures Inv(State())
      ensures result.Refused? ==> OnlyCountersMoved(old(State()), State())
    {
      RemoveKeepsInv(State(), instanceId, RemoveOutcome(State(), instanceId));
      if instanceId !in effects {
        return Refused(UnknownEffect);
      }
      var e := effects[instanceId];
      if e.source.Some? && e.destination.Some? {
        var ends := RestoreEndpoints(graph.View(), e.source.value, e.destination.value);
        if ends.Refused? {
          return Refused(ends.error);
        }
        result := RemoveRouted(e, ends.value.0, ends.value.1);
      } else if e.source.None? && e.destination.None? {
        RemoveEffectNode(e);
        result := Done(());
      } else {
        result := Refused(RoutingIncomplete);
      }
    }

    /** Cut the effect's links, join the endpoints, then drop the node; a refused join puts the links back. */
    method RemoveRouted(e: EffectInstance, output: PortId, input: PortId) returns (result: DriverResult<()>)
      requires WellFormed(graph.View()) && LinkIdsBelow(graph.View(), nextLinkId)
      modifies this, graph
      ensures Outcome(State(), result) == RemoveAndRestore(old(State()), e, output, input)
    {
      ghost var before := graph.View();
      var removed := CutLinks({e.inputPort}, {e.outputPort});
      assert graph.View() == WithoutTouching(before, EffectClaim(e));
      var link := nextLinkId;
      nextLinkId := nextLinkId + 1;
      var added := graph.AddLink(link, output, input);
      if added.Failure? {
        ReinsertLinks(removed, before, {e.inputPort}, {e.outputPort});
        return Refused(GraphFailure(added.error));
      }
      RemoveEffectNode(e);
      result := Done(());
    }

    // Recorders, video filters and the screen capture.

    /** The first node id from `nextEffectId` on that the graph does not use. */
    method SkipUsedIds() returns (id: NodeId)
      modifies this`nextEffectId
      ensures FirstFree(graph.View(), old(nextEffectId), id) && nextEffectId == id
    {
      id := nextEffectId;
      while id in graph.nodes
        invariant id == nextEffectId && old(nextEffectId) <= id
        invariant forall k :: old(nextEffectId) <= k < id ==> k in graph.nodes
        decreases UsedFrom(graph.nodes.Keys, id)
      {
        assert id in UsedFrom(graph.nodes.Keys, id) && id !in UsedFrom(graph.nodes.Keys, id + 1);
        nextEffectId := nextEffectId + 1;
        id := nextEffectId;
      }
    }

    method CreateRecorder(name: string) returns (result: DriverResult<nat>)
      requires Inv(State())
      modifies this`nextEffectId, this`nextRecorderId, this`recorders, graph
      ensures Inv(State())
      ensures exists id: nat ::
        && FirstFree(old(graph.View()), old(nextEffectId), id)
        && if id + 1 in old(graph.ports) then
             && result == Refused(GraphFailure(DuplicatePort(id + 1)))
             && State() == old(State()).(nextEffectId := id + 2, nextRecorderId := old(nextRecorderId) + 1)
           else
             && result == Done(old(nextRecorderId))
             && State() == WithRecorder(old(State()), id, name)
    {
      ghost var before := State();
      ghost var id;
      result, id := BuildRecorder(name);
      if result.Done? {
        RecorderKeepsInv(before, id, name, State());
      } else {
        RecorderRefusedKeepsInv(before, State());
      }
    }

    method BuildRecorder(name: string) returns (result: DriverResult<nat>, ghost node: nat)
      modifies this`nextEffectId, this`nextRecorderId, this`recorders, graph
      ensures FirstFree(old(graph.View()), old(nextEffectId), node)
      ensures if node + 1 in old(graph.ports) then
                && result == Refused(GraphFailure(DuplicatePort(node + 1)))
                && State() == old(State()).(nextEffectId := node + 2, nextRecorderId := old(nextRecorderId) + 1)
              else
                && result == Done(old(nextRecorderId))
                && State() == WithRecorder(old(State()), node, name)
    {
      var recorder := nextRecorderId;
      nextRecorderId := nextRecorderId + 1;
      var id := SkipUsedIds();
      node := id;
      nextEffectId := id + 2;
      var problem := AddOwned(RecorderNode(id, name), RecorderInput(id), None);
      if problem.Some? {
        return Refused(GraphFailure(problem.value)), id;
      }
      recorders := recorders[recorder := DemoRecorder(id, id + 1, Idle, false)];
      result := Done(recorder);
    }

    /** Start, stop, save, poll and discard change only this status. */
    method NoteRecording(recorder: nat, state: RecorderState, hasTemporaryFile: bool) returns (result: DriverResult<()>)
      requires Inv(State())
      modifies this`recorders
      ensures Inv(State())
      ensures result == if recorder in old(recorders) then Done(()) else Refused(UnknownRecorder)
      ensures State() == old(State()).(recorders :=
                if recorder in old(recorders)
                then old(recorders)[recorder := old(recorders)[recorder].(state := state, hasTemporaryFile := hasTemporaryFile)]
                else old(recorders))
    {
      ghost var before := State();
      if recorder !in recorders {
        return Refused(UnknownRecorder);
      }
      recorders := recorders[recorder := recorders[recorder].(state := state, hasTemporaryFile := hasTemporaryFile)];
      LinksKeepInv(before, State(), before.graph);
      result := Done(());
    }

    /** A recorder goes only when nothing it recorded could be lost. */
    method RemoveRecorder(recorder: nat) returns (result: DriverResult<()>)
      requires Inv(State())
      modifies this`recorders, graph
      ensures Inv(State())
      ensures result ==
        if recorder !in old(recorders) then Refused(UnknownRecorder)
        else
          var r := old(recorders)[recorder];
          if r.state.Recording? then Refused(RecorderRunning)
          else if r.hasTemporaryFile && (r.state.Unsaved? || r.state.Broken?) then Refused(RecordingPending)
          else Done(())
      ensures State() == if result.Refused? then old(State())
                         else WithoutRecorder(old(State()), recorder)
    {
      ghost var before := State();
      if recorder !in recorders {
        return Refused(UnknownRecorder);
      }
      var r := recorders[recorder];
      if r.state.Recording? {
        return Refused(RecorderRunning);
      }
      if r.hasTemporaryFile && (r.state.Unsaved? || r.state.Broken?) {
        return Refused(RecordingPending);
      }
      DropRecorder(recorder);
      RecorderGoneKeepsInv(before, recorder, State());
      result := Done(());
    }

    method DropRecorder(recorder: nat)
      requires recorder in recorders
      modifies this`recorders, graph
      ensures State() == WithoutRecorder(old(State()), recorder)
    {
      var r := recorders[recorder];
      ghost var before := graph.links;
      recorders := recorders - {recorder};
      graph.links := map l | l in graph.links && graph.links[l].inputPort != r.inputPort :: graph.links[l];
      graph.ports := graph.ports - {r.inputPort};
      graph.nodes := graph.nodes - {r.nodeId};
      RecorderLinks(before, r, graph.links);
    }

    method CreateVideoFilter(instance: string, kind: string, kindKnown: bool) returns (result: DriverResult<VideoFilter>)
      requires Inv(State())
      modifies this`nextEffectId, this`filters, graph
      ensures Inv(State())
      ensures result.Refused? ==> OnlyCountersMoved(old(State()), State())
      ensures result.Refused? ==>
        if IsBlank(instance) then result.error == FilterIdEmpty
        else if instance in old(filters) then result.error == FilterAlreadyExists
        else if !kindKnown then result.error == FilterKindUnknown
        else exists id: nat :: FirstFree(old(graph.View()), old(nextEffectId), id)
                               && (id + 1 in old(graph.ports) || id + 2 in old(graph.ports))
      ensures result.Done? ==>
        && !IsBlank(instance) && instance !in old(filters) && kindKnown
        && var id := result.value.nodeId;
           && FirstFree(old(graph.View()), old(nextEffectId), id)
           && id + 1 !in old(graph.ports) && id + 2 !in old(graph.ports)
           && result.value == VideoFilter(kind, id, id + 1, id + 2)
           && State() == WithFilter(old(State()), id, kind, instance)
    {
      ghost var before := State();
      if IsBlank(instance) {
        return Refused(FilterIdEmpty);
      }
      if instance in filters {
        return Refused(FilterAlreadyExists);
      }
      if !kindKnown {
        return Refused(FilterKindUnknown);
      }
      result := BuildFilter(instance, kind);
      if result.Done? {
        FilterKeepsInv(before, result.value.nodeId, kind, instance, State());
      } else {
        CountersKeepInv(before, State());
      }
    }

    method BuildFilter(instance: string, kind: string) returns (result: DriverResult<VideoFilter>)
      modifies this`nextEffectId, this`filters, graph
      ensures result.Refused? ==> OnlyCountersMoved(old(State()), State())
      ensures result.Refused? ==>
        exists id: nat :: FirstFree(old(graph.View()), old(nextEffectId), id)
                          && (id + 1 in old(graph.ports) || id + 2 in old(graph.ports))
      ensures result.Done? ==>
        var id := result.value.nodeId;
        && FirstFree(old(graph.View()), old(nextEffectId), id)
        && IdProblem(old(graph.View()), id, id + 1, Some(id + 2)).None?
        && result.value == VideoFilter(kind, id, id + 1, id + 2)
        && State() == WithFilter(old(State()), id, kind, instance)
    {
      var id := SkipUsedIds();
      nextEffectId := id + 3;
      var problem := AddOwned(FilterNode(id, kind, instance), FilterInput(id), Some(FilterOutput(id)));
      if problem.Some? {
        return Refused(GraphFailure(problem.value));
      }
      var filter := VideoFilter(kind, id, id + 1, id + 2);
      filters := filters[instance := filter];
      result := Done(filter);
    }

    method RemoveVideoFilter(instance: string) returns (result: DriverResult<()>)
      requires Inv(State())
      modifies this`filters, graph
      ensures Inv(State())
      ensures result == if instance in old(filters) then Done(()) else Refused(UnknownFilter)
      ensures State() == if result.Refused? then old(State()) else WithoutFilter(old(State()), instance)
    {
      ghost var before := State();
      if instance !in filters {
        return Refused(UnknownFilter);
      }
      DropFilter(instance);
      FilterGoneKeepsInv(before, instance, State());
      result := Done(());
    }

    method DropFilter(instance: string)
      requires instance in filters && Keyed(graph.View())
      modifies this`filters, graph
      ensures State() == WithoutFilter(old(State()), instance)
    {
      var filter := filters[instance];
      ghost var before := graph.ports;
      filters := filters - {instance};
      var removed := CutLinks({filter.inputPort}, {filter.outputPort});
      assert before - {filter.inputPort} - {filter.outputPort} == before - ({filter.inputPort} + {filter.outputPort});
      graph.ports := graph.ports - {filter.inputPort};
      graph.ports := graph.ports - {filter.outputPort};
      graph.nodes := graph.nodes - {filter.nodeId};
    }

    /** Starting twice changes nothing. */
    method StartScreenCast() returns (result: DriverResult<nat>)
      requires Inv(State())
      modifies this`nextEffectId, this`capture, graph
      ensures Inv(State())
      ensures old(capture).Some? ==> State() == old(State()) && result == Done(old(capture).value.serial)
      ensures old(capture).None? && result.Refused? ==>
        && OnlyCountersMoved(old(State()), State())
        && exists id: nat :: FirstFree(old(graph.View()), old(nextEffectId), id) && id + 1 in old(graph.ports)
      ensures old(capture).None? && result.Done? ==>
        && capture.Some?
        && var id := capture.value.nodeId;
           && FirstFree(old(graph.View()), old(nextEffectId), id) && id + 1 !in old(graph.ports)
           && capture.value == Capture(id, id + 1, id + 2) && result == Done(id + 2)
           && State() == WithCapture(old(State()), id)
    {
      ghost var before := State();
      if capture.Some? {
        return Done(capture.value.serial);
      }
      result := BuildCapture();
      if result.Done? {
        CaptureKeepsInv(before, capture.value.nodeId, State());
      } else {
        CountersKeepInv(before, State());
      }
    }

    method BuildCapture() returns (result: DriverResult<nat>)
      modifies this`nextEffectId, this`capture, graph
      ensures result.Refused? ==>
        && OnlyCountersMoved(old(State()), State())
        && exists id: nat :: FirstFree(old(graph.View()), old(nextEffectId), id) && id + 1 in old(graph.ports)
      ensures result.Done? ==>
        && capture.Some?
        && var id := capture.value.nodeId;
           && FirstFree(old(graph.View()), old(nextEffectId), id)
           && IdProblem(old(graph.View()), id, id + 1, None).None?
           && capture.value == Capture(id, id + 1, id + 2) && result == Done(id + 2)
           && State() == WithCapture(old(State()), id)
    {
      var id := SkipUsedIds();
      nextEffectId := id + 3;
      var problem := AddOwned(CaptureNode(id), CapturePort(id), None);
      if problem.Some? {
        return Refused(GraphFailure(problem.value));
      }
      capture := Some(Capture(id, id + 1, id + 2));
      result := Done(id + 2);
    }

    method StopScreenCast()
      requires Inv(State())
      modifies this`capture, graph
      ensures Inv(State())
      ensures State() == if old(capture).None? then old(State()) else WithoutCapture(old(State()))
    {
      ghost var before := State();
      if capture.None? {
        return;
      }
      CaptureIsClaimed(before);
      DropCapture();
      CaptureGoneKeepsInv(before, State());
    }

    method DropCapture()
      requires capture.Some? && WellFormed(graph.View()) && ClaimHolds(graph.View(), CaptureClaim(capture.value))
      modifies this`capture, graph
      ensures State() == WithoutCapture(old(State()))
    {
      var port, node := capture.value.port, capture.value.nodeId;
      ghost var c := CaptureClaim(capture.value);
      SourcesHaveNoInputLinks(graph.View(), c);
      capture := None;
      assert c.inputs + c.outputs == {port};
      var removed := CutLinks({port}, {port});
      graph.ports := graph.ports - {port};
      graph.nodes := graph.nodes - {node};
    }
  }
}
