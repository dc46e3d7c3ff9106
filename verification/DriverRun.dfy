/** Whole runs of the in-memory driver, whatever is asked of it and whatever it refuses. */
module DriverRuns {
  import opened GraphTypes
  import opened GraphStore
  import opened EndpointResolver
  import opened OwnedNodes
  import opened DriverStates
  import opened DemoDrivers

  datatype Operation =
    | Connect(output: PortId, input: PortId)
    | Disconnect(link: LinkId)
    | CreateEffect(request: EffectRequest, preparation: Preparation)
    | InsertEffect(request: EffectRequest, preparation: Preparation, source: PortKey, destination: PortKey)
    | RemoveEffect(instance: string)
    | CreateRecorder(name: string)
    | NoteRecording(recorder: nat, state: RecorderState, hasTemporaryFile: bool)
    | RemoveRecorder(recorder: nat)
    | CreateVideoFilter(instance: string, kind: string, kindKnown: bool)
    | RemoveVideoFilter(instance: string)
    | StartScreenCast
    | StopScreenCast

  ghost predicate IsOwned(s: DriverState, n: NodeId) {
    exists o :: ClaimOf(s, o).Some? && ClaimOf(s, o).value.node == n
  }

  /** All nodes and ports of `g` are still there, as they were. */
  ghost predicate Includes(h: GraphView, g: GraphView) {
    && (forall n :: n in g.nodes ==> n in h.nodes && h.nodes[n] == g.nodes[n])
    && (forall p :: p in g.ports ==> p in h.ports && h.ports[p] == g.ports[p])
  }

  /** A node either was there from the start or has an owner, and not both. */
  ghost predicate Balanced(s: DriverState, initial: set<NodeId>) {
    && initial <= s.graph.nodes.Keys
    && forall n :: n in s.graph.nodes ==> (n in initial <==> !IsOwned(s, n))
  }

  /** The graph is the one the driver started with, untouched, and the nodes of its present owners. */
  ghost predicate Conserved(g: GraphView, s: DriverState) {
    var conserved := Inv(s) && Includes(s.graph, g) && Balanced(s, g.nodes.Keys);
    conserved
  }

  /** The owners are the same but for `owner`, who has come to own `c`. */
  ghost predicate NewOwner(s: DriverState, t: DriverState, owner: Owner, c: Claim) {
    SameOwners(s, t, {owner}) && ClaimOf(s, owner).None? && ClaimOf(t, owner) == Some(c)
  }

  lemma StillOwned(s: DriverState, t: DriverState, but: set<Owner>, o: Owner)
    requires SameOwners(s, t, but) && o !in but && ClaimOf(s, o).Some?
    ensures IsOwned(t, ClaimOf(s, o).value.node)
  {
    assert ClaimOf(t, o) == ClaimOf(s, o);
  }

  lemma SameOwned(s: DriverState, t: DriverState, n: NodeId)
    requires SameOwners(s, t, {}) && IsOwned(s, n)
    ensures IsOwned(t, n)
  {
    var o :| ClaimOf(s, o).Some? && ClaimOf(s, o).value.node == n;
    StillOwned(s, t, {}, o);
  }

  /** What a new owner adds to the owned nodes. */
  lemma OneMoreOwned(s: DriverState, t: DriverState, owner: Owner, c: Claim, n: NodeId)
    requires NewOwner(s, t, owner, c)
    ensures IsOwned(t, n) <==> IsOwned(s, n) || n == c.node
  {
    if IsOwned(s, n) {
      var o :| ClaimOf(s, o).Some? && ClaimOf(s, o).value.node == n;
      StillOwned(s, t, {owner}, o);
    }
    if IsOwned(t, n) {
      var o :| ClaimOf(t, o).Some? && ClaimOf(t, o).value.node == n;
      assert o != owner ==> ClaimOf(s, o) == ClaimOf(t, o);
    }
  }

  /** With owners apart, no one else owns the node of `owner`. */
  lemma OwnedOnce(s: DriverState, t: DriverState, owner: Owner, c: Claim)
    requires NewOwner(s, t, owner, c) && Owned(t)
    ensures !IsOwned(s, c.node)
  {
    forall o | ClaimOf(s, o).Some?
      ensures ClaimOf(s, o).value.node != c.node
    {
      assert ClaimOf(t, o) == ClaimOf(s, o) && o != owner;
    }
  }

  lemma BalancedStays(s: DriverState, t: DriverState, initial: set<NodeId>)
    requires Balanced(s, initial) && SameOwners(s, t, {}) && t.graph.nodes == s.graph.nodes
    ensures Balanced(t, initial)
  {
    forall n | n in t.graph.nodes
      ensures IsOwned(t, n) <==> IsOwned(s, n)
    {
      if IsOwned(s, n) {
        SameOwned(s, t, n);
      }
      if IsOwned(t, n) {
        SameOwned(t, s, n);
      }
    }
  }

  lemma StaysConserved(g: GraphView, s: DriverState, t: DriverState)
    requires Conserved(g, s) && Inv(t) && SameOwners(s, t, {})
    requires t.graph.nodes == s.graph.nodes && t.graph.ports == s.graph.ports
    ensures Conserved(g, t)
  {
    BalancedStays(s, t, g.nodes.Keys);
  }

  lemma BalancedGrows(s: DriverState, t: DriverState, initial: set<NodeId>, owner: Owner, c: Claim)
    requires Balanced(s, initial) && NewOwner(s, t, owner, c) && c.node !in s.graph.nodes
    requires t.graph.nodes.Keys == s.graph.nodes.Keys + {c.node}
    ensures Balanced(t, initial)
  {
    forall n | n in t.graph.nodes
      ensures n in initial <==> !IsOwned(t, n)
    {
      OneMoreOwned(s, t, owner, c, n);
    }
  }

  lemma BalancedShrinks(s: DriverState, t: DriverState, initial: set<NodeId>, owner: Owner, c: Claim)
    requires Balanced(s, initial) && NewOwner(t, s, owner, c) && Owned(s) && c.node in s.graph.nodes
    requires t.graph.nodes.Keys == s.graph.nodes.Keys - {c.node}
    ensures Balanced(t, initial) && c.node !in initial
  {
    OwnedOnce(t, s, owner, c);
    OneMoreOwned(t, s, owner, c, c.node);
    forall n | n in t.graph.nodes
      ensures n in initial <==> !IsOwned(t, n)
    {
      OneMoreOwned(t, s, owner, c, n);
    }
  }

  lemma IncludesGrown(h: GraphView, g: GraphView, k: GraphView, node: Node, p: Port, q: Option<Port>)
    requires Includes(h, g) && Fits(h, node, p, q)
    requires k.nodes == Grown(h, node, p, q).nodes && k.ports == Grown(h, node, p, q).ports
    ensures Includes(k, g)
  {
  }

  lemma IncludesPruned(h: GraphView, g: GraphView, k: GraphView, c: Claim)
    requires Includes(h, g) && PortsListed(g) && PortsListed(h) && ClaimHolds(h, c) && c.node !in g.nodes
    requires k.nodes == h.nodes - {c.node} && k.ports == h.ports - (c.inputs + c.outputs)
    ensures Includes(k, g)
  {
    ClaimedPortsAreOwn(h, c);
  }

  /** `owner` has come with a node of its own. */
  ghost predicate Enlarged(s: DriverState, t: DriverState, owner: Owner, c: Claim, node: Node, p: Port, q: Option<Port>) {
    var grown := Grown(s.graph, node, p, q);
    var enlarged :=
      && NewOwner(s, t, owner, c) && c.node == node.id && Fits(s.graph, node, p, q)
      && t.graph.nodes == grown.nodes && t.graph.ports == grown.ports;
    enlarged
  }

  /** `owner` has left with its node and ports. */
  ghost predicate Reduced(s: DriverState, t: DriverState, owner: Owner, c: Claim) {
    var reduced :=
      && NewOwner(t, s, owner, c)
      && t.graph.nodes == s.graph.nodes - {c.node} && t.graph.ports == s.graph.ports - (c.inputs + c.outputs);
    reduced
  }

  /** Owners, nodes and ports are the same. */
  ghost predicate SameHoldings(s: DriverState, t: DriverState) {
    SameOwners(s, t, {}) && t.graph.nodes == s.graph.nodes && t.graph.ports == s.graph.ports
  }

  /** An operation changes no holdings, brings one owner with a new node, or takes one away with its node. */
  ghost predicate Changes(s: DriverState, t: DriverState) {
    var changes :=
      && Inv(s) && Inv(t)
      && (|| SameHoldings(s, t)
          || (exists owner, c, node, p, q :: Enlarged(s, t, owner, c, node, p, q))
          || (exists owner, c :: Reduced(s, t, owner, c)));
    changes
  }

  lemma EnlargedConserved(g: GraphView, s: DriverState, t: DriverState, owner: Owner, c: Claim,
                          node: Node, p: Port, q: Option<Port>)
    requires Conserved(g, s) && Inv(t) && Enlarged(s, t, owner, c, node, p, q)
    ensures Conserved(g, t)
  {
    IncludesGrown(s.graph, g, t.graph, node, p, q);
    BalancedGrows(s, t, g.nodes.Keys, owner, c);
  }

  lemma OwnerIsPresent(s: SoundState, o: Owner)
    requires ClaimOf(s, o).Some?
    ensures ClaimHolds(s.graph, ClaimOf(s, o).value) && PortsListed(s.graph) && Owned(s)
  {
  }

  lemma ReducedConserved(g: SoundGraph, s: DriverState, t: DriverState, owner: Owner, c: Claim)
    requires Conserved(g, s) && Inv(t) && Reduced(s, t, owner, c)
    ensures Conserved(g, t)
  {
    OwnerIsPresent(s, owner);
    BalancedShrinks(s, t, g.nodes.Keys, owner, c);
    IncludesPruned(s.graph, g, t.graph, c);
  }

  lemma ChangesConserve(g: SoundGraph, s: DriverState, t: DriverState)
    requires Conserved(g, s) && Changes(s, t)
    ensures Conserved(g, t)
  {
    if SameHoldings(s, t) {
      StaysConserved(g, s, t);
    } else if owner, c :| Reduced(s, t, owner, c) {
      ReducedConserved(g, s, t, owner, c);
    } else {
      var owner, c, node, p, q :| Enlarged(s, t, owner, c, node, p, q);
      EnlargedConserved(g, s, t, owner, c, node, p, q);
    }
  }

  // What each operation changes.

  /** No owner has come, gone or changed its node. */
  lemma HoldingsStay(s: SoundState, t: SoundState)
    requires t.effects == s.effects && t.recorders == s.recorders && t.filters == s.filters && t.capture == s.capture
    requires t.graph.nodes == s.graph.nodes && t.graph.ports == s.graph.ports
    ensures Changes(s, t)
  {
    assert SameOwners(s, t, {});
  }

  lemma InsertChanges(s: SoundState, request: EffectRequest, preparation: Preparation, source: PortKey,
                      destination: PortKey, done: Outcome<EffectInstance>)
    requires done == InsertOutcome(s, request, preparation, source, destination) && Inv(done.state)
    requires done.result.Refused? ==> OnlyCountersMoved(s, done.state)
    ensures Changes(s, done.state)
  {
    if done.result.Refused? {
      HoldingsStay(s, done.state);
    } else {
      var (output, input, original) := LinkEndpoints(s.graph, source, destination).value;
      InsertEnlarges(s, request, preparation, source, destination, output, input, original, done);
    }
  }

  lemma CreateEnlarges(s: DriverState, request: EffectRequest, preparation: Preparation, created: Outcome<EffectInstance>)
    requires Registered(s) && created == CreateOutcome(s, request, preparation) && created.result.Done?
    ensures Enlarged(s, created.state, EffectOf(request.instanceId), EffectClaim(created.result.value),
                     EffectNode(s.nextEffectId, request, preparation.processor), EffectInput(s.nextEffectId),
                     Some(EffectOutput(s.nextEffectId)))
  {
    var id := s.nextEffectId;
    NewEffectParts(s.graph, id, request, EffectNode(id, request, preparation.processor), EffectInput(id),
                   Some(EffectOutput(id)), preparation.processor);
    CreatedOwners(s, request, preparation, created.state);
  }

  lemma InsertEnlarges(s: DriverState, request: EffectRequest, preparation: Preparation, source: PortKey,
                       destination: PortKey, output: PortId, input: PortId, original: LinkId,
                       done: Outcome<EffectInstance>)
    requires Registered(s) && output in s.graph.ports && done.result.Done?
    requires done == InsertBetween(s, request, preparation, source, destination, output, input, original)
    ensures preparation.Prepared?
    ensures Enlarged(s, done.state, EffectOf(request.instanceId), EffectClaim(done.result.value),
                     EffectNode(s.nextEffectId, request, preparation.processor), EffectInput(s.nextEffectId),
                     Some(EffectOutput(s.nextEffectId)))
  {
    var created := CreateOutcome(s, request, preparation);
    InsertedShape(s, request, preparation, source, destination, output, input, original, created, done);
    CreateEnlarges(s, request, preparation, created);
    CreatedOwners(s, request, preparation, created.state);
    SavedRouting(created.state, done.result.value.instanceId, done.result.value, done.state);
  }

  lemma CreateChanges(s: SoundState, request: EffectRequest, preparation: Preparation, created: Outcome<EffectInstance>)
    requires created == CreateOutcome(s, request, preparation)
    ensures Changes(s, created.state)
  {
    CreateKeepsInv(s, request, preparation, created);
    if created.result.Done? {
      CreateEnlarges(s, request, preparation, created);
    } else {
      HoldingsStay(s, created.state);
    }
  }

  lemma DropReduces(s: DriverState, e: EffectInstance, t: DriverState)
    requires e.instanceId in s.effects && s.effects[e.instanceId] == e
    requires t.effects == s.effects - {e.instanceId}
    requires t.recorders == s.recorders && t.filters == s.filters && t.capture == s.capture
    requires t.graph.nodes == s.graph.nodes - {e.nodeId} && t.graph.ports == s.graph.ports - ({e.inputPort} + {e.outputPort})
    ensures Reduced(s, t, EffectOf(e.instanceId), EffectClaim(e))
  {
  }

  lemma RemoveReduces(s: DriverState, instance: string, done: Outcome<()>)
    requires Registered(s) && done == RemoveOutcome(s, instance) && done.result.Done?
    ensures instance in s.effects && Reduced(s, done.state, EffectOf(instance), EffectClaim(s.effects[instance]))
  {
    DropReduces(s, s.effects[instance], done.state);
  }

  lemma RemoveChanges(s: SoundState, instance: string, done: Outcome<()>)
    requires done == RemoveOutcome(s, instance)
    ensures Changes(s, done.state)
  {
    RemoveKeepsInv(s, instance, done);
    if done.result.Done? {
      RemoveReduces(s, instance, done);
    } else {
      HoldingsStay(s, done.state);
    }
  }

  lemma RecorderEnlarges(s: DriverState, id: NodeId, name: string, t: DriverState)
    requires Registered(s) && id !in s.graph.nodes && id + 1 !in s.graph.ports && t == WithRecorder(s, id, name)
    ensures Enlarged(s, t, RecorderOf(s.nextRecorderId), Claim(id, {id + 1}, {}), RecorderNode(id, name),
                     RecorderInput(id), None)
  {
  }

  lemma RecorderReduces(s: DriverState, recorder: nat, t: DriverState)
    requires recorder in s.recorders && t == WithoutRecorder(s, recorder)
    ensures Reduced(s, t, RecorderOf(recorder), RecorderClaim(s.recorders[recorder]))
  {
  }

  lemma NotedOwners(s: DriverState, t: DriverState, recorder: nat, noted: DemoRecorder)
    requires recorder in s.recorders && t == s.(recorders := s.recorders[recorder := noted])
    requires RecorderClaim(noted) == RecorderClaim(s.recorders[recorder])
    ensures SameOwners(s, t, {})
  {
  }

  lemma FilterEnlarges(s: DriverState, id: NodeId, kind: string, instance: string, t: DriverState)
    requires id !in s.graph.nodes && id + 1 !in s.graph.ports && id + 2 !in s.graph.ports && instance !in s.filters
    requires t == WithFilter(s, id, kind, instance)
    ensures Enlarged(s, t, FilterOf(instance), Claim(id, {id + 1}, {id + 2}), FilterNode(id, kind, instance),
                     FilterInput(id), Some(FilterOutput(id)))
  {
  }

  lemma FilterReduces(s: DriverState, instance: string, t: DriverState)
    requires instance in s.filters && t == WithoutFilter(s, instance)
    ensures Reduced(s, t, FilterOf(instance), FilterClaim(s.filters[instance]))
  {
  }

  lemma CaptureEnlarges(s: DriverState, id: NodeId, t: DriverState)
    requires id !in s.graph.nodes && id + 1 !in s.graph.ports && s.capture.None? && t == WithCapture(s, id)
    ensures Enlarged(s, t, TheCapture, Claim(id, {}, {id + 1}), CaptureNode(id), CapturePort(id), None)
  {
  }

  lemma CaptureReduces(s: DriverState, t: DriverState)
    requires s.capture.Some? && t == WithoutCapture(s)
    ensures Reduced(s, t, TheCapture, CaptureClaim(s.capture.value))
  {
  }

  // Runs.

  method PerformOnLinks(d: DemoDriver, op: Operation)
    requires Inv(d.State()) && (op.Connect? || op.Disconnect?)
    modifies d, d.graph
    ensures Changes(old(d.State()), d.State())
  {
    ghost var before := d.State();
    if op.Connect? {
      var _ := d.Connect(op.output, op.input);
    } else {
      var _ := d.Disconnect(op.link);
    }
    HoldingsStay(before, d.State());
  }

  method PerformOnEffects(d: DemoDriver, op: Operation)
    requires Inv(d.State()) && (op.CreateEffect? || op.InsertEffect? || op.RemoveEffect?)
    modifies d, d.graph
    ensures Changes(old(d.State()), d.State())
  {
    ghost var before := d.State();
    if op.CreateEffect? {
      var result := d.CreateEffectNode(op.request, op.preparation);
      CreateChanges(before, op.request, op.preparation, Outcome(d.State(), result));
    } else if op.InsertEffect? {
      var result := d.InsertEffect(op.request, op.preparation, op.source, op.destination);
      InsertChanges(before, op.request, op.preparation, op.source, op.destination, Outcome(d.State(), result));
    } else {
      var result := d.RemoveEffect(op.instance);
      RemoveChanges(before, op.instance, Outcome(d.State(), result));
    }
  }

  method PerformOnRecorders(d: DemoDriver, op: Operation)
    requires Inv(d.State()) && (op.CreateRecorder? || op.NoteRecording? || op.RemoveRecorder?)
    modifies d, d.graph
    ensures Changes(old(d.State()), d.State())
  {
    ghost var before := d.State();
    if op.CreateRecorder? {
      var result := d.CreateRecorder(op.name);
      if result.Done? {
        ghost var id: nat :| FirstFree(before.graph, before.nextEffectId, id) && id + 1 !in before.graph.ports
                             && d.State() == WithRecorder(before, id, op.name);
        RecorderEnlarges(before, id, op.name, d.State());
      } else {
        HoldingsStay(before, d.State());
      }
    } else if op.NoteRecording? {
      var result := d.NoteRecording(op.recorder, op.state, op.hasTemporaryFile);
      if result.Done? {
        NotedOwners(before, d.State(), op.recorder, d.recorders[op.recorder]);
      } else {
        HoldingsStay(before, d.State());
      }
    } else {
      var result := d.RemoveRecorder(op.recorder);
      if result.Done? {
        RecorderReduces(before, op.recorder, d.State());
      } else {
        HoldingsStay(before, d.State());
      }
    }
  }

  method PerformOnFilters(d: DemoDriver, op: Operation)
    requires Inv(d.State()) && (op.CreateVideoFilter? || op.RemoveVideoFilter?)
    modifies d, d.graph
    ensures Changes(old(d.State()), d.State())
  {
    ghost var before := d.State();
    if op.CreateVideoFilter? {
      var result := d.CreateVideoFilter(op.instance, op.kind, op.kindKnown);
      if result.Done? {
        FilterEnlarges(before, result.value.nodeId, op.kind, op.instance, d.State());
      } else {
        HoldingsStay(before, d.State());
      }
    } else {
      var result := d.RemoveVideoFilter(op.instance);
      if result.Done? {
        FilterReduces(before, op.instance, d.State());
      } else {
        HoldingsStay(before, d.State());
      }
    }
  }

  method PerformOnCapture(d: DemoDriver, op: Operation)
    requires Inv(d.State()) && (op.StartScreenCast? || op.StopScreenCast?)
    modifies d, d.graph
    ensures Changes(old(d.State()), d.State())
  {
    ghost var before := d.State();
    if op.StartScreenCast? {
      var result := d.StartScreenCast();
      if before.capture.None? && result.Done? {
        CaptureEnlarges(before, d.capture.value.nodeId, d.State());
      } else {
        HoldingsStay(before, d.State());
      }
    } else {
      d.StopScreenCast();
      if before.capture.Some? {
        CaptureReduces(before, d.State());
      } else {
        HoldingsStay(before, d.State());
      }
    }
  }

  method Perform(d: DemoDriver, op: Operation)
    requires Inv(d.State())
    modifies d, d.graph
    ensures Changes(old(d.State()), d.State())
  {
    if op.Connect? || op.Disconnect? {
      PerformOnLinks(d, op);
    } else if op.CreateEffect? || op.InsertEffect? || op.RemoveEffect? {
      PerformOnEffects(d, op);
    } else if op.CreateRecorder? || op.NoteRecording? || op.RemoveRecorder? {
      PerformOnRecorders(d, op);
    } else if op.CreateVideoFilter? || op.RemoveVideoFilter? {
      PerformOnFilters(d, op);
    } else {
      PerformOnCapture(d, op);
    }
  }

  lemma InitiallyConserved(g: SoundGraph, s: SoundState)
    requires s.graph == g && s.effects == map[] && s.recorders == map[] && s.filters == map[] && s.capture.None?
    ensures Conserved(g, s)
  {
    assert forall o :: ClaimOf(s, o).None?;
  }

  /** No effect, recorder, filter or capture is left. */
  predicate NothingOwned(s: DriverState) {
    s.effects == map[] && s.recorders == map[] && s.filters == map[] && s.capture.None?
  }

  /** Once everything is removed again, nodes and ports are those of the start. */
  lemma NothingIsLeftBehind(g: SoundGraph, s: DriverState)
    requires Conserved(g, s) && NothingOwned(s)
    ensures s.graph.nodes == g.nodes && s.graph.ports == g.ports
  {
    assert forall o :: ClaimOf(s, o).None?;
    assert s.graph.nodes.Keys == g.nodes.Keys;
    assert PortsListed(s.graph) && PortsListed(g);
    forall p | p in s.graph.ports
      ensures p in g.ports
    {
      assert Lists(g.nodes[s.graph.ports[p].nodeId], p);
    }
  }

  /**
  Whatever operations follow on the start and however they end, the driver's invariant holds, the nodes and
  ports it started with are as they were, and every other node has an owner.
  */
  method RunDriver(g: SoundGraph, operations: seq<Operation>) returns (driver: DemoDriver)
    ensures fresh(driver) && fresh(driver.graph)
    ensures Conserved(g, driver.State())
    ensures NothingOwned(driver.State()) ==> driver.graph.nodes == g.nodes && driver.graph.ports == g.ports
  {
    driver := new DemoDriver(g);
    InitiallyConserved(g, driver.State());
    for k := 0 to |operations|
      invariant fresh(driver) && fresh(driver.graph)
      invariant Conserved(g, driver.State())
    {
      ghost var before := driver.State();
      Perform(driver, operations[k]);
      ChangesConserve(g, before, driver.State());
    }
    if NothingOwned(driver.State()) {
      NothingIsLeftBehind(g, driver.State());
    }
  }
}
