/**
The demo driver's state as a value, what each transactional operation does to it,
and the invariant every operation keeps.
*/
module DriverStates {
  import opened GraphTypes
  import opened GraphStore
  import opened EndpointResolver
  import opened OwnedNodes

  datatype DriverError =
    | GraphFailure(error: GraphError)
    | EffectAlreadyExists
    | PreparationFailed
    | PreparedForAnother
    | SourceUnavailable
    | DestinationUnavailable
    | SourceDisappeared
    | DestinationDisappeared
    | NotLinked
    | UnknownEffect
    | RoutingIncomplete
    | UnknownRecorder
    | RecorderRunning
    | RecordingPending
    | FilterIdEmpty
    | FilterAlreadyExists
    | FilterKindUnknown
    | UnknownFilter

  datatype DriverResult<+T> = Done(value: T) | Refused(error: DriverError)

  datatype EffectInstance = EffectInstance(
    instanceId: string,
    effectId: string,
    nodeId: NodeId,
    inputPort: PortId,
    outputPort: PortId,
    source: Option<PortKey>,
    destination: Option<PortKey>)

  /** A prepared processor, known here by its descriptor. */
  datatype Processor = Processor(descriptorId: string, name: string)

  datatype Preparation = Unprepared | Prepared(processor: Processor)

  datatype EffectRequest = EffectRequest(instanceId: string, effectId: string)

  datatype RecorderState = Idle | Recording | Unsaved | Broken

  datatype DemoRecorder = DemoRecorder(nodeId: NodeId, inputPort: PortId, state: RecorderState, hasTemporaryFile: bool)

  datatype VideoFilter = VideoFilter(filterId: string, nodeId: NodeId, inputPort: PortId, outputPort: PortId)

  datatype Capture = Capture(nodeId: NodeId, port: PortId, serial: nat)

  datatype DriverState = DriverState(
    graph: GraphView,
    nextLinkId: nat,
    nextEffectId: nat,
    effects: map<string, EffectInstance>,
    processors: map<string, Processor>,
    recorders: map<nat, DemoRecorder>,
    nextRecorderId: nat,
    filters: map<string, VideoFilter>,
    capture: Option<Capture>)

  datatype Outcome<T> = Outcome(state: DriverState, result: DriverResult<T>)

  /** The characters that `trim` strips: Unicode's `White_Space` property. */
  predicate IsWhitespace(c: char) {
    var point := c as int;
    || 9 <= point <= 13
    || 0x2000 <= point <= 0x200A
    || point in {32, 0x85, 0xA0, 0x1680, 0x2028, 0x2029, 0x202F, 0x205F, 0x3000}
  }

  /** Nothing is left after trimming. */
  predicate IsBlank(text: string) {
    forall i :: 0 <= i < |text| ==> IsWhitespace(text[i])
  }

  // Who owns which node.

  datatype Owner = EffectOf(instance: string) | RecorderOf(recorder: nat) | FilterOf(filter: string) | TheCapture

  function EffectClaim(e: EffectInstance): Claim {
    Claim(e.nodeId, {e.inputPort}, {e.outputPort})
  }

  function RecorderClaim(r: DemoRecorder): Claim {
    Claim(r.nodeId, {r.inputPort}, {})
  }

  function FilterClaim(f: VideoFilter): Claim {
    Claim(f.nodeId, {f.inputPort}, {f.outputPort})
  }

  function CaptureClaim(c: Capture): Claim {
    Claim(c.nodeId, {}, {c.port})
  }

  function ClaimOf(s: DriverState, o: Owner): Option<Claim> {
    match o
    case EffectOf(k) => if k in s.effects then Some(EffectClaim(s.effects[k])) else None
    case RecorderOf(k) => if k in s.recorders then Some(RecorderClaim(s.recorders[k])) else None
    case FilterOf(k) => if k in s.filters then Some(FilterClaim(s.filters[k])) else None
    case TheCapture => if s.capture.Some? then Some(CaptureClaim(s.capture.value)) else None
  }

  ghost predicate OwnersApart(s: DriverState) {
    forall a, b :: ClaimOf(s, a).Some? && ClaimOf(s, b).Some? && a != b ==>
      ClaimOf(s, a).value.node != ClaimOf(s, b).value.node
  }

  /** Every owner has its own node, with exactly the ports it knows of. */
  ghost predicate Owned(s: DriverState) {
    && (forall o :: ClaimOf(s, o).Some? ==> ClaimHolds(s.graph, ClaimOf(s, o).value))
    && OwnersApart(s)
  }

  ghost predicate LinkIdsBelow(g: GraphView, next: nat) {
    forall l :: l in g.links ==> l < next
  }

  ghost predicate Registered(s: DriverState) {
    && s.processors.Keys == s.effects.Keys
    && (forall k :: k in s.effects ==> s.effects[k].instanceId == k)
    && (forall r :: r in s.recorders ==> r < s.nextRecorderId)
  }

  /** What holds in every reachable state. */
  ghost predicate Inv(s: DriverState) {
    var sound := WellFormed(s.graph) && LinkIdsBelow(s.graph, s.nextLinkId) && Owned(s) && Registered(s);
    sound
  }

  /** Everything but the id counters is as it was. */
  ghost predicate OnlyCountersMoved(s: DriverState, t: DriverState) {
    && t.nextLinkId >= s.nextLinkId && t.nextEffectId >= s.nextEffectId
    && t == s.(nextLinkId := t.nextLinkId, nextEffectId := t.nextEffectId)
  }

  ghost predicate SameOwners(s: DriverState, t: DriverState, but: set<Owner>) {
    forall o :: o !in but ==> ClaimOf(t, o) == ClaimOf(s, o)
  }

  ghost const NOTHING: DriverState :=
    DriverState(GraphView(map[], map[], map[]), 1, 1000, map[], map[], map[], 1, map[], None)

  type SoundState = s: DriverState | Inv(s) ghost witness NOTHING

  lemma OwnedStays(s: DriverState, t: DriverState)
    requires Owned(s) && SameOwners(s, t, {})
    requires t.graph.nodes == s.graph.nodes && t.graph.ports == s.graph.ports
    ensures Owned(t)
  {
    forall o | ClaimOf(t, o).Some?
      ensures ClaimHolds(t.graph, ClaimOf(t, o).value)
    {
      ClaimStays(s.graph, t.graph, ClaimOf(s, o).value);
    }
  }

  /** Owners stay apart if one leaves, or if a new one takes a node no other has. */
  lemma StillApart(s: DriverState, t: DriverState, owner: Owner)
    requires OwnersApart(s) && SameOwners(s, t, {owner})
    requires ClaimOf(t, owner).Some? ==>
               forall o :: o != owner && ClaimOf(s, o).Some? ==> ClaimOf(s, o).value.node != ClaimOf(t, owner).value.node
    ensures OwnersApart(t)
  {
  }

  lemma OwnedGrows(s: DriverState, t: DriverState, owner: Owner, node: Node, p: Port, q: Option<Port>)
    requires Owned(s) && Fits(s.graph, node, p, q) && Belong(node, p, q)
    requires t.graph == Grown(s.graph, node, p, q) && SameOwners(s, t, {owner})
    requires ClaimOf(s, owner).None? && ClaimOf(t, owner) == Some(ClaimFor(node, p, q))
    ensures Owned(t)
  {
    GrownHasClaim(s.graph, node, p, q);
    forall o | o != owner && ClaimOf(s, o).Some?
      ensures ClaimHolds(t.graph, ClaimOf(s, o).value) && ClaimOf(s, o).value.node != node.id
    {
      GrownKeepsClaim(s.graph, node, p, q, ClaimOf(s, o).value);
    }
    StillApart(s, t, owner);
  }

  lemma OwnedShrinks(s: DriverState, t: DriverState, owner: Owner, c: Claim)
    requires PortsListed(s.graph) && Owned(s) && SameOwners(s, t, {owner})
    requires ClaimOf(s, owner) == Some(c) && ClaimOf(t, owner).None?
    requires t.graph == Pruned(s.graph, c)
    ensures Owned(t)
  {
    forall o | o != owner && ClaimOf(s, o).Some?
      ensures ClaimHolds(t.graph, ClaimOf(s, o).value)
    {
      OtherClaimStays(s, t, owner, c, o, ClaimOf(s, o).value);
    }
    StillApart(s, t, owner);
  }

  lemma OtherClaimStays(s: DriverState, t: DriverState, owner: Owner, c: Claim, o: Owner, d: Claim)
    requires PortsListed(s.graph) && Owned(s) && o != owner
    requires ClaimOf(s, owner) == Some(c) && ClaimOf(s, o) == Some(d) && t.graph == Pruned(s.graph, c)
    ensures ClaimHolds(t.graph, d)
  {
    PrunedKeepsClaim(s.graph, c, d);
  }

  /** Changing links only. */
  lemma LinksKeepInv(s: SoundState, t: DriverState, g: SoundGraph)
    requires SameOwners(s, t, {}) && Registered(t) && t.graph == g
    requires g.nodes == s.graph.nodes && g.ports == s.graph.ports && LinkIdsBelow(g, t.nextLinkId)
    ensures Inv(t)
  {
    OwnedStays(s, t);
  }

  /** Links and counters changed, and nothing else. */
  ghost predicate Relinked(s: DriverState, t: DriverState) {
    t == s.(graph := s.graph.(links := t.graph.links), nextLinkId := t.nextLinkId, nextEffectId := t.nextEffectId)
  }

  lemma RelinkedKeepsInv(s: SoundState, t: DriverState)
    requires Relinked(s, t) && WellFormed(t.graph) && LinkIdsBelow(t.graph, t.nextLinkId)
    ensures Inv(t)
  {
    assert SameOwners(s, t, {});
    LinksKeepInv(s, t, t.graph);
  }

  lemma CountersKeepInv(s: SoundState, t: DriverState)
    requires OnlyCountersMoved(s, t)
    ensures Inv(t)
  {
    RelinkedKeepsInv(s, t);
  }

  /** A new owner with a new node. */
  lemma GrowKeepsInv(s: SoundState, t: DriverState, owner: Owner, node: Node, p: Port, q: Option<Port>)
    requires Fits(s.graph, node, p, q) && Belong(node, p, q)
    requires t.graph == Grown(s.graph, node, p, q) && SameOwners(s, t, {owner}) && t.nextLinkId == s.nextLinkId
    requires ClaimOf(s, owner).None? && ClaimOf(t, owner) == Some(ClaimFor(node, p, q)) && Registered(t)
    ensures Inv(t)
  {
    GrownKeeps(s.graph, node, p, q);
    OwnedGrows(s, t, owner, node, p, q);
  }

  /** An owner leaves with its node and everything attached to it. */
  lemma PruneKeepsInv(s: SoundState, t: DriverState, owner: Owner, c: Claim)
    requires SameOwners(s, t, {owner}) && Registered(t) && t.nextLinkId == s.nextLinkId
    requires ClaimOf(s, owner) == Some(c) && ClaimOf(t, owner).None?
    requires t.graph == Pruned(s.graph, c)
    ensures Inv(t)
  {
    assert ClaimHolds(s.graph, c);
    PrunedKeeps(s.graph, c);
    OwnedShrinks(s, t, owner, c);
  }

  // Endpoints.

  function ResolveAndValidate(g: GraphView, source: PortKey, destination: PortKey,
                              noSource: DriverError, noDestination: DriverError): DriverResult<(PortId, PortId)>
  {
    match ResolvePortKey(g, source)
    case None => Refused(noSource)
    case Some(output) =>
      match ResolvePortKey(g, destination)
      case None => Refused(noDestination)
      case Some(input) =>
        if output !in g.ports then Refused(GraphFailure(MissingPort(output)))
        else if input !in g.ports then Refused(GraphFailure(MissingPort(input)))
        else if !g.ports[output].direction.Source? then Refused(GraphFailure(NotSource(output)))
        else if !g.ports[input].direction.Sink? then Refused(GraphFailure(NotSink(input)))
        else Done((output, input))
  }

  function RestoreEndpoints(g: GraphView, source: PortKey, destination: PortKey): DriverResult<(PortId, PortId)> {
    ResolveAndValidate(g, source, destination, SourceDisappeared, DestinationDisappeared)
  }

  /** The two ports and the first link that joins them directly. */
  function LinkEndpoints(g: GraphView, source: PortKey, destination: PortKey): (r: DriverResult<(PortId, PortId, LinkId)>)
    ensures r.Done? ==>
              && r.value.0 in g.ports && r.value.1 in g.ports
              && r.value.2 in LinksBetween(g, r.value.0, r.value.1)
    ensures r.Done? ==>
              ResolvePortKey(g, source) == Some(r.value.0) && ResolvePortKey(g, destination) == Some(r.value.1)
  {
    match ResolveAndValidate(g, source, destination, SourceUnavailable, DestinationUnavailable)
    case Refused(error) => Refused(error)
    case Done(ends) =>
      var links := LinksBetween(g, ends.0, ends.1);
      if links == {} then Refused(NotLinked) else Done((ends.0, ends.1, SetMin(links)))
  }

  // Creating an effect node.

  const EFFECT_INPUT_NAME: string := "input"
  const EFFECT_OUTPUT_NAME: string := "output"

  function EffectNode(id: NodeId, request: EffectRequest, processor: Processor): Node {
    var name := processor.name + " (" + request.instanceId + ")";
    var node := NewNode(id, name, Effect);
    node.(effectInstanceId := Some(request.instanceId),
          identity := node.identity.(effectInstanceId := Some(request.instanceId)))
  }

  function EffectInput(id: NodeId): Port {
    Port(id + 1, id, EFFECT_INPUT_NAME, None, Sink, Audio)
  }

  function EffectOutput(id: NodeId): Port {
    Port(id + 2, id, EFFECT_OUTPUT_NAME, None, Source, Audio)
  }

  /** What is wrong with the ids a new node would get, in the order the graph store reports it. */
  function IdProblem(g: GraphView, node: NodeId, p: PortId, q: Option<PortId>): Option<GraphError> {
    if node in g.nodes then Some(DuplicateNode(node))
    else if p in g.ports then Some(DuplicatePort(p))
    else if q.Some? && q.value in g.ports then Some(DuplicatePort(q.value))
    else None
  }

  function CreateProblem(s: DriverState, request: EffectRequest, preparation: Preparation): Option<DriverError> {
    if request.instanceId in s.effects then Some(EffectAlreadyExists)
    else if preparation.Unprepared? then Some(PreparationFailed)
    else if preparation.processor.descriptorId != request.effectId then Some(PreparedForAnother)
    else None
  }

  function NewInstance(id: NodeId, request: EffectRequest): EffectInstance {
    EffectInstance(request.instanceId, request.effectId, id, id + 1, id + 2, None, None)
  }

  function WithEffect(s: DriverState, request: EffectRequest, processor: Processor): DriverState {
    var id := s.nextEffectId;
    s.(nextEffectId := id + 3,
       graph := Grown(s.graph, EffectNode(id, request, processor), EffectInput(id), Some(EffectOutput(id))),
       effects := s.effects[request.instanceId := NewInstance(id, request)],
       processors := s.processors[request.instanceId := processor])
  }

  /** A free effect node, or nothing but three ids used up. */
  function CreateOutcome(s: DriverState, request: EffectRequest, preparation: Preparation): Outcome<EffectInstance> {
    var problem := CreateProblem(s, request, preparation);
    if problem.Some? then Outcome(s, Refused(problem.value))
    else
      var id := s.nextEffectId;
      var ids := IdProblem(s.graph, id, id + 1, Some(id + 2));
      if ids.Some? then Outcome(s.(nextEffectId := id + 3), Refused(GraphFailure(ids.value)))
      else Outcome(WithEffect(s, request, preparation.processor), Done(NewInstance(id, request)))
  }

  // Inserting an effect into a link.

  /** The direct link replaced by source to effect and effect to destination. */
  function Rerouted(g: GraphView, original: LinkId, first: LinkId, output: PortId, input: PortId,
                    e: EffectInstance): GraphView
  {
    WithLink(WithLink(WithoutLink(g, original), Link(first, output, e.inputPort)), Link(first + 1, e.outputPort, input))
  }

  /** Either the link is rerouted through a new effect node, or only counters move. */
  function InsertBetween(s: DriverState, request: EffectRequest, preparation: Preparation, source: PortKey,
                         destination: PortKey, output: PortId, input: PortId, original: LinkId): Outcome<EffectInstance>
    requires output in s.graph.ports
  {
    var created := CreateOutcome(s, request, preparation);
    if created.result.Refused? then created
    else
      var e := created.result.value;
      var instance := e.(source := Some(source), destination := Some(destination));
      if s.graph.ports[output].portType != Audio then
        Outcome(s.(nextLinkId := s.nextLinkId + 2, nextEffectId := s.nextEffectId + 3),
                Refused(GraphFailure(IncompatiblePorts(output, e.inputPort))))
      else
        Outcome(created.state.(
                  nextLinkId := s.nextLinkId + 2,
                  graph := Rerouted(created.state.graph, original, s.nextLinkId, output, input, e),
                  effects := s.effects[request.instanceId := instance]),
                Done(instance))
  }

  function InsertOutcome(s: DriverState, request: EffectRequest, preparation: Preparation, source: PortKey,
                         destination: PortKey): Outcome<EffectInstance>
  {
    match LinkEndpoints(s.graph, source, destination)
    case Refused(error) => Outcome(s, Refused(error))
    case Done((output, input, original)) =>
      InsertBetween(s, request, preparation, source, destination, output, input, original)
  }

  // Removing an effect.

  function WithoutTouching(g: GraphView, c: Claim): GraphView {
    g.(links := Untouched(g.links, c.inputs, c.outputs))
  }

  function Dropped(s: DriverState, e: EffectInstance): DriverState {
    s.(graph := Pruned(s.graph, EffectClaim(e)),
       effects := s.effects - {e.instanceId},
       processors := s.processors - {e.instanceId})
  }

  /** Take `e` out and, if it was inserted, join its saved endpoints directly again. */
  function RemoveAndRestore(s: DriverState, e: EffectInstance, output: PortId, input: PortId): Outcome<()> {
    var bare := WithoutTouching(s.graph, EffectClaim(e));
    var t := s.(nextLinkId := s.nextLinkId + 1);
    match LinkProblem(bare, s.nextLinkId, output, input)
    case Some(error) => Outcome(t, Refused(GraphFailure(error)))
    case None => Outcome(Dropped(t.(graph := WithLink(bare, Link(s.nextLinkId, output, input))), e), Done(()))
  }

  function RemoveOutcome(s: DriverState, instanceId: string): Outcome<()> {
    if instanceId !in s.effects then Outcome(s, Refused(UnknownEffect))
    else
      var e := s.effects[instanceId];
      match (e.source, e.destination)
      case (None, None) => Outcome(Dropped(s, e), Done(()))
      case (Some(source), Some(destination)) => (
        match RestoreEndpoints(s.graph, source, destination)
        case Refused(error) => Outcome(s, Refused(error))
        case Done(ends) => RemoveAndRestore(s, e, ends.0, ends.1))
      case _ => Outcome(s, Refused(RoutingIncomplete))
  }

  // Every outcome keeps the invariant.

  lemma NewEffectParts(g: GraphView, id: NodeId, request: EffectRequest, node: Node, p: Port, q: Option<Port>,
                       processor: Processor)
    requires IdProblem(g, id, id + 1, Some(id + 2)).None?
    requires node == EffectNode(id, request, processor) && p == EffectInput(id) && q == Some(EffectOutput(id))
    ensures Fits(g, node, p, q) && Belong(node, p, q)
    ensures ClaimFor(node, p, q) == EffectClaim(NewInstance(id, request))
  {
  }

  lemma CreatedOwners(s: DriverState, request: EffectRequest, preparation: Preparation, t: DriverState)
    requires Registered(s) && CreateOutcome(s, request, preparation).result.Done?
    requires t == CreateOutcome(s, request, preparation).state
    ensures SameOwners(s, t, {EffectOf(request.instanceId)}) && Registered(t)
    ensures ClaimOf(s, EffectOf(request.instanceId)).None?
    ensures ClaimOf(t, EffectOf(request.instanceId)) == Some(EffectClaim(NewInstance(s.nextEffectId, request)))
  {
  }

  lemma CreateKeepsInv(s: SoundState, request: EffectRequest, preparation: Preparation, created: Outcome<EffectInstance>)
    requires created == CreateOutcome(s, request, preparation)
    ensures Inv(created.state)
    ensures created.result.Refused? ==> OnlyCountersMoved(s, created.state)
  {
    var t := created.state;
    if created.result.Done? {
      var id := s.nextEffectId;
      var node, p, q := EffectNode(id, request, preparation.processor), EffectInput(id), Some(EffectOutput(id));
      NewEffectParts(s.graph, id, request, node, p, q, preparation.processor);
      CreatedOwners(s, request, preparation, t);
      GrowKeepsInv(s, t, EffectOf(request.instanceId), node, p, q);
    } else {
      CountersKeepInv(s, t);
    }
  }

  /** A link about to be replaced by a detour through an effect. */
  datatype Detour = Detour(g: SoundGraph, e: EffectInstance, original: LinkId, output: PortId, input: PortId, next: LinkId)
  {
    function Half(): GraphView {
      WithLink(WithoutLink(g, original), Link(next, output, e.inputPort))
    }

    function Whole(): GraphView {
      Rerouted(g, original, next, output, input, e)
    }
  }

  ghost predicate HasAudioPort(g: GraphView, p: PortId, direction: Direction) {
    p in g.ports && g.ports[p].direction == direction && g.ports[p].portType == Audio
  }

  /** The link joins the two ports, and nothing yet touches the effect's audio ports. */
  ghost predicate Ready(d: Detour) {
    var ready :=
      && LinkIdsBelow(d.g, d.next) && d.e.inputPort != d.e.outputPort
      && HasAudioPort(d.g, d.e.inputPort, Sink) && HasAudioPort(d.g, d.e.outputPort, Source)
      && Untouched(d.g.links, {d.e.inputPort}, {d.e.outputPort}) == d.g.links
      && d.original in LinksBetween(d.g, d.output, d.input);
    ready
  }

  lemma ReadyEnds(d: Detour)
    requires Ready(d)
    ensures d.original in d.g.links && d.output in d.g.ports && d.input in d.g.ports
    ensures d.g.ports[d.output].direction == Source && d.g.ports[d.input].direction == Sink
    ensures d.g.ports[d.output].portType == d.g.ports[d.input].portType
    ensures d.input != d.e.inputPort && d.output != d.e.outputPort
  {
    JoinedPortsExist(d.g, d.original);
    UntouchedAll(d.g.links, {d.e.inputPort}, {d.e.outputPort});
  }

  /** The first hop is refused exactly when the source is not audio. */
  lemma FirstHop(d: Detour)
    requires Ready(d)
    ensures d.output in d.g.ports
    ensures LinkProblem(WithoutLink(d.g, d.original), d.next, d.output, d.e.inputPort)
         == if d.g.ports[d.output].portType == Audio then None else Some(IncompatiblePorts(d.output, d.e.inputPort))
  {
    ReadyEnds(d);
    UntouchedUnconnected(d.g, {d.e.inputPort}, {d.e.outputPort}, d.output, d.e.inputPort);
  }

  /** After an audio first hop the second always fits. */
  lemma SecondHop(d: Detour, half: GraphView, hop: Link)
    requires Ready(d) && HasAudioPort(d.g, d.output, Source) && half == d.Half()
    requires hop == Link(d.next + 1, d.e.outputPort, d.input)
    ensures LinkProblem(half, hop.id, hop.outputPort, hop.inputPort).None?
  {
    ReadyEnds(d);
    UntouchedUnconnected(d.g, {d.e.inputPort}, {d.e.outputPort}, d.e.outputPort, d.input);
  }

  lemma AddHop(g: SoundGraph, hop: Link) returns (h: SoundGraph)
    requires LinkProblem(g, hop.id, hop.outputPort, hop.inputPort).None?
    ensures h == WithLink(g, hop)
  {
    AddLinkKeeps(g, hop.id, hop.outputPort, hop.inputPort);
    h := WithLink(g, hop);
  }

  lemma HalfKeeps(d: Detour, hop: Link) returns (half: SoundGraph)
    requires Ready(d) && HasAudioPort(d.g, d.output, Source) && hop == Link(d.next + 1, d.e.outputPort, d.input)
    ensures half == d.Half() && LinkProblem(half, hop.id, hop.outputPort, hop.inputPort).None?
  {
    SecondHop(d, d.Half(), hop);
    FirstHop(d);
    RemoveLinkKeeps(d.g, d.original);
    half := AddHop(WithoutLink(d.g, d.original), Link(d.next, d.output, d.e.inputPort));
  }

  lemma TwoHops(d: Detour, hop: Link)
    requires hop == Link(d.next + 1, d.e.outputPort, d.input)
    ensures WithLink(d.Half(), hop) == d.Whole()
  {
  }

  lemma WholeKeeps(d: Detour) returns (whole: SoundGraph)
    requires Ready(d) && HasAudioPort(d.g, d.output, Source)
    ensures whole == d.Whole() && LinkIdsBelow(whole, d.next + 2)
  {
    var hop := Link(d.next + 1, d.e.outputPort, d.input);
    TwoHops(d, hop);
    HopsBelow(d);
    var half := HalfKeeps(d, hop);
    whole := AddHop(half, hop);
  }

  lemma HopsBelow(d: Detour)
    requires LinkIdsBelow(d.g, d.next)
    ensures LinkIdsBelow(d.Whole(), d.next + 2)
  {
  }

  /** The first hop takes the place of the direct connection. */
  lemma HalfPairs(d: Detour)
    requires Ready(d) && HasAudioPort(d.g, d.output, Source)
    ensures Pairs(d.Half()) == Pairs(d.g) - {(d.output, d.input)} + {(d.output, d.e.inputPort)}
  {
    FirstHop(d);
    ReadyEnds(d);
    RemoveLinkPairs(d.g, d.original);
    AddLinkPairs(WithoutLink(d.g, d.original), d.next, d.output, d.e.inputPort);
  }

  /** The detour replaces exactly the direct connection by its two hops. */
  lemma DetourReplacesPair(d: Detour)
    requires Ready(d) && HasAudioPort(d.g, d.output, Source)
    ensures Pairs(d.Whole()) == Pairs(d.g) - {(d.output, d.input)}
                                + {(d.output, d.e.inputPort), (d.e.outputPort, d.input)}
  {
    var hop := Link(d.next + 1, d.e.outputPort, d.input);
    TwoHops(d, hop);
    HalfPairs(d);
    SecondHop(d, d.Half(), hop);
    AddLinkPairs(d.Half(), hop.id, hop.outputPort, hop.inputPort);
  }

  /** New audio ports in a graph with the same links make it ready for the detour. */
  lemma NewPortsAreReady(g: SoundGraph, d: Detour)
    requires LinkIdsBelow(d.g, d.next) && d.g.links == g.links
    requires d.e.inputPort !in g.ports && d.e.outputPort !in g.ports && d.e.inputPort != d.e.outputPort
    requires HasAudioPort(d.g, d.e.inputPort, Sink) && HasAudioPort(d.g, d.e.outputPort, Source)
    requires d.original in LinksBetween(g, d.output, d.input)
    ensures Ready(d)
  {
    NewPortsUntouched(g, g.links, {d.e.inputPort}, {d.e.outputPort});
  }

  lemma CreatedPorts(s: DriverState, request: EffectRequest, preparation: Preparation, created: Outcome<EffectInstance>,
                     g: GraphView, e: EffectInstance)
    requires created == CreateOutcome(s, request, preparation) && created.result == Done(e) && g == created.state.graph
    ensures g.links == s.graph.links && e.inputPort != e.outputPort
    ensures e.inputPort !in s.graph.ports && e.outputPort !in s.graph.ports
    ensures HasAudioPort(g, e.inputPort, Sink) && HasAudioPort(g, e.outputPort, Source)
    ensures forall p :: p in s.graph.ports ==> p in g.ports && g.ports[p] == s.graph.ports[p]
    ensures created.state.nextLinkId == s.nextLinkId
  {
  }

  /** A freshly created effect stands ready in the graph. */
  lemma CreatedIsReady(s: SoundState, request: EffectRequest, preparation: Preparation, created: Outcome<EffectInstance>,
                       d: Detour)
    requires created == CreateOutcome(s, request, preparation) && created.result == Done(d.e)
    requires d.g == created.state.graph && d.next == s.nextLinkId
    requires d.output in s.graph.ports && d.original in LinksBetween(s.graph, d.output, d.input)
    ensures Ready(d) && Inv(created.state)
    ensures d.output in d.g.ports && d.g.ports[d.output] == s.graph.ports[d.output]
  {
    CreateKeepsInv(s, request, preparation, created);
    CreatedPorts(s, request, preparation, created, d.g, d.e);
    NewPortsAreReady(s.graph, d);
  }

  lemma SavedRouting(created: DriverState, id: string, e: EffectInstance, t: DriverState)
    requires Registered(created) && id in created.effects && t.effects == created.effects[id := e]
    requires e.instanceId == id && EffectClaim(e) == EffectClaim(created.effects[id])
    requires t == created.(graph := t.graph, nextLinkId := t.nextLinkId, effects := t.effects)
    ensures SameOwners(created, t, {}) && Registered(t)
  {
  }

  /** Swapping the link for the detour in a state that already has the effect. */
  lemma RerouteKeepsInv(created: SoundState, d: Detour, e: EffectInstance, t: DriverState)
    requires Ready(d) && HasAudioPort(d.g, d.output, Source) && d.g == created.graph
    requires e.instanceId in created.effects && EffectClaim(e) == EffectClaim(created.effects[e.instanceId])
    requires t == created.(graph := d.Whole(), nextLinkId := d.next + 2, effects := created.effects[e.instanceId := e])
    ensures Inv(t)
  {
    var whole := WholeKeeps(d);
    SavedRouting(created, e.instanceId, e, t);
    LinksKeepInv(created, t, whole);
  }

  /** A successful insertion is the creation followed by the detour. */
  lemma InsertedShape(s: DriverState, request: EffectRequest, preparation: Preparation, source: PortKey,
                      destination: PortKey, output: PortId, input: PortId, original: LinkId,
                      created: Outcome<EffectInstance>, done: Outcome<EffectInstance>)
    requires output in s.graph.ports && created == CreateOutcome(s, request, preparation)
    requires done == InsertBetween(s, request, preparation, source, destination, output, input, original)
    requires done.result.Done?
    ensures created.result.Done? && s.graph.ports[output].portType == Audio
    ensures var before, e, made := created.state, done.result.value, created.result.value;
      && e == made.(source := Some(source), destination := Some(destination))
      && e.instanceId in before.effects && before.effects[e.instanceId] == made
      && done.state == before.(
           graph := Rerouted(before.graph, original, s.nextLinkId, output, input, made),
           nextLinkId := s.nextLinkId + 2,
           effects := before.effects[e.instanceId := e])
  {
  }

  /** From `created` on, either the detour `d` was laid and its ends saved, or everything went back to `before`. */
  ghost predicate Detoured(before: DriverState, created: DriverState, d: Detour, instance: EffectInstance,
                           result: DriverResult<EffectInstance>, t: DriverState)
    requires d.output in before.graph.ports
  {
    // Named, so that it is proved and used as one fact.
    var detoured :=
      if before.graph.ports[d.output].portType == Audio then
        && result == Done(instance)
        && t == created.(graph := d.Whole(), nextLinkId := d.next + 2,
                         effects := created.effects[instance.instanceId := instance])
      else
        && result == Refused(GraphFailure(IncompatiblePorts(d.output, d.e.inputPort)))
        && t == before.(nextLinkId := d.next + 2, nextEffectId := created.nextEffectId);
    detoured
  }

  /** Creation and detour together are the insertion. */
  lemma InsertedByDetour(s: DriverState, request: EffectRequest, preparation: Preparation, source: PortKey,
                         destination: PortKey, output: PortId, input: PortId, original: LinkId,
                         created: DriverState, d: Detour, instance: EffectInstance,
                         result: DriverResult<EffectInstance>, t: DriverState)
    requires output in s.graph.ports && Outcome(created, Done(d.e)) == CreateOutcome(s, request, preparation)
    requires instance == d.e.(source := Some(source), destination := Some(destination))
    requires d == Detour(d.g, d.e, original, output, input, s.nextLinkId) && d.g == created.graph
    requires Detoured(s, created, d, instance, result, t)
    ensures Outcome(t, result) == InsertBetween(s, request, preparation, source, destination, output, input, original)
  {
    var effects := s.effects;
    assert effects[instance.instanceId := d.e][instance.instanceId := instance] == effects[instance.instanceId := instance];
  }

  /** Success replaces exactly the direct link; a refusal leaves everything but the counters alone. */
  lemma InsertKeepsInv(s: SoundState, request: EffectRequest, preparation: Preparation, source: PortKey,
                       destination: PortKey, output: PortId, input: PortId, original: LinkId, done: Outcome<EffectInstance>)
    requires output in s.graph.ports && original in LinksBetween(s.graph, output, input)
    requires done == InsertBetween(s, request, preparation, source, destination, output, input, original)
    ensures Inv(done.state)
    ensures done.result.Refused? ==> OnlyCountersMoved(s, done.state)
  {
    var created := CreateOutcome(s, request, preparation);
    if done.result.Done? {
      InsertedShape(s, request, preparation, source, destination, output, input, original, created, done);
      DetourKeepsInv(s, request, preparation, created, output, input, original, done.result.value, done.state);
    } else {
      CountersKeepInv(s, done.state);
    }
  }

  lemma DetourKeepsInv(s: SoundState, request: EffectRequest, preparation: Preparation, created: Outcome<EffectInstance>,
                       output: PortId, input: PortId, original: LinkId, e: EffectInstance, t: DriverState)
    requires output in s.graph.ports && original in LinksBetween(s.graph, output, input)
    requires s.graph.ports[output].portType == Audio
    requires created == CreateOutcome(s, request, preparation) && created.result.Done?
    requires var before := created.state;
      && e.instanceId in before.effects && EffectClaim(e) == EffectClaim(before.effects[e.instanceId])
      && t == before.(
           graph := Rerouted(before.graph, original, s.nextLinkId, output, input, created.result.value),
           nextLinkId := s.nextLinkId + 2,
           effects := before.effects[e.instanceId := e])
    ensures Inv(t)
  {
    CreateKeepsInv(s, request, preparation, created);
    var d := Detour(created.state.graph, created.result.value, original, output, input, s.nextLinkId);
    CreatedIsReady(s, request, preparation, created, d);
    ReadyEnds(d);
    RerouteKeepsInv(created.state, d, e, t);
  }

  lemma DroppedKeepsInv(s: SoundState, e: EffectInstance, t: DriverState)
    requires e.instanceId in s.effects && s.effects[e.instanceId] == e && t == Dropped(s, e)
    ensures Inv(t)
  {
    PruneKeepsInv(s, t, EffectOf(e.instanceId), EffectClaim(e));
  }

  lemma JoinedKeepsInv(s: SoundState, c: Claim, output: PortId, input: PortId, t: DriverState)
    requires LinkProblem(WithoutTouching(s.graph, c), s.nextLinkId, output, input).None?
    requires t == s.(nextLinkId := s.nextLinkId + 1,
                     graph := WithLink(WithoutTouching(s.graph, c), Link(s.nextLinkId, output, input)))
    ensures Inv(t)
  {
    var bare := Bare(s.graph, c);
    var joined := AddHop(bare, Link(s.nextLinkId, output, input));
    JoinedBelow(s.graph, c, s.nextLinkId, t.graph);
    RelinkedKeepsInv(s, t);
  }

  lemma Bare(g: SoundGraph, c: Claim) returns (bare: SoundGraph)
    ensures bare == WithoutTouching(g, c)
  {
    FewerLinksKeep(g, WithoutTouching(g, c));
    bare := WithoutTouching(g, c);
  }

  lemma JoinedBelow(g: GraphView, c: Claim, next: LinkId, h: GraphView)
    requires LinkIdsBelow(g, next) && h.links.Keys <= WithoutTouching(g, c).links.Keys + {next}
    ensures LinkIdsBelow(h, next + 1)
  {
  }

  /** Joining the endpoints first and dropping the effect then. */
  lemma RestoreKeepsInv(s: SoundState, e: EffectInstance, output: PortId, input: PortId, done: Outcome<()>)
    requires e.instanceId in s.effects && s.effects[e.instanceId] == e
    requires done == RemoveAndRestore(s, e, output, input)
    ensures Inv(done.state)
    ensures done.result.Refused? ==> OnlyCountersMoved(s, done.state)
  {
    if done.result.Done? {
      var joined := s.(nextLinkId := s.nextLinkId + 1,
                       graph := WithLink(WithoutTouching(s.graph, EffectClaim(e)), Link(s.nextLinkId, output, input)));
      JoinedKeepsInv(s, EffectClaim(e), output, input, joined);
      DroppedKeepsInv(joined, e, done.state);
    } else {
      CountersKeepInv(s, done.state);
    }
  }

  lemma RemoveKeepsInv(s: SoundState, instanceId: string, done: Outcome<()>)
    requires done == RemoveOutcome(s, instanceId)
    ensures Inv(done.state)
    ensures done.result.Refused? ==> OnlyCountersMoved(s, done.state)
  {
    if instanceId in s.effects {
      var e := s.effects[instanceId];
      if e.source.Some? && e.destination.Some? {
        var ends := RestoreEndpoints(s.graph, e.source.value, e.destination.value);
        if ends.Done? {
          RestoreKeepsInv(s, e, ends.value.0, ends.value.1, done);
        }
      } else if done.result.Done? {
        DroppedKeepsInv(s, e, done.state);
      }
    }
  }

  /** Apart from graph and counters, `created` differs from `before` only in having the effect. */
  ghost predicate OnlyAdds(before: DriverState, created: DriverState, e: EffectInstance) {
    var onlyAdds :=
      && created.effects - {e.instanceId} == before.effects
      && created.processors - {e.instanceId} == before.processors
      && created == before.(graph := created.graph, effects := created.effects, processors := created.processors,
                            nextEffectId := created.nextEffectId, nextLinkId := created.nextLinkId);
    onlyAdds
  }

  lemma CreatedRegistry(s: DriverState, request: EffectRequest, preparation: Preparation, created: Outcome<EffectInstance>)
    requires created == CreateOutcome(s, request, preparation) && created.result.Done? && Registered(s)
    ensures OnlyAdds(s, created.state, created.result.value)
  {
    assert request.instanceId !in s.effects && request.instanceId !in s.processors;
  }

  lemma CreationUndone(s: SoundState, request: EffectRequest, preparation: Preparation, created: Outcome<EffectInstance>)
    requires created == CreateOutcome(s, request, preparation) && created.result.Done?
    ensures OnlyAdds(s, created.state, created.result.value)
    ensures Pruned(created.state.graph, EffectClaim(created.result.value)) == s.graph
  {
    var id := s.nextEffectId;
    var node, p, q := EffectNode(id, request, preparation.processor), EffectInput(id), Some(EffectOutput(id));
    CreatedRegistry(s, request, preparation, created);
    NewEffectParts(s.graph, id, request, node, p, q, preparation.processor);
    GrowThenPrune(s.graph, node, p, q, EffectClaim(created.result.value));
  }

  // Recorders, video filters and the screen capture.

  function RecorderNode(id: NodeId, name: string): Node { NewNode(id, name, NodeType.Recorder) }

  function RecorderInput(id: NodeId): Port { Port(id + 1, id, "record", None, Sink, Audio) }

  function FilterNode(id: NodeId, kind: string, instance: string): Node {
    NewNode(id, "Video " + kind + " (" + instance + ")", Effect)
  }

  function FilterInput(id: NodeId): Port { Port(id + 1, id, "video_in", None, Sink, Video) }

  function FilterOutput(id: NodeId): Port { Port(id + 2, id, "video_out", None, Source, Video) }

  function CaptureNode(id: NodeId): Node {
    NewNode(id, "Demo Screen Capture", PipeWire).(serial := Some(id + 2))
  }

  function CapturePort(id: NodeId): Port { Port(id + 1, id, "capture", None, Source, Video) }

  function PortOption(q: Option<Port>): Option<PortId> {
    if q.Some? then Some(q.value.id) else None
  }

  function WithRecorder(s: DriverState, id: NodeId, name: string): DriverState {
    s.(nextEffectId := id + 2, nextRecorderId := s.nextRecorderId + 1,
       graph := Grown(s.graph, RecorderNode(id, name), RecorderInput(id), None),
       recorders := s.recorders[s.nextRecorderId := DemoRecorder(id, id + 1, Idle, false)])
  }

  function WithFilter(s: DriverState, id: NodeId, kind: string, instance: string): DriverState {
    s.(nextEffectId := id + 3,
       graph := Grown(s.graph, FilterNode(id, kind, instance), FilterInput(id), Some(FilterOutput(id))),
       filters := s.filters[instance := VideoFilter(kind, id, id + 1, id + 2)])
  }

  function WithCapture(s: DriverState, id: NodeId): DriverState {
    s.(nextEffectId := id + 3,
       graph := Grown(s.graph, CaptureNode(id), CapturePort(id), None),
       capture := Some(Capture(id, id + 1, id + 2)))
  }

  function WithoutRecorder(s: DriverState, recorder: nat): DriverState
    requires recorder in s.recorders
  {
    s.(graph := Pruned(s.graph, RecorderClaim(s.recorders[recorder])), recorders := s.recorders - {recorder})
  }

  lemma RecorderKeepsInv(s: SoundState, id: NodeId, name: string, t: DriverState)
    requires IdProblem(s.graph, id, id + 1, None).None? && t == WithRecorder(s, id, name)
    ensures Inv(t)
  {
    var owner := RecorderOf(s.nextRecorderId);
    assert SameOwners(s, t, {owner});
    GrowKeepsInv(s, t, owner, RecorderNode(id, name), RecorderInput(id), None);
  }

  lemma RecorderRefusedKeepsInv(s: SoundState, t: DriverState)
    requires t == s.(nextEffectId := t.nextEffectId, nextRecorderId := s.nextRecorderId + 1)
    ensures Inv(t)
  {
    assert SameOwners(s, t, {});
    LinksKeepInv(s, t, s.graph);
  }

  lemma FilterOwners(s: DriverState, id: NodeId, kind: string, instance: string, t: DriverState)
    requires Registered(s) && instance !in s.filters && t == WithFilter(s, id, kind, instance)
    ensures SameOwners(s, t, {FilterOf(instance)}) && Registered(t) && ClaimOf(s, FilterOf(instance)).None?
    ensures ClaimOf(t, FilterOf(instance))
         == Some(ClaimFor(FilterNode(id, kind, instance), FilterInput(id), Some(FilterOutput(id))))
  {
    assert ClaimFor(FilterNode(id, kind, instance), FilterInput(id), Some(FilterOutput(id)))
        == FilterClaim(VideoFilter(kind, id, id + 1, id + 2));
  }

  lemma FilterKeepsInv(s: SoundState, id: NodeId, kind: string, instance: string, t: DriverState)
    requires IdProblem(s.graph, id, id + 1, Some(id + 2)).None? && instance !in s.filters
    requires t == WithFilter(s, id, kind, instance)
    ensures Inv(t)
  {
    FilterOwners(s, id, kind, instance, t);
    GrowKeepsInv(s, t, FilterOf(instance), FilterNode(id, kind, instance), FilterInput(id), Some(FilterOutput(id)));
  }

  function WithoutFilter(s: DriverState, instance: string): DriverState
    requires instance in s.filters
  {
    s.(graph := Pruned(s.graph, FilterClaim(s.filters[instance])), filters := s.filters - {instance})
  }

  lemma FilterGoneKeepsInv(s: SoundState, instance: string, t: DriverState)
    requires instance in s.filters && t == WithoutFilter(s, instance)
    ensures Inv(t)
  {
    PruneKeepsInv(s, t, FilterOf(instance), FilterClaim(s.filters[instance]));
  }

  function WithoutCapture(s: DriverState): DriverState
    requires s.capture.Some?
  {
    s.(graph := Pruned(s.graph, CaptureClaim(s.capture.value)), capture := None)
  }

  lemma CaptureGoneKeepsInv(s: SoundState, t: DriverState)
    requires s.capture.Some? && t == WithoutCapture(s)
    ensures Inv(t)
  {
    PruneKeepsInv(s, t, TheCapture, CaptureClaim(s.capture.value));
  }

  lemma CaptureIsClaimed(s: SoundState)
    requires s.capture.Some?
    ensures WellFormed(s.graph) && ClaimHolds(s.graph, CaptureClaim(s.capture.value))
  {
    assert ClaimOf(s, TheCapture) == Some(CaptureClaim(s.capture.value));
  }

  lemma CaptureKeepsInv(s: SoundState, id: NodeId, t: DriverState)
    requires IdProblem(s.graph, id, id + 1, None).None? && s.capture.None? && t == WithCapture(s, id)
    ensures Inv(t)
  {
    assert SameOwners(s, t, {TheCapture});
    GrowKeepsInv(s, t, TheCapture, CaptureNode(id), CapturePort(id), None);
  }

  lemma RecorderLinks(links: map<LinkId, Link>, r: DemoRecorder, kept: map<LinkId, Link>)
    requires kept == map l | l in links && links[l].inputPort != r.inputPort :: links[l]
    ensures kept == Untouched(links, RecorderClaim(r).inputs, RecorderClaim(r).outputs)
  {
  }

  lemma RecorderGoneKeepsInv(s: SoundState, recorder: nat, t: DriverState)
    requires recorder in s.recorders && t == WithoutRecorder(s, recorder)
    ensures Inv(t)
  {
    PruneKeepsInv(s, t, RecorderOf(recorder), RecorderClaim(s.recorders[recorder]));
  }

  lemma InitialInv(g: SoundGraph, next: nat, s: DriverState)
    requires LinkIdsBelow(g, next) && s == DriverState(g, next, 1000, map[], map[], map[], 1, map[], None)
    ensures Inv(s)
  {
  }

  // Undoing a creation.

  /** After the original link was cut, removing the effect leaves just that cut behind. */
  lemma CutThenDrop(before: DriverState, d: Detour)
    requires Ready(d) && Pruned(d.g, EffectClaim(d.e)) == before.graph
    ensures Pruned(WithoutLink(d.g, d.original), EffectClaim(d.e)) == WithoutLink(before.graph, d.original)
    ensures d.original in before.graph.links && before.graph.links[d.original] == d.g.links[d.original]
  {
    UntouchedAll(d.g.links, {d.e.inputPort}, {d.e.outputPort});
    UntouchedAll(d.g.links - {d.original}, {d.e.inputPort}, {d.e.outputPort});
  }

  /** After a successful creation everything a detour and its rollback rely on is in place. */
  lemma DetourBegins(s: SoundState, request: EffectRequest, preparation: Preparation, created: Outcome<EffectInstance>,
                     output: PortId, input: PortId, original: LinkId) returns (d: Detour)
    requires created == CreateOutcome(s, request, preparation) && created.result.Done?
    requires output in s.graph.ports && original in LinksBetween(s.graph, output, input)
    ensures d == Detour(d.g, created.result.value, original, output, input, s.nextLinkId) && d.g == created.state.graph
    ensures Ready(d) && OnlyAdds(s, created.state, d.e) && Pruned(d.g, EffectClaim(d.e)) == s.graph
    ensures output in d.g.ports && d.g.ports[output] == s.graph.ports[output]
    ensures created.state.nextLinkId == s.nextLinkId && WellFormed(s.graph)
  {
    CreateKeepsInv(s, request, preparation, created);
    d := Detour(created.state.graph, created.result.value, original, output, input, s.nextLinkId);
    CreatedIsReady(s, request, preparation, created, d);
    CreationUndone(s, request, preparation, created);
  }
}
