/** Scored endpoint matching that fails closed on ambiguity. */
module EndpointResolver {
  import opened GraphTypes
  import opened GraphStore
  import opened StableSort

  datatype MatchMode = Instance | Application | NamePattern

  datatype Selector = Selector(
    nodeType: NodeType,
    identity: NodeIdentity,
    portName: string,
    channel: Option<string>,
    direction: Direction,
    portType: PortType,
    matchMode: MatchMode)

  /** A saved port description. */
  datatype PortKey = PortKey(
    nodeName: string,
    nodeSerial: Option<nat>,
    nodeType: NodeType,
    portName: string,
    channel: Option<string>,
    direction: Direction,
    portType: PortType,
    identity: Option<NodeIdentity>,
    matchMode: MatchMode)
  {
    function ToSelector(): Selector {
      Selector(
        nodeType,
        match identity
        case Some(known) => known
        case None => NamedIdentity(nodeName).(objectSerial := nodeSerial),
        portName, channel, direction, portType, matchMode)
    }
  }

  datatype Resolution =
    | Exact(port: PortId)
    | UniqueFallback(port: PortId)
    | Ambiguous(ports: seq<PortId>)
    | Missing
  {
    /** Only an unambiguous result names a port. */
    function Resolved(): Option<PortId> {
      match this
      case Exact(p) => Some(p)
      case UniqueFallback(p) => Some(p)
      case Ambiguous(_) => None
      case Missing => None
    }
  }

  const RELAY_SOURCE_NODE_NAME: string := "qpwgraph-rs.relay.source"
  const RELAY_SINK_NODE_NAME: string := "qpwgraph-rs.relay.sink"

  /** The renamed port a bare `FL`/`FR` entry of the relay's own nodes stands for. */
  function LegacyRelayPortName(nodeName: string, portName: string, direction: Direction): Option<string> {
    if portName != "FL" && portName != "FR" then None
    else if nodeName == RELAY_SOURCE_NODE_NAME && direction == Source then
      Some(if portName == "FL" then "capture_FL" else "capture_FR")
    else if nodeName == RELAY_SINK_NODE_NAME && direction == Sink then
      Some(if portName == "FL" then "playback_FL" else "playback_FR")
    else None
  }

  /** `strip_suffix('*')`, or the name itself. */
  function PatternPrefix(pattern: string): string {
    if pattern != "" && pattern[|pattern| - 1] == '*' then pattern[..|pattern| - 1] else pattern
  }

  function Bonus(granted: bool, points: nat): nat {
    if granted then points else 0
  }

  /** Identity confidence of `node` for `selector`; the tier is chosen by what the selector knows. */
  function MatchScore(node: Node, selector: Selector): Option<nat> {
    var actual, expected := node.MatchingIdentity(), selector.identity;
    var sameName := expected.nodeName != "" && actual.nodeName == expected.nodeName;
    var sameRole := expected.mediaRole.Some? && expected.mediaRole == actual.mediaRole;
    if expected.effectInstanceId.Some? then
      (if actual.effectInstanceId == expected.effectInstanceId then Some(1000) else None)
    else if expected.applicationId.Some? then
      (if actual.applicationId != expected.applicationId then None
       else if !selector.matchMode.Instance? then Some(800)
       else Some(800 + Bonus(sameName, 70) + Bonus(sameRole, 20)
                     + Bonus(expected.objectSerial.Some? && expected.objectSerial == actual.objectSerial, 10)))
    else if expected.processBinary.Some? || expected.applicationName.Some? then
      (if expected.processBinary.Some? && expected.processBinary != actual.processBinary then None
       else if expected.applicationName.Some? && expected.applicationName != actual.applicationName then None
       else Some(620 + Bonus(sameRole, 30) + Bonus(selector.matchMode.Instance? && sameName, 30)))
    else if expected.objectSerial.Some? && expected.objectSerial == actual.objectSerial
            && (!selector.nodeType.PipeWire? || expected.nodeName == ""
                || expected.nodeName == actual.nodeName || expected.nodeName == node.name) then
      Some(600)
    else if expected.nodeName == "" then
      Some(100)
    else
      var matches :=
        if selector.matchMode.NamePattern? then
          var prefix := PatternPrefix(expected.nodeName);
          prefix <= node.name || prefix <= actual.nodeName
        else node.name == expected.nodeName || actual.nodeName == expected.nodeName;
      if matches then Some(450) else None
  }

  predicate HasApplicationIdentity(identity: NodeIdentity) {
    identity.applicationId.Some? || identity.processBinary.Some? || identity.applicationName.Some?
  }

  /** The score with which `port` is a candidate, if it is one. */
  function Candidate(g: GraphView, port: Port, selector: Selector): Option<nat> {
    var legacy := LegacyRelayPortName(selector.identity.nodeName, selector.portName, selector.direction);
    var exactName := port.name == selector.portName || (legacy.Some? && port.name == legacy.value);
    var applicationChannel :=
      !selector.matchMode.NamePattern? && HasApplicationIdentity(selector.identity)
      && selector.channel.Some? && selector.channel == port.channel;
    if !(exactName || applicationChannel) then None
    else if port.direction != selector.direction then None
    else if port.portType != selector.portType && !port.portType.UnknownPort? && !selector.portType.UnknownPort? then None
    else if port.nodeId !in g.nodes then None
    else
      var node := g.nodes[port.nodeId];
      if !selector.nodeType.UnknownNode? && node.nodeType != selector.nodeType then None
      else if port.name != selector.portName && node.name != selector.identity.nodeName
              && node.MatchingIdentity().nodeName != selector.identity.nodeName && !applicationChannel then None
      else if selector.channel.Some? && port.channel.Some? && selector.channel != port.channel then None
      else MatchScore(node, selector)
  }

  datatype Scored = Scored(score: nat, port: PortId)

  function HigherFirst(): (Scored, Scored) -> bool {
    (a: Scored, b: Scored) => a.score >= b.score
  }

  /** Candidates in port order. */
  function Candidates(g: GraphView, selector: Selector, order: seq<PortId>): seq<Scored>
    requires forall p :: p in order ==> p in g.ports
  {
    if order == [] then []
    else
      var rest := Candidates(g, selector, order[1..]);
      match Candidate(g, g.ports[order[0]], selector)
      case None => rest
      case Some(score) => [Scored(score, g.ports[order[0]].id)] + rest
  }

  /** The leading candidates with exactly `score`. */
  function TakeWhileScore(candidates: seq<Scored>, score: nat): seq<PortId> {
    if candidates == [] || candidates[0].score != score then []
    else [candidates[0].port] + TakeWhileScore(candidates[1..], score)
  }

  /** All candidates, best first. */
  function Ranked(g: GraphView, selector: Selector): seq<Scored> {
    AscendingHas(g.ports.Keys);
    Sort(Candidates(g, selector, Ascending(g.ports.Keys)), HigherFirst())
  }

  function Best(g: GraphView, selector: Selector): seq<PortId> {
    var ranked := Ranked(g, selector);
    if ranked == [] then [] else TakeWhileScore(ranked, ranked[0].score)
  }

  function TopScore(g: GraphView, selector: Selector): nat {
    var ranked := Ranked(g, selector);
    if ranked == [] then 0 else ranked[0].score
  }

  /** Nothing, a tie, or a single best port whose confidence decides what it is called. */
  function Verdict(best: seq<PortId>, score: nat): Resolution {
    if best == [] then Missing
    else if |best| > 1 then Ambiguous(best)
    else if score >= 800 then Exact(best[0])
    else UniqueFallback(best[0])
  }

  function ResolveEndpoint(g: GraphView, selector: Selector): Resolution {
    Verdict(Best(g, selector), TopScore(g, selector))
  }

  function ResolvePortKey(g: GraphView, key: PortKey): Option<PortId> {
    ResolveEndpoint(g, key.ToSelector()).Resolved()
  }

  /** The durable description of a port of the current graph. */
  function KeyOf(g: GraphView, port: PortId): Option<PortKey> {
    if port !in g.ports || g.ports[port].nodeId !in g.nodes then None
    else
      var p := g.ports[port];
      var node := g.nodes[p.nodeId];
      Some(PortKey(node.name, node.serial, node.nodeType, p.name, p.channel, p.direction, p.portType,
                   Some(node.MatchingIdentity()), Instance))
  }

  function LinksBetween(g: GraphView, output: PortId, input: PortId): set<LinkId> {
    set l | l in g.links && g.links[l].outputPort == output && g.links[l].inputPort == input
  }

  /** The first link between the two ports that the keys resolve to. */
  function FindLinkByKeys(g: GraphView, output: PortKey, input: PortKey): Option<Link> {
    match (ResolvePortKey(g, output), ResolvePortKey(g, input))
    case (Some(o), Some(i)) =>
      var links := LinksBetween(g, o, i);
      if links == {} then None else Some(g.links[SetMin(links)])
    case _ => None
  }

  // What resolution means, independent of sorting and of numeric ids.

  ghost predicate IsCandidate(g: GraphView, selector: Selector, p: PortId, score: nat) {
    p in g.ports && Candidate(g, g.ports[p], selector) == Some(score)
  }

  /** No candidate beats `p`. */
  ghost predicate IsTop(g: GraphView, selector: Selector, p: PortId) {
    exists score: nat :: IsCandidate(g, selector, p, score)
      && forall q, other: nat :: IsCandidate(g, selector, q, other) ==> other <= score
  }

  ghost function TopPorts(g: GraphView, selector: Selector): set<PortId> {
    set p | p in g.ports && IsTop(g, selector, p)
  }

  lemma {:induction false} CandidatesExact(g: GraphView, selector: Selector, order: seq<PortId>)
    requires forall p :: p in order ==> p in g.ports
    requires forall p :: p in g.ports ==> g.ports[p].id == p
    ensures forall c :: c in Candidates(g, selector, order)
              <==> c.port in order && IsCandidate(g, selector, c.port, c.score)
  {
    if order != [] {
      CandidatesExact(g, selector, order[1..]);
      assert order == [order[0]] + order[1..];
    }
  }

  lemma {:induction false} CandidatesDistinct(g: GraphView, selector: Selector, order: seq<PortId>)
    requires forall p :: p in order ==> p in g.ports
    requires forall p :: p in g.ports ==> g.ports[p].id == p
    requires Distinct(order)
    ensures Distinct(Candidates(g, selector, order))
  {
    if order != [] {
      CandidatesDistinct(g, selector, order[1..]);
      CandidatesExact(g, selector, order[1..]);
      assert order[0] !in order[1..];
    }
  }

  lemma {:induction false} TakeWhileTakesAllTop(sorted: seq<Scored>, score: nat)
    requires SortedBy(sorted, HigherFirst())
    requires sorted != [] ==> sorted[0].score <= score
    ensures forall p :: p in TakeWhileScore(sorted, score) <==> Scored(score, p) in sorted
    ensures |TakeWhileScore(sorted, score)| <= |sorted|
    ensures forall i :: 0 <= i < |TakeWhileScore(sorted, score)| ==>
              sorted[i] == Scored(score, TakeWhileScore(sorted, score)[i])
  {
    if sorted != [] {
      assert sorted == [sorted[0]] + sorted[1..];
      if sorted[0].score == score {
        assert forall j :: 1 <= j < |sorted| ==> HigherFirst()(sorted[0], sorted[j]);
        TakeWhileTakesAllTop(sorted[1..], score);
      } else {
        forall j | 0 <= j < |sorted|
          ensures sorted[j].score < score
        {
          assert j == 0 || HigherFirst()(sorted[0], sorted[j]);
        }
      }
    }
  }

  lemma RankedExact(g: GraphView, selector: Selector)
    requires Keyed(g)
    ensures forall c :: c in Ranked(g, selector) <==> IsCandidate(g, selector, c.port, c.score)
    ensures Distinct(Ranked(g, selector))
    ensures SortedBy(Ranked(g, selector), HigherFirst())
  {
    var order := Ascending(g.ports.Keys);
    AscendingHas(g.ports.Keys);
    AscendingIncreases(g.ports.Keys);
    var candidates := Candidates(g, selector, order);
    CandidatesExact(g, selector, order);
    CandidatesDistinct(g, selector, order);
    SortPermutes(candidates, HigherFirst());
    PermutationFacts(Ranked(g, selector), candidates);
    PermutationKeepsDistinct(candidates, Ranked(g, selector));
    SortSorts(candidates, HigherFirst());
  }

  /** The first ranked candidate is beaten by none. */
  lemma FirstIsHighest(g: GraphView, selector: Selector, q: PortId, other: nat)
    requires Keyed(g) && IsCandidate(g, selector, q, other)
    ensures Ranked(g, selector) != [] && other <= Ranked(g, selector)[0].score
  {
    RankedExact(g, selector);
    var ranked := Ranked(g, selector);
    assert Scored(other, q) in ranked;
    var j :| 0 <= j < |ranked| && ranked[j] == Scored(other, q);
    assert j == 0 || HigherFirst()(ranked[0], ranked[j]);
  }

  lemma BestHolds(g: GraphView, selector: Selector, p: PortId)
    requires Keyed(g)
    ensures p in Best(g, selector) <==> p in TopPorts(g, selector)
    ensures p in Best(g, selector) ==> IsCandidate(g, selector, p, TopScore(g, selector))
  {
    RankedExact(g, selector);
    var ranked := Ranked(g, selector);
    if ranked != [] {
      TakeWhileTakesAllTop(ranked, ranked[0].score);
      assert IsCandidate(g, selector, ranked[0].port, ranked[0].score);
    }
    if p in TopPorts(g, selector) {
      var score: nat :| IsCandidate(g, selector, p, score)
        && forall q, other: nat :: IsCandidate(g, selector, q, other) ==> other <= score;
      FirstIsHighest(g, selector, p, score);
      assert Scored(score, p) in ranked;
    }
    if p in Best(g, selector) {
      assert Scored(ranked[0].score, p) in ranked;
      forall q, other: nat | IsCandidate(g, selector, q, other)
        ensures other <= ranked[0].score
      {
        FirstIsHighest(g, selector, q, other);
      }
    }
  }

  /** `Best` lists each top-scoring port exactly once. */
  lemma BestDistinct(g: GraphView, selector: Selector)
    requires Keyed(g)
    ensures Distinct(Best(g, selector))
  {
    RankedExact(g, selector);
    var ranked := Ranked(g, selector);
    if ranked != [] {
      TakeWhileTakesAllTop(ranked, ranked[0].score);
      forall i, j | 0 <= i < j < |Best(g, selector)|
        ensures Best(g, selector)[i] != Best(g, selector)[j]
      {
        assert ranked[i] != ranked[j];
      }
    }
  }

  /**
  Resolution is decided by the set of top-scoring ports alone: none is `Missing`, several are
  `Ambiguous` with exactly that set, and a single one is `Exact` when its score is 800 or more.
  */
  lemma ResolutionIsTopSet(g: GraphView, selector: Selector)
    requires Keyed(g)
    ensures match ResolveEndpoint(g, selector)
      case Missing => TopPorts(g, selector) == {}
      case Exact(p) =>
        TopPorts(g, selector) == {p} && exists score: nat :: score >= 800 && IsCandidate(g, selector, p, score)
      case UniqueFallback(p) =>
        TopPorts(g, selector) == {p} && exists score: nat :: score < 800 && IsCandidate(g, selector, p, score)
      case Ambiguous(ports) => |ports| > 1 && Distinct(ports) && forall p :: p in ports <==> p in TopPorts(g, selector)
  {
    BestDistinct(g, selector);
    forall p
      ensures p in Best(g, selector) <==> p in TopPorts(g, selector)
    {
      BestHolds(g, selector, p);
    }
    var best := Best(g, selector);
    if |best| == 1 {
      assert best == [best[0]];
      BestHolds(g, selector, best[0]);
    } else if best == [] {
      assert TopPorts(g, selector) == {};
    }
  }

  lemma ScoreTiers(node: Node, selector: Selector)
    ensures var score, actual, expected := MatchScore(node, selector), node.MatchingIdentity(), selector.identity;
      score.Some? && score.value >= 800 ==>
        || (expected.effectInstanceId.Some? && actual.effectInstanceId == expected.effectInstanceId)
        || (expected.applicationId.Some? && actual.applicationId == expected.applicationId)
  {
  }

  /** An exact result is always backed by a matching effect instance or application id. */
  lemma ExactMeansIdentity(g: GraphView, selector: Selector)
    requires Keyed(g) && ResolveEndpoint(g, selector).Exact?
    ensures var p := ResolveEndpoint(g, selector).port;
      && p in g.ports && g.ports[p].nodeId in g.nodes
      && var actual, expected := g.nodes[g.ports[p].nodeId].MatchingIdentity(), selector.identity;
         || (expected.effectInstanceId.Some? && actual.effectInstanceId == expected.effectInstanceId)
         || (expected.applicationId.Some? && actual.applicationId == expected.applicationId)
  {
    ResolutionIsTopSet(g, selector);
    var p := ResolveEndpoint(g, selector).port;
    ScoreTiers(g.nodes[g.ports[p].nodeId], selector);
  }

  /** The node a key was taken from scores at least as high as any other node. */
  lemma OwnNodeScoresHighest(own: Node, other: Node, selector: Selector)
    requires selector.identity == own.MatchingIdentity() && selector.matchMode == Instance
    requires MatchScore(other, selector).Some?
    ensures MatchScore(own, selector).Some? && MatchScore(other, selector).value <= MatchScore(own, selector).value
  {
  }

  /** A saved key never resolves to a wrong port: it finds its own port, or reports an ambiguity that includes it. */
  lemma SavedKeyFindsItsPort(g: GraphView, p: PortId)
    requires Keyed(g) && p in g.ports && g.ports[p].nodeId in g.nodes
    ensures KeyOf(g, p).Some?
    ensures match ResolveEndpoint(g, KeyOf(g, p).value.ToSelector())
      case Exact(q) => q == p
      case UniqueFallback(q) => q == p
      case Ambiguous(ports) => p in ports
      case Missing => false
  {
    var selector := KeyOf(g, p).value.ToSelector();
    var own := g.nodes[g.ports[p].nodeId];
    SelfCandidate(g, p);
    var score := MatchScore(own, selector).value;
    assert IsCandidate(g, selector, p, score);
    forall q, other: nat | IsCandidate(g, selector, q, other)
      ensures other <= score
    {
      OwnNodeScoresHighest(own, g.nodes[g.ports[q].nodeId], selector);
    }
    assert p in TopPorts(g, selector);
    ResolutionIsTopSet(g, selector);
  }

  lemma SelfCandidate(g: GraphView, p: PortId)
    requires p in g.ports && g.ports[p].nodeId in g.nodes
    ensures var selector := KeyOf(g, p).value.ToSelector();
      && MatchScore(g.nodes[g.ports[p].nodeId], selector).Some?
      && Candidate(g, g.ports[p], selector) == MatchScore(g.nodes[g.ports[p].nodeId], selector)
  {
  }

  /** A saved key resolves to its own port or to nothing. */
  lemma SavedKeyNeverMisleads(g: GraphView, p: PortId, key: PortKey)
    requires Keyed(g) && KeyOf(g, p) == Some(key)
    ensures ResolvePortKey(g, key) == Some(p) || ResolvePortKey(g, key).None?
  {
    SavedKeyFindsItsPort(g, p);
  }

  /** The keys saved for a link's ends never find another link: they find this one exactly when both resolve. */
  lemma SavedKeysFindTheirLink(g: GraphView, l: LinkId, output: PortKey, input: PortKey)
    requires WellFormed(g) && l in g.links
    requires KeyOf(g, g.links[l].outputPort) == Some(output) && KeyOf(g, g.links[l].inputPort) == Some(input)
    ensures FindLinkByKeys(g, output, input)
         == if ResolvePortKey(g, output).Some? && ResolvePortKey(g, input).Some? then Some(g.links[l]) else None
  {
    var link := g.links[l];
    SavedKeyNeverMisleads(g, link.outputPort, output);
    SavedKeyNeverMisleads(g, link.inputPort, input);
    var links := LinksBetween(g, link.outputPort, link.inputPort);
    assert l in links;
    forall m | m in links
      ensures m == l
    {
      assert SamePair(g.links[m], g.links[l]);
    }
  }

  // Numeric ids play no part in resolution.

  /** `h` is `g` with every node and port id renamed one to one. */
  ghost predicate Renames(g: GraphView, h: GraphView, nodeMap: map<NodeId, NodeId>, portMap: map<PortId, PortId>) {
    && nodeMap.Keys == g.nodes.Keys && portMap.Keys == g.ports.Keys
    && (forall m, n :: m in nodeMap && n in nodeMap && nodeMap[m] == nodeMap[n] ==> m == n)
    && (forall p, q :: p in portMap && q in portMap && portMap[p] == portMap[q] ==> p == q)
    && (forall n :: n in nodeMap ==> nodeMap[n] in h.nodes && SameButId(g.nodes[n], h.nodes[nodeMap[n]]))
    && (forall q :: q in h.ports ==> exists p :: p in portMap && portMap[p] == q)
    && (forall p :: p in portMap ==>
          && portMap[p] in h.ports && g.ports[p].nodeId in nodeMap
          && h.ports[portMap[p]] == g.ports[p].(id := portMap[p], nodeId := nodeMap[g.ports[p].nodeId]))
  }

  /** The same node under another id; its port list is renamed too and plays no part in matching. */
  predicate SameButId(a: Node, b: Node) {
    a.(id := b.id, ports := b.ports) == b
  }

  lemma SameScore(a: Node, b: Node, selector: Selector)
    requires SameButId(a, b)
    ensures a.nodeType == b.nodeType && a.name == b.name && a.MatchingIdentity() == b.MatchingIdentity()
    ensures MatchScore(a, selector) == MatchScore(b, selector)
  {
  }

  /** Only what a port and its node say about themselves decides whether the port is a candidate. */
  lemma SameNodeSameCandidate(g: GraphView, h: GraphView, p: Port, q: Port, selector: Selector)
    requires p.nodeId in g.nodes && q.nodeId in h.nodes && SameButId(g.nodes[p.nodeId], h.nodes[q.nodeId])
    requires q == p.(id := q.id, nodeId := q.nodeId)
    ensures Candidate(h, q, selector) == Candidate(g, p, selector)
  {
    SameScore(g.nodes[p.nodeId], h.nodes[q.nodeId], selector);
  }

  lemma RenamedCandidate(g: GraphView, h: GraphView, nodeMap: map<NodeId, NodeId>, portMap: map<PortId, PortId>,
                         selector: Selector, p: PortId)
    requires Renames(g, h, nodeMap, portMap) && p in g.ports
    ensures Candidate(h, h.ports[portMap[p]], selector) == Candidate(g, g.ports[p], selector)
  {
    SameNodeSameCandidate(g, h, g.ports[p], h.ports[portMap[p]], selector);
  }

  lemma RenamedTop(g: GraphView, h: GraphView, nodeMap: map<NodeId, NodeId>, portMap: map<PortId, PortId>,
                   selector: Selector, p: PortId)
    requires Renames(g, h, nodeMap, portMap) && p in g.ports
    ensures IsTop(g, selector, p) <==> IsTop(h, selector, portMap[p])
  {
    forall q | q in g.ports
      ensures forall score: nat :: IsCandidate(g, selector, q, score) <==> IsCandidate(h, selector, portMap[q], score)
    {
      RenamedCandidate(g, h, nodeMap, portMap, selector, q);
    }
    if IsTop(g, selector, p) {
      var score: nat :| IsCandidate(g, selector, p, score)
        && forall q, other: nat :: IsCandidate(g, selector, q, other) ==> other <= score;
      forall r, other: nat | IsCandidate(h, selector, r, other)
        ensures other <= score
      {
        var q :| q in portMap && portMap[q] == r;
        assert IsCandidate(g, selector, q, other);
      }
      assert IsCandidate(h, selector, portMap[p], score);
    }
    if IsTop(h, selector, portMap[p]) {
      var score: nat :| IsCandidate(h, selector, portMap[p], score)
        && forall r, other: nat :: IsCandidate(h, selector, r, other) ==> other <= score;
      forall q, other: nat | IsCandidate(g, selector, q, other)
        ensures other <= score
      {
        assert IsCandidate(h, selector, portMap[q], other);
      }
      assert IsCandidate(g, selector, p, score);
    }
  }

  ghost predicate SameResolution(a: Resolution, b: Resolution, portMap: map<PortId, PortId>) {
    match (a, b)
    case (Missing, Missing) => true
    case (Exact(p), Exact(q)) => p in portMap && portMap[p] == q
    case (UniqueFallback(p), UniqueFallback(q)) => p in portMap && portMap[p] == q
    case (Ambiguous(ps), Ambiguous(qs)) =>
      && |ps| == |qs|
      && (forall p :: p in ps ==> p in portMap && portMap[p] in qs)
    case _ => false
  }

  lemma {:induction false} ImageSize(s: set<PortId>, image: set<PortId>, portMap: map<PortId, PortId>)
    requires forall p :: p in s ==> p in portMap && portMap[p] in image
    requires forall q :: q in image ==> exists p :: p in s && portMap[p] == q
    requires forall p, q :: p in portMap && q in portMap && portMap[p] == portMap[q] ==> p == q
    ensures |s| == |image|
  {
    if s == {} {
      assert image == {};
    } else {
      var p :| p in s;
      var rest, others := s - {p}, image - {portMap[p]};
      forall q | q in others
        ensures exists r :: r in rest && portMap[r] == q
      {
        var r :| r in s && portMap[r] == q;
        assert r in rest;
      }
      ImageSize(rest, others, portMap);
    }
  }

  lemma BestCounts(g: GraphView, selector: Selector)
    requires Keyed(g)
    ensures |Best(g, selector)| == |TopPorts(g, selector)|
  {
    BestDistinct(g, selector);
    forall p
      ensures p in Best(g, selector) <==> p in TopPorts(g, selector)
    {
      BestHolds(g, selector, p);
    }
    DistinctSize(Best(g, selector), TopPorts(g, selector));
  }

  lemma RenamedTopSet(g: GraphView, h: GraphView, nodeMap: map<NodeId, NodeId>, portMap: map<PortId, PortId>,
                      selector: Selector)
    requires Keyed(g) && Keyed(h) && Renames(g, h, nodeMap, portMap)
    ensures forall p :: p in TopPorts(g, selector) ==> p in portMap && portMap[p] in TopPorts(h, selector)
    ensures forall q :: q in TopPorts(h, selector) ==> exists p :: p in TopPorts(g, selector) && portMap[p] == q
    ensures |Best(g, selector)| == |Best(h, selector)|
  {
    forall p | p in g.ports
      ensures p in TopPorts(g, selector) <==> portMap[p] in TopPorts(h, selector)
    {
      RenamedTop(g, h, nodeMap, portMap, selector, p);
    }
    forall q | q in TopPorts(h, selector)
      ensures exists p :: p in TopPorts(g, selector) && portMap[p] == q
    {
      var p :| p in portMap && portMap[p] == q;
      assert p in TopPorts(g, selector);
    }
    ImageSize(TopPorts(g, selector), TopPorts(h, selector), portMap);
    BestCounts(g, selector);
    BestCounts(h, selector);
  }

  lemma BestIsRenamed(g: GraphView, h: GraphView, nodeMap: map<NodeId, NodeId>, portMap: map<PortId, PortId>,
                      selector: Selector, p: PortId)
    requires Keyed(g) && Keyed(h) && Renames(g, h, nodeMap, portMap)
    requires p in Best(g, selector)
    ensures p in portMap && portMap[p] in Best(h, selector)
    ensures TopScore(g, selector) == TopScore(h, selector)
  {
    RenamedTopSet(g, h, nodeMap, portMap, selector);
    BestHolds(g, selector, p);
    BestHolds(h, selector, portMap[p]);
    RenamedCandidate(g, h, nodeMap, portMap, selector, p);
  }

  lemma VerdictRenamed(best: seq<PortId>, score: nat, other: seq<PortId>, otherScore: nat, portMap: map<PortId, PortId>)
    requires |best| == |other|
    requires forall p :: p in best ==> p in portMap && portMap[p] in other && score == otherScore
    ensures SameResolution(Verdict(best, score), Verdict(other, otherScore), portMap)
  {
    if |best| == 1 {
      assert best[0] in best && portMap[best[0]] in other;
    }
  }

  /** Resolution commutes with any one-to-one renaming of node and port ids. */
  lemma ResolutionIgnoresIds(g: GraphView, h: GraphView, nodeMap: map<NodeId, NodeId>, portMap: map<PortId, PortId>,
                             selector: Selector)
    requires Keyed(g) && Keyed(h) && Renames(g, h, nodeMap, portMap)
    ensures SameResolution(ResolveEndpoint(g, selector), ResolveEndpoint(h, selector), portMap)
  {
    var best, other := Best(g, selector), Best(h, selector);
    RenamedTopSet(g, h, nodeMap, portMap, selector);
    forall p | p in best
      ensures p in portMap && portMap[p] in other && TopScore(g, selector) == TopScore(h, selector)
    {
      BestIsRenamed(g, h, nodeMap, portMap, selector, p);
    }
    VerdictRenamed(best, TopScore(g, selector), other, TopScore(h, selector), portMap);
  }
}
