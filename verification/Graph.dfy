/** Graph values: nodes, ports, links and their identities. */
module GraphTypes {

  datatype Option<+T> = None | Some(value: T)

  type NodeId = nat
  type PortId = nat
  type LinkId = nat

  datatype Direction = Source | Sink

  datatype NodeType =
    | PipeWire
    | Effect
    | Recorder
    | AlsaMidi
    | WindowsAudioEndpoint
    | WindowsAudioSession
    | WindowsMidi
    | UnknownNode

  datatype PortType = Audio | Video | MidiJack | MidiAlsa | UnknownPort

  /** The identity fields that matching looks at. */
  datatype NodeIdentity = NodeIdentity(
    applicationId: Option<string>,
    applicationName: Option<string>,
    processBinary: Option<string>,
    nodeName: string,
    mediaRole: Option<string>,
    objectSerial: Option<nat>,
    effectInstanceId: Option<string>)

  function NamedIdentity(name: string): NodeIdentity {
    NodeIdentity(None, None, None, name, None, None, None)
  }

  datatype Node = Node(
    id: NodeId,
    name: string,
    nodeType: NodeType,
    serial: Option<nat>,
    effectInstanceId: Option<string>,
    identity: NodeIdentity,
    ports: seq<PortId>)
  {
    /** The identity used for matching, filled in from the legacy fields where it is empty. */
    function MatchingIdentity(): NodeIdentity {
      identity.(
        nodeName := if identity.nodeName == "" then name else identity.nodeName,
        objectSerial := if identity.objectSerial.None? then serial else identity.objectSerial,
        effectInstanceId :=
          if identity.effectInstanceId.None? then effectInstanceId else identity.effectInstanceId)
    }
  }

  function NewNode(id: NodeId, name: string, nodeType: NodeType): Node {
    Node(id, name, nodeType, None, None, NamedIdentity(name), [])
  }

  datatype Port = Port(
    id: PortId,
    nodeId: NodeId,
    name: string,
    channel: Option<string>,
    direction: Direction,
    portType: PortType)

  datatype Link = Link(id: LinkId, outputPort: PortId, inputPort: PortId)

  /** A snapshot of the whole graph. */
  datatype GraphView = GraphView(
    nodes: map<NodeId, Node>,
    ports: map<PortId, Port>,
    links: map<LinkId, Link>)

  ghost predicate IsLeast(m: nat, s: set<nat>) {
    m in s && forall x :: x in s ==> m <= x
  }

  function SetMin(s: set<nat>): (m: nat)
    requires s != {}
    ensures IsLeast(m, s)
  {
    LeastExists(s);
    var m :| m in s && forall x :: x in s ==> m <= x;
    m
  }

  lemma {:induction false} LeastExists(s: set<nat>)
    requires s != {}
    ensures exists m :: IsLeast(m, s)
  {
    var y :| y in s;
    if s == {y} {
      assert IsLeast(y, s);
    } else {
      LeastExists(s - {y});
      var m :| IsLeast(m, s - {y});
      var least := if m <= y then m else y;
      forall x | x in s
        ensures least <= x
      {
        assert x == y || x in s - {y};
      }
      assert IsLeast(least, s);
    }
  }

  /** Keys in the order a `BTreeMap` is iterated. */
  function Ascending(keys: set<nat>): seq<nat> {
    if keys == {} then []
    else
      var first := SetMin(keys);
      [first] + Ascending(keys - {first})
  }

  lemma {:induction false} AscendingHas(keys: set<nat>)
    ensures forall x :: x in Ascending(keys) <==> x in keys
  {
    if keys != {} {
      AscendingHas(keys - {SetMin(keys)});
    }
  }

  lemma {:induction false} AscendingIncreases(keys: set<nat>)
    ensures |Ascending(keys)| == |keys|
    ensures forall i, j :: 0 <= i < j < |Ascending(keys)| ==> Ascending(keys)[i] < Ascending(keys)[j]
  {
    if keys != {} {
      var first := SetMin(keys);
      var rest := Ascending(keys - {first});
      AscendingIncreases(keys - {first});
      AscendingHas(keys - {first});
      forall j | 0 <= j < |rest|
        ensures first < rest[j]
      {
        assert rest[j] in keys - {first};
      }
    }
  }
}

/** The graph store. */
module GraphStore {
  import opened GraphTypes

  datatype GraphError =
    | DuplicateNode(node: NodeId)
    | DuplicatePort(port: PortId)
    | DuplicateLink(link: LinkId)
    | MissingNode(node: NodeId)
    | MissingPort(port: PortId)
    | NotSource(port: PortId)
    | NotSink(port: PortId)
    | IncompatiblePorts(output: PortId, input: PortId)
    | DuplicateConnection(output: PortId, input: PortId)
    | MissingLink(link: LinkId)

  datatype GraphResult<+T> = Success(value: T) | Failure(error: GraphError)

  predicate Connected(g: GraphView, output: PortId, input: PortId) {
    exists l :: l in g.links && g.links[l].outputPort == output && g.links[l].inputPort == input
  }

  /** Keys name their own records. */
  ghost predicate Keyed(g: GraphView) {
    && (forall n :: n in g.nodes ==> g.nodes[n].id == n)
    && (forall p :: p in g.ports ==> g.ports[p].id == p)
    && (forall l :: l in g.links ==> g.links[l].id == l)
  }

  ghost predicate Lists(node: Node, port: PortId) {
    port in node.ports
  }

  ghost predicate ListsOnce(node: Node) {
    forall i, j :: 0 <= i < j < |node.ports| ==> node.ports[i] != node.ports[j]
  }

  /** Every port is listed exactly once, by its own node, and nodes list nothing else. */
  ghost predicate PortsListed(g: GraphView) {
    && (forall n :: n in g.nodes ==> ListsOnce(g.nodes[n]))
    && (forall p :: p in g.ports ==> g.ports[p].nodeId in g.nodes && Lists(g.nodes[g.ports[p].nodeId], p))
    && (forall n, p :: n in g.nodes && Lists(g.nodes[n], p) ==> p in g.ports && g.ports[p].nodeId == n)
  }

  ghost predicate Joins(g: GraphView, link: Link) {
    && link.outputPort in g.ports && link.inputPort in g.ports
    && g.ports[link.outputPort].direction == Source
    && g.ports[link.inputPort].direction == Sink
    && g.ports[link.outputPort].portType == g.ports[link.inputPort].portType
  }

  predicate SamePair(a: Link, b: Link) {
    a.outputPort == b.outputPort && a.inputPort == b.inputPort
  }

  /** Links join existing sources to existing sinks of the same type, and no pair is linked twice. */
  ghost predicate LinksJoin(g: GraphView) {
    && (forall l :: l in g.links ==> Joins(g, g.links[l]))
    && (forall l, m :: l in g.links && m in g.links && SamePair(g.links[l], g.links[m]) ==> l == m)
  }

  ghost predicate WellFormed(g: GraphView) {
    // Named, so that it is proved and used as one fact.
    var sound := Keyed(g) && PortsListed(g) && LinksJoin(g);
    sound
  }

  type SoundGraph = g: GraphView | WellFormed(g) ghost witness GraphView(map[], map[], map[])

  /** The set of connected pairs, forgetting link ids. */
  ghost function Pairs(g: GraphView): set<(PortId, PortId)> {
    set l | l in g.links :: (g.links[l].outputPort, g.links[l].inputPort)
  }

  /** The first check an `add_link` fails, in the order the checks are made. */
  function LinkProblem(g: GraphView, link: LinkId, output: PortId, input: PortId): Option<GraphError> {
    if link in g.links then Some(DuplicateLink(link))
    else if output !in g.ports then Some(MissingPort(output))
    else if input !in g.ports then Some(MissingPort(input))
    else if g.ports[output].direction != Source then Some(NotSource(output))
    else if g.ports[input].direction != Sink then Some(NotSink(input))
    else if g.ports[output].portType != g.ports[input].portType then Some(IncompatiblePorts(output, input))
    else if Connected(g, output, input) then Some(DuplicateConnection(output, input))
    else None
  }

  function WithNode(g: GraphView, node: Node): GraphView {
    g.(nodes := g.nodes[node.id := node])
  }

  /** A port registered with its node, which comes to list it if it did not already. */
  function WithPort(g: GraphView, port: Port): GraphView
    requires port.nodeId in g.nodes
  {
    var node := g.nodes[port.nodeId];
    g.(nodes := g.nodes[port.nodeId :=
                  if port.id in node.ports then node else node.(ports := node.ports + [port.id])],
       ports := g.ports[port.id := port])
  }

  function WithLink(g: GraphView, link: Link): GraphView {
    g.(links := g.links[link.id := link])
  }

  function WithoutLink(g: GraphView, link: LinkId): GraphView {
    g.(links := g.links - {link})
  }

  class Graph {
    var nodes: map<NodeId, Node>
    var ports: map<PortId, Port>
    var links: map<LinkId, Link>

    constructor ()
      ensures View() == GraphView(map[], map[], map[])
    {
      nodes, ports, links := map[], map[], map[];
    }

    constructor From(g: GraphView)
      ensures View() == g
    {
      nodes, ports, links := g.nodes, g.ports, g.links;
    }

    function View(): GraphView
      reads this
    {
      GraphView(nodes, ports, links)
    }

    method AddNode(node: Node) returns (result: GraphResult<()>)
      modifies this`nodes
      ensures result == if node.id in old(nodes) then Failure(DuplicateNode(node.id)) else Success(())
      ensures View() == if result.Success? then WithNode(old(View()), node) else old(View())
    {
      if node.id in nodes {
        return Failure(DuplicateNode(node.id));
      }
      nodes := nodes[node.id := node];
      result := Success(());
    }

    method AddPort(port: Port) returns (result: GraphResult<()>)
      modifies this`nodes, this`ports
      ensures result == if port.nodeId !in old(nodes) then Failure(MissingNode(port.nodeId))
                        else if port.id in old(ports) then Failure(DuplicatePort(port.id))
                        else Success(())
      ensures result.Success? ==> View() == WithPort(old(View()), port)
      ensures result.Failure? ==> View() == old(View())
    {
      if port.nodeId !in nodes {
        return Failure(MissingNode(port.nodeId));
      }
      if port.id in ports {
        return Failure(DuplicatePort(port.id));
      }
      var node := nodes[port.nodeId];
      if port.id !in node.ports {
        node := node.(ports := node.ports + [port.id]);
      }
      nodes := nodes[port.nodeId := node];
      ports := ports[port.id := port];
      result := Success(());
    }

    method RemoveLink(link: LinkId) returns (result: GraphResult<Link>)
      modifies this`links
      ensures result == if link in old(links) then Success(old(links)[link]) else Failure(MissingLink(link))
      ensures View() == WithoutLink(old(View()), link)
    {
      if link !in links {
        return Failure(MissingLink(link));
      }
      result := Success(links[link]);
      links := links - {link};
    }

    method AddLink(link: LinkId, output: PortId, input: PortId) returns (result: GraphResult<Link>)
      modifies this`links
      ensures result == match LinkProblem(old(View()), link, output, input)
                        case Some(error) => Failure(error)
                        case None => Success(Link(link, output, input))
      ensures View() == if result.Success? then WithLink(old(View()), result.value) else old(View())
    {
      var problem := LinkProblem(View(), link, output, input);
      if problem.Some? {
        return Failure(problem.value);
      }
      var record := Link(link, output, input);
      links := links[link := record];
      result := Success(record);
    }

    /** Take over a link that exists already: only its id and its two ports are looked at. */
    method InsertExistingLink(link: Link) returns (result: GraphResult<()>)
      modifies this`links
      ensures result == if link.id in old(links) then Failure(DuplicateLink(link.id))
                        else if link.outputPort !in ports then Failure(MissingPort(link.outputPort))
                        else if link.inputPort !in ports then Failure(MissingPort(link.inputPort))
                        else Success(())
      ensures View() == if result.Success? then WithLink(old(View()), link) else old(View())
    {
      if link.id in links {
        return Failure(DuplicateLink(link.id));
      }
      if link.outputPort !in ports {
        return Failure(MissingPort(link.outputPort));
      }
      if link.inputPort !in ports {
        return Failure(MissingPort(link.inputPort));
      }
      links := links[link.id := link];
      result := Success(());
    }
  }

  // Every successful store operation keeps the graph well formed.

  lemma MorePortsKeepLinks(g: GraphView, h: GraphView)
    requires LinksJoin(g) && h.links == g.links
    requires forall p :: p in g.ports ==> p in h.ports && h.ports[p] == g.ports[p]
    ensures LinksJoin(h)
  {
    forall l | l in h.links
      ensures Joins(h, h.links[l])
    {
      assert Joins(g, g.links[l]);
    }
  }

  lemma SamePortsListed(g: GraphView, h: GraphView)
    requires PortsListed(g) && h.nodes == g.nodes && h.ports == g.ports
    ensures PortsListed(h)
  {
  }

  lemma NewLinkKeyed(g: GraphView, link: Link)
    requires Keyed(g)
    ensures Keyed(WithLink(g, link))
  {
  }

  lemma FewerLinksKeyed(g: GraphView, h: GraphView)
    requires Keyed(g) && h.nodes == g.nodes && h.ports == g.ports
    requires forall l :: l in h.links ==> l in g.links && h.links[l] == g.links[l]
    ensures Keyed(h)
  {
  }

  lemma AddNodeKeeps(g: SoundGraph, node: Node)
    requires node.id !in g.nodes && node.ports == []
    ensures WellFormed(WithNode(g, node))
  {
    var h := WithNode(g, node);
    MorePortsKeepLinks(g, h);
    assert PortsListed(h) by {
      assert h.ports == g.ports;
    }
  }

  lemma AddPortKeepsListing(g: GraphView, port: Port)
    requires PortsListed(g) && port.nodeId in g.nodes && port.id !in g.ports
    ensures PortsListed(WithPort(g, port))
    ensures WithPort(g, port).nodes == g.nodes[port.nodeId :=
              g.nodes[port.nodeId].(ports := g.nodes[port.nodeId].ports + [port.id])]
  {
    var node := g.nodes[port.nodeId];
    assert !Lists(node, port.id);
    var h := WithPort(g, port);
    forall n, p | n in h.nodes && Lists(h.nodes[n], p)
      ensures p in h.ports && h.ports[p].nodeId == n
    {
      if n != port.nodeId || p != port.id {
        assert Lists(g.nodes[n], p);
      }
    }
    forall p | p in h.ports
      ensures h.ports[p].nodeId in h.nodes && Lists(h.nodes[h.ports[p].nodeId], p)
    {
      if p != port.id {
        assert Lists(g.nodes[g.ports[p].nodeId], p);
      }
    }
  }

  lemma AddPortKeeps(g: SoundGraph, port: Port)
    requires port.nodeId in g.nodes && port.id !in g.ports
    ensures WellFormed(WithPort(g, port))
    ensures WithPort(g, port).nodes == g.nodes[port.nodeId :=
              g.nodes[port.nodeId].(ports := g.nodes[port.nodeId].ports + [port.id])]
  {
    AddPortKeepsListing(g, port);
    MorePortsKeepLinks(g, WithPort(g, port));
    assert Keyed(WithPort(g, port));
  }

  lemma NewLinkJoins(g: GraphView, link: Link)
    requires LinksJoin(g) && link.id !in g.links && Joins(g, link) && !Connected(g, link.outputPort, link.inputPort)
    ensures LinksJoin(WithLink(g, link))
  {
    var h := WithLink(g, link);
    forall l | l in h.links
      ensures Joins(h, h.links[l])
    {
      if l != link.id {
        assert Joins(g, g.links[l]);
      }
    }
    forall l | l in g.links
      ensures !SamePair(g.links[l], link) && !SamePair(link, g.links[l])
    {
    }
  }

  lemma AddLinkKeeps(g: SoundGraph, link: LinkId, output: PortId, input: PortId)
    requires LinkProblem(g, link, output, input).None?
    ensures WellFormed(WithLink(g, Link(link, output, input)))
  {
    var added := Link(link, output, input);
    NewLinkJoins(g, added);
    NewLinkKeyed(g, added);
    SamePortsListed(g, WithLink(g, added));
  }

  lemma AddLinkPairs(g: GraphView, link: LinkId, output: PortId, input: PortId)
    requires LinkProblem(g, link, output, input).None?
    ensures Pairs(WithLink(g, Link(link, output, input))) == Pairs(g) + {(output, input)}
    ensures (output, input) !in Pairs(g)
  {
    var h := WithLink(g, Link(link, output, input));
    forall pair | pair in Pairs(g)
      ensures pair in Pairs(h) && pair != (output, input)
    {
      var l :| l in g.links && pair == (g.links[l].outputPort, g.links[l].inputPort);
      assert h.links[l] == g.links[l];
    }
    assert h.links[link] == Link(link, output, input);
  }

  lemma FewerLinksJoin(g: GraphView, h: GraphView)
    requires LinksJoin(g) && h.ports == g.ports
    requires forall l :: l in h.links ==> l in g.links && h.links[l] == g.links[l]
    ensures LinksJoin(h)
  {
    forall l | l in h.links
      ensures Joins(h, h.links[l])
    {
      assert Joins(g, g.links[l]);
    }
    forall l, m | l in h.links && m in h.links && SamePair(h.links[l], h.links[m])
      ensures l == m
    {
      assert SamePair(g.links[l], g.links[m]);
    }
  }

  lemma FewerLinksKeep(g: SoundGraph, h: GraphView)
    requires h.nodes == g.nodes && h.ports == g.ports
    requires forall l :: l in h.links ==> l in g.links && h.links[l] == g.links[l]
    ensures WellFormed(h)
  {
    FewerLinksJoin(g, h);
    FewerLinksKeyed(g, h);
    SamePortsListed(g, h);
  }

  lemma RemoveLinkKeeps(g: SoundGraph, link: LinkId)
    ensures WellFormed(WithoutLink(g, link))
  {
    FewerLinksKeep(g, WithoutLink(g, link));
  }

  lemma RemoveLinkPairs(g: GraphView, link: LinkId)
    requires LinksJoin(g) && link in g.links
    ensures Pairs(WithoutLink(g, link)) == Pairs(g) - {(g.links[link].outputPort, g.links[link].inputPort)}
  {
    var h := WithoutLink(g, link);
    var removed := (g.links[link].outputPort, g.links[link].inputPort);
    forall pair | pair in Pairs(g) && pair != removed
      ensures pair in Pairs(h)
    {
      var l :| l in g.links && pair == (g.links[l].outputPort, g.links[l].inputPort);
      assert l in h.links;
    }
    forall l | l in h.links
      ensures (h.links[l].outputPort, h.links[l].inputPort) != removed
    {
      assert !SamePair(g.links[l], g.links[link]);
    }
  }

  /** Putting a removed link back under its own id restores the graph exactly. */
  lemma RemoveThenAddRestores(g: SoundGraph, link: LinkId)
    requires link in g.links
    ensures var l := g.links[link];
      && LinkProblem(WithoutLink(g, link), link, l.outputPort, l.inputPort).None?
      && WithLink(WithoutLink(g, link), Link(link, l.outputPort, l.inputPort)) == g
  {
    var l, h := g.links[link], WithoutLink(g, link);
    assert Joins(g, l);
    forall m | m in h.links
      ensures !SamePair(h.links[m], l)
    {
      assert !SamePair(g.links[m], g.links[link]);
    }
    assert !Connected(h, l.outputPort, l.inputPort);
    assert WithLink(h, Link(link, l.outputPort, l.inputPort)).links == g.links;
  }
}
