/** Graph nodes that belong to one effect, recorder, filter or capture, with exactly their own ports. */
module OwnedNodes {
  import opened GraphTypes
  import opened GraphStore

  /** A node and the ports it is known to have. */
  datatype Claim = Claim(node: NodeId, inputs: set<PortId>, outputs: set<PortId>)

  ghost predicate ClaimHolds(g: GraphView, c: Claim) {
    && c.node in g.nodes
    && (forall p :: Lists(g.nodes[c.node], p) <==> p in c.inputs || p in c.outputs)
    && (forall p :: p in c.inputs ==> p in g.ports && g.ports[p].direction == Sink)
    && (forall p :: p in c.outputs ==> p in g.ports && g.ports[p].direction == Source)
  }

  lemma ClaimStays(g: GraphView, h: GraphView, c: Claim)
    requires ClaimHolds(g, c) && c.node in h.nodes && h.nodes[c.node] == g.nodes[c.node]
    requires forall p :: p in c.inputs || p in c.outputs ==> p in h.ports && h.ports[p] == g.ports[p]
    ensures ClaimHolds(h, c)
  {
  }

  // Adding a node with one or two ports.

  function PortsOf(p: Port, q: Option<Port>): seq<PortId> {
    if q.Some? then [p.id, q.value.id] else [p.id]
  }

  predicate Fits(g: GraphView, node: Node, p: Port, q: Option<Port>) {
    && node.id !in g.nodes && p.id !in g.ports
    && (q.Some? ==> q.value.id !in g.ports && q.value.id != p.id)
  }

  predicate Belong(node: Node, p: Port, q: Option<Port>) {
    node.ports == [] && p.nodeId == node.id && (q.Some? ==> q.value.nodeId == node.id)
  }

  function Grown(g: GraphView, node: Node, p: Port, q: Option<Port>): GraphView {
    var ports := g.ports[p.id := p];
    GraphView(
      g.nodes[node.id := node.(ports := PortsOf(p, q))],
      if q.Some? then ports[q.value.id := q.value] else ports,
      g.links)
  }

  function Sinks(p: Port): set<PortId> {
    if p.direction.Sink? then {p.id} else {}
  }

  function Sources(p: Port): set<PortId> {
    if p.direction.Source? then {p.id} else {}
  }

  function ClaimFor(node: Node, p: Port, q: Option<Port>): Claim {
    if q.Some? then Claim(node.id, Sinks(p) + Sinks(q.value), Sources(p) + Sources(q.value))
    else Claim(node.id, Sinks(p), Sources(p))
  }

  lemma FirstPort(g: GraphView, node: Node, p: Port)
    requires Fits(g, node, p, None) && Belong(node, p, None)
    ensures WithPort(WithNode(g, node), p) == Grown(g, node, p, None)
  {
    var one := WithNode(g, node);
    assert one.nodes[node.id] == node;
    assert node.ports + [p.id] == [p.id];
    assert one.nodes[node.id := node.(ports := [p.id])] == g.nodes[node.id := node.(ports := [p.id])];
  }

  lemma SecondPort(g: GraphView, node: Node, p: Port, q: Port)
    requires Fits(g, node, p, Some(q)) && Belong(node, p, Some(q))
    ensures WithPort(Grown(g, node, p, None), q) == Grown(g, node, p, Some(q))
  {
    var two := Grown(g, node, p, None);
    var first := node.(ports := [p.id]);
    assert two.nodes[node.id] == first;
    assert first.ports + [q.id] == [p.id, q.id];
    assert two.nodes[node.id := node.(ports := [p.id, q.id])] == g.nodes[node.id := node.(ports := [p.id, q.id])];
  }

  lemma GrownKeeps(g: SoundGraph, node: Node, p: Port, q: Option<Port>)
    requires Fits(g, node, p, q) && Belong(node, p, q)
    ensures WellFormed(Grown(g, node, p, q))
  {
    AddNodeKeeps(g, node);
    AddPortKeeps(WithNode(g, node), p);
    FirstPort(g, node, p);
    if q.Some? {
      AddPortKeeps(Grown(g, node, p, None), q.value);
      SecondPort(g, node, p, q.value);
    }
  }

  lemma GrownHasClaim(g: GraphView, node: Node, p: Port, q: Option<Port>)
    requires Fits(g, node, p, q) && Belong(node, p, q)
    ensures ClaimHolds(Grown(g, node, p, q), ClaimFor(node, p, q))
  {
    var h, c := Grown(g, node, p, q), ClaimFor(node, p, q);
    assert h.nodes[node.id].ports == PortsOf(p, q);
    forall x
      ensures Lists(h.nodes[node.id], x) <==> x in c.inputs || x in c.outputs
    {
      if q.Some? {
        assert x in [p.id, q.value.id] <==> x == p.id || x == q.value.id;
      }
    }
  }

  lemma GrownKeepsClaim(g: GraphView, node: Node, p: Port, q: Option<Port>, c: Claim)
    requires Fits(g, node, p, q) && ClaimHolds(g, c)
    ensures ClaimHolds(Grown(g, node, p, q), c)
  {
    ClaimStays(g, Grown(g, node, p, q), c);
  }

  // Removing a claimed node with everything attached to it.

  predicate Touches(link: Link, inputs: set<PortId>, outputs: set<PortId>) {
    link.inputPort in inputs || link.outputPort in outputs
  }

  function Untouched(links: map<LinkId, Link>, inputs: set<PortId>, outputs: set<PortId>): map<LinkId, Link> {
    map l | l in links && !Touches(links[l], inputs, outputs) :: links[l]
  }

  function Pruned(g: GraphView, c: Claim): GraphView {
    GraphView(g.nodes - {c.node}, g.ports - (c.inputs + c.outputs), Untouched(g.links, c.inputs, c.outputs))
  }

  /** A port listed by a claimed node is that node's, whoever else might claim it. */
  lemma ClaimedPortsAreOwn(g: GraphView, c: Claim)
    requires PortsListed(g) && ClaimHolds(g, c)
    ensures forall p :: p in g.ports ==> (g.ports[p].nodeId == c.node <==> p in c.inputs || p in c.outputs)
  {
    forall p | p in g.ports
      ensures g.ports[p].nodeId == c.node <==> p in c.inputs || p in c.outputs
    {
      assert Lists(g.nodes[c.node], p) <==> p in c.inputs || p in c.outputs;
      assert Lists(g.nodes[g.ports[p].nodeId], p);
    }
  }

  lemma PrunedKeepsListing(g: GraphView, c: Claim)
    requires PortsListed(g) && ClaimHolds(g, c)
    ensures PortsListed(Pruned(g, c))
  {
    ClaimedPortsAreOwn(g, c);
    var h := Pruned(g, c);
    forall n, p | n in h.nodes && Lists(h.nodes[n], p)
      ensures p in h.ports && h.ports[p].nodeId == n
    {
      assert Lists(g.nodes[n], p);
    }
    forall p | p in h.ports
      ensures h.ports[p].nodeId in h.nodes && Lists(h.nodes[h.ports[p].nodeId], p)
    {
      assert Lists(g.nodes[g.ports[p].nodeId], p);
    }
  }

  lemma PrunedKeepsLinks(g: GraphView, c: Claim)
    requires LinksJoin(g) && ClaimHolds(g, c)
    ensures LinksJoin(Pruned(g, c))
  {
    var h := Pruned(g, c);
    forall l | l in h.links
      ensures Joins(h, h.links[l])
    {
      assert Joins(g, g.links[l]);
    }
    forall l, m | l in h.links && m in h.links && SamePair(h.links[l], h.links[m])
      ensures l == m
    {
      assert SamePair(g.links[l], g.links[m]);
    }
  }

  lemma PrunedKeeps(g: SoundGraph, c: Claim)
    requires ClaimHolds(g, c)
    ensures WellFormed(Pruned(g, c))
  {
    PrunedKeepsListing(g, c);
    PrunedKeepsLinks(g, c);
  }

  lemma PrunedKeepsClaim(g: GraphView, c: Claim, d: Claim)
    requires PortsListed(g) && ClaimHolds(g, c) && ClaimHolds(g, d) && d.node != c.node
    ensures ClaimHolds(Pruned(g, c), d)
  {
    ClaimedPortsAreOwn(g, c);
    ClaimedPortsAreOwn(g, d);
    ClaimStays(g, Pruned(g, c), d);
  }

  lemma JoinedPortsExist(g: GraphView, l: LinkId)
    requires LinksJoin(g) && l in g.links
    ensures g.links[l].outputPort in g.ports && g.links[l].inputPort in g.ports
    ensures g.ports[g.links[l].outputPort].direction == Source && g.ports[g.links[l].inputPort].direction == Sink
    ensures g.ports[g.links[l].outputPort].portType == g.ports[g.links[l].inputPort].portType
  {
    assert Joins(g, g.links[l]);
  }

  /** No existing link touches ports that are new to the graph. */
  lemma NewPortsUntouched(g: GraphView, links: map<LinkId, Link>, inputs: set<PortId>, outputs: set<PortId>)
    requires LinksJoin(g) && forall p :: p in inputs || p in outputs ==> p !in g.ports
    requires forall l :: l in links ==> l in g.links && links[l] == g.links[l]
    ensures Untouched(links, inputs, outputs) == links
  {
    forall l | l in links
      ensures !Touches(links[l], inputs, outputs)
    {
      JoinedPortsExist(g, l);
    }
  }

  lemma UntouchedAll(links: map<LinkId, Link>, inputs: set<PortId>, outputs: set<PortId>)
    ensures Untouched(links, inputs, outputs) == links <==> forall l :: l in links ==> !Touches(links[l], inputs, outputs)
  {
    if Untouched(links, inputs, outputs) == links {
      forall l | l in links
        ensures !Touches(links[l], inputs, outputs)
      {
        assert l in Untouched(links, inputs, outputs);
      }
    }
  }

  /** Cutting two links that touch the ports undoes replacing another link by them. */
  lemma CutTwo(links: map<LinkId, Link>, original: LinkId, a: Link, b: Link, inputs: set<PortId>, outputs: set<PortId>)
    requires Untouched(links, inputs, outputs) == links && a.id !in links && b.id !in links
    requires Touches(a, inputs, outputs) && Touches(b, inputs, outputs)
    ensures Untouched((links - {original})[a.id := a][b.id := b], inputs, outputs) == links - {original}
  {
    UntouchedAll(links, inputs, outputs);
  }

  lemma CutOne(links: map<LinkId, Link>, next: LinkId, link: Link, inputs: set<PortId>, outputs: set<PortId>)
    requires Untouched(links, inputs, outputs) == links && next !in links
    ensures Untouched(links[next := link], inputs, outputs)
         == if Touches(link, inputs, outputs) then links else links[next := link]
  {
    UntouchedAll(links, inputs, outputs);
  }

  lemma UntouchedUnconnected(g: GraphView, inputs: set<PortId>, outputs: set<PortId>, output: PortId, input: PortId)
    requires Untouched(g.links, inputs, outputs) == g.links && (output in outputs || input in inputs)
    ensures !Connected(g, output, input)
  {
    UntouchedAll(g.links, inputs, outputs);
  }

  lemma ClaimedIds(node: Node, p: Port, q: Option<Port>)
    ensures var c := ClaimFor(node, p, q);
      c.inputs + c.outputs == if q.Some? then {p.id, q.value.id} else {p.id}
  {
  }

  lemma AddThenDrop<K, V>(m: map<K, V>, a: K, x: V, b: K, y: V)
    requires a !in m && b !in m
    ensures m[a := x] - {a} == m
    ensures m[a := x][b := y] - {a, b} == m
  {
  }

  /** Adding a node and removing it again changes nothing. */
  lemma GrowThenPrune(g: SoundGraph, node: Node, p: Port, q: Option<Port>, c: Claim)
    requires Fits(g, node, p, q) && c == ClaimFor(node, p, q)
    ensures Pruned(Grown(g, node, p, q), c) == g
  {
    ClaimedIds(node, p, q);
    NewPortsUntouched(g, g.links, c.inputs, c.outputs);
    AddThenDrop(g.nodes, node.id, Grown(g, node, p, q).nodes[node.id], node.id, node);
    if q.Some? {
      AddThenDrop(g.ports, p.id, p, q.value.id, q.value);
    } else {
      AddThenDrop(g.ports, p.id, p, p.id, p);
    }
  }

  /** A source port is never a link's input, so removal need not look for it there. */
  lemma SourcesHaveNoInputLinks(g: GraphView, c: Claim)
    requires LinksJoin(g) && ClaimHolds(g, c)
    ensures Untouched(g.links, c.inputs + c.outputs, c.inputs + c.outputs) == Untouched(g.links, c.inputs, c.outputs)
  {
    forall l | l in g.links
      ensures Touches(g.links[l], c.inputs + c.outputs, c.inputs + c.outputs) <==> Touches(g.links[l], c.inputs, c.outputs)
    {
      JoinedPortsExist(g, l);
    }
  }
}
