/** Reference-counted MIDI handles, the connections that use them and the links drawn for them. */
module MidiDrivers {
  import opened GraphTypes
  import opened GraphStore

  datatype DeviceKind = Input | Output

  datatype MidiDevice = MidiDevice(index: nat, kind: DeviceKind, name: string, nodeId: NodeId, portId: PortId)

  /** An open handle and the number of connections counted on it. */
  datatype OpenDevice = OpenDevice(handle: nat, users: nat)

  datatype Connection = Connection(linkId: LinkId, source: PortId, destination: PortId)

  datatype MidiError =
    | GraphFailure(error: GraphError)
    | WrongKinds
    | OpenInputFailed
    | OpenOutputFailed
    | ConnectFailed
    | StartFailed

  datatype MidiResult<+T> = Done(value: T) | Refused(error: MidiError)

  /** What WinMM answers during one connect: a handle from each open, and whether the pairing and the start succeed. */
  datatype WinMm = WinMm(inputHandle: Option<nat>, outputHandle: Option<nat>, connects: bool, starts: bool)

  /** A device shows as one node with one port, a source if MIDI is read from it and a sink if it is written to. */
  function PortOf(d: MidiDevice): Port {
    Port(d.portId, d.nodeId, "midi", None, if d.kind.Input? then Source else Sink, MidiJack)
  }

  function NodeOf(d: MidiDevice): Node {
    NewNode(d.nodeId, d.name, WindowsMidi).(ports := [d.portId])
  }

  /** The graph shows exactly the known devices. */
  ghost predicate Pictured(devices: map<PortId, MidiDevice>, nodes: map<NodeId, Node>, ports: map<PortId, Port>) {
    var pictured :=
      && ports.Keys == devices.Keys
      && (forall p :: p in devices ==> devices[p].portId == p && ports[p] == PortOf(devices[p]))
      && (forall p :: p in devices ==> devices[p].nodeId in nodes && nodes[devices[p].nodeId] == NodeOf(devices[p]));
    pictured
  }

  /** No two reported devices share a node id or a port id. */
  predicate ClashFree(reported: seq<MidiDevice>) {
    forall i, j :: 0 <= i < j < |reported| ==>
      reported[i].nodeId != reported[j].nodeId && reported[i].portId != reported[j].portId
  }

  /** Exactly the reported devices are known, under their own ids. */
  ghost predicate Listed(reported: seq<MidiDevice>, devices: map<PortId, MidiDevice>, nodes: set<NodeId>) {
    var listed :=
      && ClashFree(reported)
      && nodes == (set d | d in reported :: d.nodeId)
      && devices.Keys == (set d | d in reported :: d.portId)
      && forall d :: d in reported ==> devices[d.portId] == d;
    listed
  }

  /** The graph shows exactly the reported devices, without links. */
  ghost predicate Shown(reported: seq<MidiDevice>, devices: map<PortId, MidiDevice>, g: GraphView) {
    var shown := g.links == map[] && Pictured(devices, g.nodes, g.ports) && Listed(reported, devices, g.nodes.Keys);
    shown
  }

  lemma ShownIsClashFree(reported: seq<MidiDevice>, devices: map<PortId, MidiDevice>, g: GraphView)
    requires Shown(reported, devices, g)
    ensures ClashFree(reported)
  {
  }

  /** One more device keeps the report free of clashes exactly when both its ids are new. */
  lemma ListOne(before: seq<MidiDevice>, device: MidiDevice, after: seq<MidiDevice>, devices: map<PortId, MidiDevice>,
                nodes: set<NodeId>)
    requires Listed(before, devices, nodes) && after == before + [device]
    ensures ClashFree(after) <==> device.nodeId !in nodes && device.portId !in devices
    ensures ClashFree(after) ==> Listed(after, devices[device.portId := device], nodes + {device.nodeId})
  {
    assert after[|before|] == device;
    assert forall i :: 0 <= i < |before| ==> after[i] == before[i];
    if device.nodeId in nodes || device.portId in devices {
      var d :| d in before && (d.nodeId == device.nodeId || d.portId == device.portId);
      var i :| 0 <= i < |before| && before[i] == d;
      assert after[i] == d;
    } else {
      forall i | 0 <= i < |before|
        ensures before[i].nodeId != device.nodeId && before[i].portId != device.portId
      {
        assert before[i] in before;
      }
    }
  }

  lemma PictureOne(devices: map<PortId, MidiDevice>, nodes: map<NodeId, Node>, ports: map<PortId, Port>, d: MidiDevice,
                   nodesAfter: map<NodeId, Node>, portsAfter: map<PortId, Port>)
    requires Pictured(devices, nodes, ports) && d.nodeId !in nodes && d.portId !in ports
    requires portsAfter == ports[d.portId := PortOf(d)]
    requires var bare := NewNode(d.nodeId, d.name, WindowsMidi);
      nodesAfter == nodes[d.nodeId := bare][d.nodeId := bare.(ports := bare.ports + [d.portId])]
    ensures Pictured(devices[d.portId := d], nodesAfter, portsAfter)
    ensures nodesAfter.Keys == nodes.Keys + {d.nodeId}
  {
    assert [] + [d.portId] == [d.portId];
    assert nodesAfter == nodes[d.nodeId := NodeOf(d)];
  }

  /** The next device clashes with the earlier ones exactly when one of its ids is already in the graph. */
  lemma ReportOne(reported: seq<MidiDevice>, i: nat, devices: map<PortId, MidiDevice>, g: GraphView)
    requires i < |reported| && Shown(reported[..i], devices, g)
    ensures ClashFree(reported[..i + 1]) <==> reported[i].nodeId !in g.nodes && reported[i].portId !in g.ports
    ensures !ClashFree(reported[..i + 1]) ==> !ClashFree(reported)
  {
    ListOne(reported[..i], reported[i], reported[..i + 1], devices, g.nodes.Keys);
    if !ClashFree(reported[..i + 1]) {
      ClashStays(reported, i + 1);
    }
  }

  lemma ShowOne(reported: seq<MidiDevice>, i: nat, devices: map<PortId, MidiDevice>, g: GraphView, h: GraphView)
    requires i < |reported| && Shown(reported[..i], devices, g)
    requires reported[i].nodeId !in g.nodes && reported[i].portId !in g.ports
    requires h == WithPort(WithNode(g, NewNode(reported[i].nodeId, reported[i].name, WindowsMidi)), PortOf(reported[i]))
    ensures Shown(reported[..i + 1], devices[reported[i].portId := reported[i]], h)
  {
    ListOne(reported[..i], reported[i], reported[..i + 1], devices, g.nodes.Keys);
    PictureOne(devices, g.nodes, g.ports, reported[i], h.nodes, h.ports);
  }

  lemma ClashStays(reported: seq<MidiDevice>, i: nat)
    requires i <= |reported| && !ClashFree(reported[..i])
    ensures !ClashFree(reported)
  {
    assert forall j :: 0 <= j < i ==> reported[..i][j] == reported[j];
  }

  // Counting uses.

  function Users(open: map<PortId, OpenDevice>, p: PortId): nat {
    if p in open then open[p].users else 0
  }

  /** The port a connection uses on its input or its output side. */
  function EndOf(c: Connection, side: DeviceKind): PortId {
    if side.Input? then c.source else c.destination
  }

  /** How many connections use port `p` on that side. */
  function Uses(cs: seq<Connection>, side: DeviceKind, p: PortId): nat {
    if cs == [] then 0
    else Uses(cs[..|cs| - 1], side, p) + if EndOf(cs[|cs| - 1], side) == p then 1 else 0
  }

  lemma UsesAppend(cs: seq<Connection>, c: Connection, side: DeviceKind, p: PortId)
    ensures Uses(cs + [c], side, p) == Uses(cs, side, p) + if EndOf(c, side) == p then 1 else 0
  {
    assert (cs + [c])[..|cs|] == cs;
  }

  lemma {:induction false} UsesConcat(a: seq<Connection>, b: seq<Connection>, side: DeviceKind, p: PortId)
    ensures Uses(a + b, side, p) == Uses(a, side, p) + Uses(b, side, p)
  {
    if b == [] {
      assert a + b == a;
    } else {
      var front, last := b[..|b| - 1], b[|b| - 1];
      UsesConcat(a, front, side, p);
      UsesAppend(a + front, last, side, p);
      assert a + b == a + front + [last];
    }
  }

  function Without(cs: seq<Connection>, k: nat): (rest: seq<Connection>)
    requires k < |cs|
    ensures |rest| == |cs| - 1
    ensures forall i :: 0 <= i < k ==> rest[i] == cs[i]
    ensures forall i :: k <= i < |rest| ==> rest[i] == cs[i + 1]
  {
    cs[..k] + cs[k + 1..]
  }

  lemma UsesWithout(cs: seq<Connection>, k: nat, side: DeviceKind, p: PortId)
    requires k < |cs|
    ensures Uses(cs, side, p) == Uses(Without(cs, k), side, p) + if EndOf(cs[k], side) == p then 1 else 0
  {
    var head, tail := cs[..k], cs[k + 1..];
    assert cs == head + [cs[k]] + tail;
    UsesConcat(head + [cs[k]], tail, side, p);
    UsesAppend(head, cs[k], side, p);
    UsesConcat(head, tail, side, p);
  }

  /** Every open handle has a user, and users are the live connections naming the port plus the leaked ones. */
  ghost predicate Balanced(open: map<PortId, OpenDevice>, cs: seq<Connection>, leaked: seq<Connection>, side: DeviceKind) {
    && (forall p :: p in open ==> open[p].users >= 1)
    && (forall p: PortId :: Users(open, p) == Uses(cs, side, p) + Uses(leaked, side, p))
  }

  /** One more or one fewer user of `p`; the last one to go closes the handle. */
  function Taken(open: map<PortId, OpenDevice>, p: PortId, handle: nat): map<PortId, OpenDevice> {
    if p in open then open[p := open[p].(users := open[p].users + 1)] else open[p := OpenDevice(handle, 1)]
  }

  function Released(open: map<PortId, OpenDevice>, p: PortId): map<PortId, OpenDevice> {
    if p !in open then open
    else if open[p].users <= 1 then open - {p}
    else open[p := open[p].(users := open[p].users - 1)]
  }

  /** Giving back what was just taken restores the table exactly. */
  lemma TakeThenRelease(open: map<PortId, OpenDevice>, p: PortId, handle: nat)
    requires forall q :: q in open ==> open[q].users >= 1
    ensures Released(Taken(open, p, handle), p) == open
  {
    if p in open {
      assert Taken(open, p, handle)[p].users == open[p].users + 1;
      assert open[p].(users := open[p].users + 1).(users := open[p].users) == open[p];
    }
  }

  /** `after` has one more user of `port` than `before`, whatever handle it was opened with. */
  ghost predicate OneMoreUser(before: map<PortId, OpenDevice>, after: map<PortId, OpenDevice>, port: PortId) {
    exists handle :: after == Taken(before, port, handle)
  }

  lemma OneMoreIsCounted(before: map<PortId, OpenDevice>, after: map<PortId, OpenDevice>, port: PortId)
    requires OneMoreUser(before, after, port)
    ensures forall p: PortId :: Users(after, p) == Users(before, p) + if p == port then 1 else 0
  {
  }

  lemma OneMoreGivenBack(before: map<PortId, OpenDevice>, after: map<PortId, OpenDevice>, port: PortId)
    requires OneMoreUser(before, after, port) && forall q :: q in before ==> before[q].users >= 1
    ensures port in after && after[port].users >= 1 && Released(after, port) == before
  {
    var handle :| after == Taken(before, port, handle);
    TakeThenRelease(before, port, handle);
  }

  lemma TakeBalances(open: map<PortId, OpenDevice>, cs: seq<Connection>, leaked: seq<Connection>, side: DeviceKind,
                     c: Connection, handle: nat)
    requires Balanced(open, cs, leaked, side)
    ensures Balanced(Taken(open, EndOf(c, side), handle), cs + [c], leaked, side)
  {
    var after := Taken(open, EndOf(c, side), handle);
    forall p: PortId
      ensures Users(after, p) == Uses(cs + [c], side, p) + Uses(leaked, side, p)
    {
      UsesAppend(cs, c, side, p);
      assert Users(open, p) == Uses(cs, side, p) + Uses(leaked, side, p);
    }
  }

  lemma ReleaseBalances(open: map<PortId, OpenDevice>, cs: seq<Connection>, leaked: seq<Connection>, side: DeviceKind, k: nat)
    requires Balanced(open, cs, leaked, side) && k < |cs|
    ensures EndOf(cs[k], side) in open
    ensures Balanced(Released(open, EndOf(cs[k], side)), Without(cs, k), leaked, side)
  {
    var port, rest := EndOf(cs[k], side), Without(cs, k);
    UsesWithout(cs, k, side, port);
    assert Users(open, port) == Uses(cs, side, port) + Uses(leaked, side, port);
    var after := Released(open, port);
    forall p: PortId
      ensures Users(after, p) == Uses(rest, side, p) + Uses(leaked, side, p)
    {
      UsesWithout(cs, k, side, p);
      assert Users(open, p) == Uses(cs, side, p) + Uses(leaked, side, p);
    }
  }

  // Connections and links.

  ghost predicate HasId(cs: seq<Connection>, l: LinkId) {
    exists i :: 0 <= i < |cs| && cs[i].linkId == l
  }

  ghost predicate AllDistinct(cs: seq<Connection>) {
    forall i, j :: 0 <= i < j < |cs| ==>
      cs[i].linkId != cs[j].linkId && (cs[i].source != cs[j].source || cs[i].destination != cs[j].destination)
  }

  /** Live connections and graph links are the same thing, one to one, and no pair is connected twice. */
  ghost predicate Drawn(cs: seq<Connection>, links: map<LinkId, Link>, next: LinkId) {
    && (forall i :: 0 <= i < |cs| ==>
          && cs[i].linkId in links
          && links[cs[i].linkId] == Link(cs[i].linkId, cs[i].source, cs[i].destination))
    && (forall l :: l in links ==> l < next && HasId(cs, l))
    && AllDistinct(cs)
  }

  predicate Names(c: Connection, source: PortId, destination: PortId) {
    c.source == source && c.destination == destination
  }

  lemma DrawOne(cs: seq<Connection>, links: map<LinkId, Link>, next: LinkId, c: Connection, later: LinkId)
    requires Drawn(cs, links, next) && c.linkId !in links && c.linkId < later && next <= later
    requires forall i :: 0 <= i < |cs| ==> !Names(cs[i], c.source, c.destination)
    ensures Drawn(cs + [c], links[c.linkId := Link(c.linkId, c.source, c.destination)], later)
  {
    var after := cs + [c];
    assert after[|cs|] == c;
    forall l | l in links
      ensures HasId(after, l)
    {
      var i :| 0 <= i < |cs| && cs[i].linkId == l;
      assert after[i] == cs[i];
    }
  }

  /** An input device can always be linked to an output device that it is not connected to yet. */
  lemma DevicesFit(cs: seq<Connection>, devices: map<PortId, MidiDevice>, g: GraphView, next: LinkId,
                   source: PortId, destination: PortId)
    requires Drawn(cs, g.links, next) && Pictured(devices, g.nodes, g.ports)
    requires source in devices && destination in devices
    requires devices[source].kind.Input? && devices[destination].kind.Output?
    requires forall i :: 0 <= i < |cs| ==> !Names(cs[i], source, destination)
    ensures LinkProblem(g, next, source, destination).None?
  {
    assert g.ports[source] == PortOf(devices[source]) && g.ports[destination] == PortOf(devices[destination]);
    forall l | l in g.links
      ensures g.links[l].outputPort != source || g.links[l].inputPort != destination
    {
      var i :| 0 <= i < |cs| && cs[i].linkId == l;
      assert g.links[l] == Link(l, cs[i].source, cs[i].destination);
    }
  }

  lemma EraseKeepsDistinct(cs: seq<Connection>, k: nat)
    requires AllDistinct(cs) && k < |cs|
    ensures AllDistinct(Without(cs, k))
    ensures forall i :: 0 <= i < |cs| - 1 ==> Without(cs, k)[i].linkId != cs[k].linkId
  {
  }

  lemma IdsWithout(cs: seq<Connection>, k: nat, l: LinkId)
    requires k < |cs| && HasId(cs, l) && l != cs[k].linkId
    ensures HasId(Without(cs, k), l)
  {
    var i :| 0 <= i < |cs| && cs[i].linkId == l;
    assert Without(cs, k)[if i < k then i else i - 1] == cs[i];
  }

  lemma EraseOne(cs: seq<Connection>, links: map<LinkId, Link>, next: LinkId, k: nat)
    requires Drawn(cs, links, next) && k < |cs|
    ensures Drawn(Without(cs, k), links - {cs[k].linkId}, next)
  {
    var after, gone := Without(cs, k), cs[k].linkId;
    EraseKeepsDistinct(cs, k);
    forall l | l in links && l != gone
      ensures HasId(after, l)
    {
      IdsWithout(cs, k, l);
    }
    forall i | 0 <= i < |after|
      ensures after[i].linkId != gone && after[i].linkId in links
      ensures links[after[i].linkId] == Link(after[i].linkId, after[i].source, after[i].destination)
    {
      assert after[i] == cs[if i < k then i else i + 1];
    }
  }

  // Surviving a refresh.

  predicate Present(c: Connection, ports: set<PortId>) {
    c.source in ports && c.destination in ports
  }

  function Surviving(cs: seq<Connection>, ports: set<PortId>): seq<Connection> {
    if cs == [] then []
    else
      var rest := Surviving(cs[..|cs| - 1], ports);
      if Present(cs[|cs| - 1], ports) then rest + [cs[|cs| - 1]] else rest
  }

  function Dropped(cs: seq<Connection>, ports: set<PortId>): seq<Connection> {
    if cs == [] then []
    else
      var rest := Dropped(cs[..|cs| - 1], ports);
      if Present(cs[|cs| - 1], ports) then rest else rest + [cs[|cs| - 1]]
  }

  lemma {:induction false} UsesSplit(cs: seq<Connection>, ports: set<PortId>, side: DeviceKind, p: PortId)
    ensures Uses(cs, side, p) == Uses(Surviving(cs, ports), side, p) + Uses(Dropped(cs, ports), side, p)
  {
    if cs != [] {
      var front, last := cs[..|cs| - 1], cs[|cs| - 1];
      UsesSplit(front, ports, side, p);
      UsesAppend(Surviving(front, ports), last, side, p);
      UsesAppend(Dropped(front, ports), last, side, p);
    }
  }

  lemma {:induction false} SurvivingComesFrom(cs: seq<Connection>, ports: set<PortId>)
    ensures forall c :: c in Surviving(cs, ports) <==> c in cs && Present(c, ports)
    ensures forall c :: c in Dropped(cs, ports) <==> c in cs && !Present(c, ports)
  {
    if cs != [] {
      SurvivingComesFrom(cs[..|cs| - 1], ports);
      assert cs == cs[..|cs| - 1] + [cs[|cs| - 1]];
    }
  }

  /** Dropped connections keep their users: they only move from the live to the leaked side. */
  lemma DroppingLeaks(open: map<PortId, OpenDevice>, cs: seq<Connection>, ports: set<PortId>, leaked: seq<Connection>,
                      side: DeviceKind)
    requires Balanced(open, cs, leaked, side)
    ensures Balanced(open, Surviving(cs, ports), leaked + Dropped(cs, ports), side)
  {
    forall p: PortId
      ensures Users(open, p) == Uses(Surviving(cs, ports), side, p) + Uses(leaked + Dropped(cs, ports), side, p)
    {
      UsesSplit(cs, ports, side, p);
      UsesConcat(leaked, Dropped(cs, ports), side, p);
      assert Users(open, p) == Uses(cs, side, p) + Uses(leaked, side, p);
    }
  }

  lemma {:induction false} LinksRebuilt(cs: seq<Connection>, ports: set<PortId>, links: map<LinkId, Link>, next: LinkId)
    requires Drawn(cs, links, next)
    ensures Drawn(Surviving(cs, ports), LinksOf(Surviving(cs, ports)), next)
  {
    if cs == [] {
    } else {
      var front, last := cs[..|cs| - 1], cs[|cs| - 1];
      EraseOne(cs, links, next, |cs| - 1);
      assert Without(cs, |cs| - 1) == front;
      LinksRebuilt(front, ports, links - {last.linkId}, next);
      if Present(last, ports) {
        assert cs == front + [last];
        LastStaysNew(front, last, ports, Surviving(front, ports), next);
      }
    }
  }

  lemma LastStaysNew(front: seq<Connection>, last: Connection, ports: set<PortId>, kept: seq<Connection>, next: LinkId)
    requires AllDistinct(front + [last]) && last.linkId < next
    requires kept == Surviving(front, ports) && Drawn(kept, LinksOf(kept), next)
    ensures Drawn(kept + [last], LinksOf(kept + [last]), next)
  {
    SurvivingComesFrom(front, ports);
    forall c | c in kept
      ensures c.linkId != last.linkId && !Names(c, last.source, last.destination)
    {
      var i :| 0 <= i < |front| && front[i] == c;
      assert (front + [last])[i] == c && (front + [last])[|front|] == last;
    }
    assert last.linkId !in LinksOf(kept);
    DrawOne(kept, LinksOf(kept), next, last, next);
    assert (kept + [last])[..|kept|] == kept;
  }

  /** The links drawn for a list of connections. */
  function LinksOf(cs: seq<Connection>): map<LinkId, Link> {
    if cs == [] then map[]
    else
      var last := cs[|cs| - 1];
      LinksOf(cs[..|cs| - 1])[last.linkId := Link(last.linkId, last.source, last.destination)]
  }

  /** The books of a driver: users are counted on both sides, and connections and links are the same thing. */
  ghost predicate Books(inputs: map<PortId, OpenDevice>, outputs: map<PortId, OpenDevice>, cs: seq<Connection>,
                        leaked: seq<Connection>, links: map<LinkId, Link>, next: LinkId) {
    // Named, so that it is proved and used as one fact.
    var sound :=
      && Balanced(inputs, cs, leaked, Input)
      && Balanced(outputs, cs, leaked, Output)
      && Drawn(cs, links, next);
    sound
  }

  lemma BooksOpenUp(inputs: map<PortId, OpenDevice>, outputs: map<PortId, OpenDevice>, cs: seq<Connection>,
                    leaked: seq<Connection>, links: map<LinkId, Link>, next: LinkId, c: Connection,
                    openedIn: map<PortId, OpenDevice>, openedOut: map<PortId, OpenDevice>)
    requires Books(inputs, outputs, cs, leaked, links, next) && c.linkId == next
    requires OneMoreUser(inputs, openedIn, c.source) && OneMoreUser(outputs, openedOut, c.destination)
    requires forall i :: 0 <= i < |cs| ==> !Names(cs[i], c.source, c.destination)
    ensures Books(openedIn, openedOut, cs + [c], leaked, links[next := Link(next, c.source, c.destination)], next + 1)
  {
    var h :| openedIn == Taken(inputs, c.source, h);
    var k :| openedOut == Taken(outputs, c.destination, k);
    TakeBalances(inputs, cs, leaked, Input, c, h);
    TakeBalances(outputs, cs, leaked, Output, c, k);
    DrawOne(cs, links, next, c, next + 1);
  }

  /** Before the pair was opened the books were right; giving both ends back returns to them. */
  lemma BooksGivenBack(inputs: map<PortId, OpenDevice>, outputs: map<PortId, OpenDevice>, cs: seq<Connection>,
                       leaked: seq<Connection>, links: map<LinkId, Link>, next: LinkId, source: PortId,
                       destination: PortId, openedIn: map<PortId, OpenDevice>, openedOut: map<PortId, OpenDevice>)
    requires Books(inputs, outputs, cs, leaked, links, next)
    requires OneMoreUser(inputs, openedIn, source) && OneMoreUser(outputs, openedOut, destination)
    ensures source in openedIn && openedIn[source].users >= 1 && Released(openedIn, source) == inputs
    ensures destination in openedOut && openedOut[destination].users >= 1 && Released(openedOut, destination) == outputs
    ensures Books(inputs, outputs, cs, leaked, links, next + 1)
  {
    OneMoreGivenBack(inputs, openedIn, source);
    OneMoreGivenBack(outputs, openedOut, destination);
  }

  lemma BooksClose(inputs: map<PortId, OpenDevice>, outputs: map<PortId, OpenDevice>, cs: seq<Connection>,
                   leaked: seq<Connection>, links: map<LinkId, Link>, next: LinkId, k: nat)
    requires Books(inputs, outputs, cs, leaked, links, next) && k < |cs|
    ensures cs[k].linkId in links && links[cs[k].linkId] == Link(cs[k].linkId, cs[k].source, cs[k].destination)
    ensures cs[k].source in inputs && inputs[cs[k].source].users >= 1
    ensures cs[k].destination in outputs && outputs[cs[k].destination].users >= 1
    ensures Books(Released(inputs, cs[k].source), Released(outputs, cs[k].destination), Without(cs, k), leaked,
                  links - {cs[k].linkId}, next)
  {
    EraseOne(cs, links, next, k);
    ReleaseBalances(inputs, cs, leaked, Input, k);
    ReleaseBalances(outputs, cs, leaked, Output, k);
  }

  lemma BooksForget(inputs: map<PortId, OpenDevice>, outputs: map<PortId, OpenDevice>, cs: seq<Connection>,
                    leaked: seq<Connection>, links: map<LinkId, Link>, next: LinkId, ports: set<PortId>)
    requires Books(inputs, outputs, cs, leaked, links, next)
    ensures Books(inputs, outputs, Surviving(cs, ports), leaked + Dropped(cs, ports), LinksOf(Surviving(cs, ports)), next)
  {
    LinksRebuilt(cs, ports, links, next);
    DroppingLeaks(inputs, cs, ports, leaked, Input);
    DroppingLeaks(outputs, cs, ports, leaked, Output);
  }

  /** The links of the surviving connections have been carried over. */
  ghost predicate CarriedOver(cs: seq<Connection>, ports: set<PortId>, surviving: seq<Connection>,
                              links: map<LinkId, Link>)
  {
    var carried :=
      && surviving == Surviving(cs, ports)
      && links == LinksOf(surviving)
      && forall l :: l in links ==> HasId(cs, l);
    carried
  }

  lemma CarryOne(cs: seq<Connection>, i: nat, ports: set<PortId>, surviving: seq<Connection>, links: map<LinkId, Link>,
                 link: Link)
    requires i < |cs| && AllDistinct(cs) && CarriedOver(cs[..i], ports, surviving, links)
    requires link == Link(cs[i].linkId, cs[i].source, cs[i].destination)
    ensures link.id !in links
    ensures if Present(cs[i], ports) then CarriedOver(cs[..i + 1], ports, surviving + [cs[i]], links[link.id := link])
            else CarriedOver(cs[..i + 1], ports, surviving, links)
  {
    var before, after := cs[..i], cs[..i + 1];
    assert after[..i] == before && after[i] == cs[i];
    assert (surviving + [cs[i]])[..|surviving|] == surviving;
    forall l | l in links
      ensures l != link.id && HasId(after, l)
    {
      var j :| 0 <= j < i && before[j].linkId == l;
      assert after[j] == before[j] == cs[j];
    }
  }

  class WindowsMidiDriver {
    var graph: Graph
    var devices: map<PortId, MidiDevice>
    var inputs: map<PortId, OpenDevice>
    var outputs: map<PortId, OpenDevice>
    var connections: seq<Connection>
    var nextLink: LinkId
    /** Connections that refreshes forgot without releasing their handles. */
    ghost var leaked: seq<Connection>

    ghost predicate Valid()
      reads this, graph
    {
      var sound :=
        && Books(inputs, outputs, connections, leaked, graph.links, nextLink)
        && Pictured(devices, graph.nodes, graph.ports);
      sound
    }

    constructor ()
      ensures Valid() && fresh(graph)
      ensures connections == [] && inputs == outputs == map[] && devices == map[] && graph.links == map[]
      ensures leaked == [] && nextLink == 1
    {
      graph := new Graph();
      devices, inputs, outputs, connections, nextLink := map[], map[], map[], [], 1;
      leaked := [];
    }

    /** Both handles of a live connection are open, and no open handle has fewer users than connections naming it. */
    lemma LiveConnectionsAreOpen(i: nat)
      requires Valid() && i < |connections|
      ensures var source, destination := connections[i].source, connections[i].destination;
        && source in inputs && inputs[source].users >= Uses(connections, Input, source) >= 1
        && destination in outputs && outputs[destination].users >= Uses(connections, Output, destination) >= 1
    {
      UsesWithout(connections, i, Input, connections[i].source);
      UsesWithout(connections, i, Output, connections[i].destination);
      assert Users(inputs, connections[i].source) >= 1;
      assert Users(outputs, connections[i].destination) >= 1;
    }

    /** Users equal the connections naming the port, everywhere, exactly when nothing was leaked. */
    lemma ExactUnlessLeaked(side: DeviceKind)
      requires Valid()
      ensures (forall p: PortId :: Users(if side.Input? then inputs else outputs, p) == Uses(connections, side, p))
          <==> leaked == []
    {
      var open := if side.Input? then inputs else outputs;
      assert Balanced(open, connections, leaked, side);
      if leaked != [] {
        var p := EndOf(leaked[0], side);
        UsesWithout(leaked, 0, side, p);
        assert Users(open, p) > Uses(connections, side, p);
      }
    }

    method OpenInput(port: PortId, answer: Option<nat>) returns (handle: Option<nat>)
      modifies this`inputs
      ensures handle == if port in old(inputs) then Some(old(inputs)[port].handle) else answer
      ensures inputs == if handle.None? then old(inputs) else Taken(old(inputs), port, handle.value)
    {
      if port in inputs {
        inputs := inputs[port := inputs[port].(users := inputs[port].users + 1)];
        return Some(inputs[port].handle);
      }
      if answer.None? {
        return None;
      }
      inputs := inputs[port := OpenDevice(answer.value, 1)];
      handle := answer;
    }

    method OpenOutput(port: PortId, answer: Option<nat>) returns (handle: Option<nat>)
      modifies this`outputs
      ensures handle == if port in old(outputs) then Some(old(outputs)[port].handle) else answer
      ensures outputs == if handle.None? then old(outputs) else Taken(old(outputs), port, handle.value)
    {
      if port in outputs {
        outputs := outputs[port := outputs[port].(users := outputs[port].users + 1)];
        return Some(outputs[port].handle);
      }
      if answer.None? {
        return None;
      }
      outputs := outputs[port := OpenDevice(answer.value, 1)];
      handle := answer;
    }

    /** Give up one use; the handle closes when the last goes.  The count never drops below zero. */
    method ReleaseInput(port: PortId)
      requires port in inputs ==> inputs[port].users >= 1
      modifies this`inputs
      ensures inputs == Released(old(inputs), port)
    {
      if port !in inputs {
        return;
      }
      var open := inputs[port];
      open := open.(users := open.users - 1);
      if open.users > 0 {
        inputs := inputs[port := open];
        return;
      }
      inputs := inputs - {port};
    }

    method ReleaseOutput(port: PortId)
      requires port in outputs ==> outputs[port].users >= 1
      modifies this`outputs
      ensures outputs == Released(old(outputs), port)
    {
      if port !in outputs {
        return;
      }
      var open := outputs[port];
      open := open.(users := open.users - 1);
      if open.users > 0 {
        outputs := outputs[port := open];
        return;
      }
      outputs := outputs - {port};
    }

    /** Why a connect request is refused before anything is opened. */
    function RequestProblem(source: PortId, destination: PortId): Option<MidiError>
      reads this
    {
      if source !in devices then Some(GraphFailure(MissingPort(source)))
      else if destination !in devices then Some(GraphFailure(MissingPort(destination)))
      else if !devices[source].kind.Input? || !devices[destination].kind.Output? then Some(WrongKinds)
      else if exists i :: 0 <= i < |connections| && Names(connections[i], source, destination)
      then Some(GraphFailure(DuplicateConnection(source, destination)))
      else None
    }

    /** The first step of opening and pairing two ends that WinMM refuses. */
    function PairProblem(source: PortId, destination: PortId, answers: WinMm): Option<MidiError>
      reads this
    {
      if source !in inputs && answers.inputHandle.None? then Some(OpenInputFailed)
      else if destination !in outputs && answers.outputHandle.None? then Some(OpenOutputFailed)
      else if !answers.connects then Some(ConnectFailed)
      else if !answers.starts then Some(StartFailed)
      else None
    }

    /** Open both ends and pair them; on any refusal both handle tables are exactly as before. */
    method OpenPair(source: PortId, destination: PortId, answers: WinMm) returns (problem: Option<MidiError>)
      requires forall p :: p in inputs ==> inputs[p].users >= 1
      requires forall p :: p in outputs ==> outputs[p].users >= 1
      modifies this`inputs, this`outputs
      ensures problem == old(PairProblem(source, destination, answers))
      ensures problem.Some? ==> inputs == old(inputs) && outputs == old(outputs)
      ensures problem.None? ==>
                && answers.connects && answers.starts
                && OneMoreUser(old(inputs), inputs, source) && OneMoreUser(old(outputs), outputs, destination)
      ensures problem.None? <==>
                && (source in old(inputs) || answers.inputHandle.Some?)
                && (destination in old(outputs) || answers.outputHandle.Some?)
                && answers.connects && answers.starts
    {
      var input := OpenInput(source, answers.inputHandle);
      if input.None? {
        return Some(OpenInputFailed);
      }
      TakeThenRelease(old(inputs), source, input.value);
      var output := OpenOutput(destination, answers.outputHandle);
      if output.None? {
        ReleaseInput(source);
        return Some(OpenOutputFailed);
      }
      TakeThenRelease(old(outputs), destination, output.value);
      if !answers.connects {
        ReleaseOutput(destination);
        ReleaseInput(source);
        return Some(ConnectFailed);
      }
      if !answers.starts {
        ReleaseOutput(destination);
        ReleaseInput(source);
        return Some(StartFailed);
      }
      problem := None;
    }

    /**
    Connect an input device to an output device.  A refusal leaves handles, users, connections, links and
    link numbers exactly as they were; success adds one user to each end, one connection and its link.
    */
    method Connect(source: PortId, destination: PortId, answers: WinMm) returns (result: MidiResult<Link>)
      requires Valid()
      modifies this`inputs, this`outputs, this`connections, this`nextLink, graph`links
      ensures Valid()
      ensures result.Refused? ==>
                && inputs == old(inputs) && outputs == old(outputs) && connections == old(connections)
                && graph.links == old(graph.links) && nextLink == old(nextLink)
      ensures result.Done? ==>
                && result.value == Link(old(nextLink), source, destination) && nextLink == old(nextLink) + 1
                && connections == old(connections) + [Connection(old(nextLink), source, destination)]
                && graph.links == old(graph.links)[old(nextLink) := result.value]
                && (forall p: PortId :: Users(inputs, p) == Users(old(inputs), p) + if p == source then 1 else 0)
                && (forall p: PortId :: Users(outputs, p) == Users(old(outputs), p) + if p == destination then 1 else 0)
      ensures old(RequestProblem(source, destination)).Some? ==>
                result == Refused(old(RequestProblem(source, destination)).value)
      ensures old(RequestProblem(source, destination)).None? && old(PairProblem(source, destination, answers)).Some? ==>
                result == Refused(old(PairProblem(source, destination, answers)).value)
      ensures result.Done? <==>
                && old(RequestProblem(source, destination)).None?
                && (source in old(inputs) || answers.inputHandle.Some?)
                && (destination in old(outputs) || answers.outputHandle.Some?)
                && answers.connects && answers.starts
    {
      var problem := RequestProblem(source, destination);
      if problem.Some? {
        return Refused(problem.value);
      }
      problem := OpenPair(source, destination, answers);
      if problem.Some? {
        return Refused(problem.value);
      }
      DevicesFit(connections, devices, graph.View(), nextLink, source, destination);
      OneMoreIsCounted(old(inputs), inputs, source);
      OneMoreIsCounted(old(outputs), outputs, destination);
      result := DrawConnection(source, destination, old(inputs), old(outputs));
    }

    /** Draw the link and record the connection, or give both ends back. */
    method DrawConnection(source: PortId, destination: PortId, ghost inputsBefore: map<PortId, OpenDevice>,
                          ghost outputsBefore: map<PortId, OpenDevice>)
      returns (result: MidiResult<Link>)
      requires Books(inputsBefore, outputsBefore, connections, leaked, graph.links, nextLink)
      requires OneMoreUser(inputsBefore, inputs, source) && OneMoreUser(outputsBefore, outputs, destination)
      requires forall i :: 0 <= i < |connections| ==> !Names(connections[i], source, destination)
      modifies this`inputs, this`outputs, this`connections, this`nextLink, graph`links
      ensures Books(inputs, outputs, connections, leaked, graph.links, nextLink) && nextLink == old(nextLink) + 1
      ensures result.Done? <==> LinkProblem(old(graph.View()), old(nextLink), source, destination).None?
      ensures result.Refused? ==>
                && inputs == inputsBefore && outputs == outputsBefore && connections == old(connections)
                && graph.links == old(graph.links)
      ensures result.Done? ==>
                && result.value == Link(old(nextLink), source, destination)
                && inputs == old(inputs) && outputs == old(outputs)
                && connections == old(connections) + [Connection(old(nextLink), source, destination)]
                && graph.links == old(graph.links)[old(nextLink) := result.value]
    {
      var link := nextLink;
      nextLink := nextLink + 1;
      var added := graph.AddLink(link, source, destination);
      if added.Failure? {
        BooksGivenBack(inputsBefore, outputsBefore, connections, leaked, graph.links, link, source, destination,
                       inputs, outputs);
        ReleaseOutput(destination);
        ReleaseInput(source);
        return Refused(GraphFailure(added.error));
      }
      var connection := Connection(link, source, destination);
      BooksOpenUp(inputsBefore, outputsBefore, connections, leaked, old(graph.links), link, connection, inputs, outputs);
      connections := connections + [connection];
      result := Done(added.value);
    }

    /** The first connection drawn as `link`, or the number of connections. */
    method PositionOf(link: LinkId) returns (position: nat)
      ensures position <= |connections|
      ensures forall i :: 0 <= i < position ==> connections[i].linkId != link
      ensures position < |connections| ==> connections[position].linkId == link
    {
      position := 0;
      while position < |connections| && connections[position].linkId != link
        invariant position <= |connections|
        invariant forall i :: 0 <= i < position ==> connections[i].linkId != link
      {
        position := position + 1;
      }
    }

    /** Remove one connection, giving back one use of each end; other connections keep theirs. */
    method Disconnect(link: LinkId) returns (result: MidiResult<Link>)
      requires Valid()
      modifies this`inputs, this`outputs, this`connections, graph`links
      ensures Valid()
      ensures result.Done? <==> exists i :: 0 <= i < |old(connections)| && old(connections)[i].linkId == link
      ensures result.Refused? ==>
                && result.error == GraphFailure(MissingLink(link))
                && inputs == old(inputs) && outputs == old(outputs) && connections == old(connections)
                && graph.links == old(graph.links)
      ensures result.Done? ==>
                && link in old(graph.links) && result.value == old(graph.links)[link]
                && graph.links == old(graph.links) - {link}
                && inputs == Released(old(inputs), result.value.outputPort)
                && outputs == Released(old(outputs), result.value.inputPort)
                && exists i :: 0 <= i < |old(connections)| && old(connections)[i].linkId == link
                               && connections == Without(old(connections), i)
    {
      var position := PositionOf(link);
      if position == |connections| {
        return Refused(GraphFailure(MissingLink(link)));
      }
      var connection := connections[position];
      RemoveAt(position, connection);
      var removed := graph.RemoveLink(link);
      result := Done(removed.value);
    }

    method RemoveAt(position: nat, connection: Connection)
      requires Valid() && position < |connections| && connection == connections[position]
      modifies this`inputs, this`outputs, this`connections
      ensures connection.linkId in graph.links
      ensures graph.links[connection.linkId] == Link(connection.linkId, connection.source, connection.destination)
      ensures connections == Without(old(connections), position)
      ensures inputs == Released(old(inputs), connection.source)
      ensures outputs == Released(old(outputs), connection.destination)
      ensures Books(inputs, outputs, connections, leaked, graph.links - {connection.linkId}, nextLink)
    {
      BooksClose(inputs, outputs, connections, leaked, graph.links, nextLink, position);
      connections := Without(connections, position);
      ReleaseInput(connection.source);
      ReleaseOutput(connection.destination);
    }

    /** A graph and table of the devices the system reports, or the first clash of ids. */
    static method BuildGraph(reported: seq<MidiDevice>)
      returns (problem: Option<GraphError>, graph: Graph, table: map<PortId, MidiDevice>)
      ensures fresh(graph)
      ensures problem.None? <==> ClashFree(reported)
      ensures problem.None? ==> Shown(reported, table, graph.View())
    {
      graph := new Graph();
      table := map[];
      for i := 0 to |reported|
        invariant fresh(graph) && Shown(reported[..i], table, graph.View())
      {
        var device := reported[i];
        problem := AddDevice(graph, table, device, reported, i);
        if problem.Some? {
          return;
        }
        table := table[device.portId := device];
      }
      assert reported[..|reported|] == reported;
      ShownIsClashFree(reported, table, graph.View());
      problem := None;
    }

    /** Draw one more device, unless its node id or its port id is taken. */
    static method AddDevice(graph: Graph, ghost table: map<PortId, MidiDevice>, device: MidiDevice,
                            ghost reported: seq<MidiDevice>, ghost i: nat)
      returns (problem: Option<GraphError>)
      requires i < |reported| && device == reported[i] && Shown(reported[..i], table, graph.View())
      modifies graph`nodes, graph`ports
      ensures problem.None? <==> ClashFree(reported[..i + 1])
      ensures problem.Some? ==> !ClashFree(reported)
      ensures problem.None? ==> Shown(reported[..i + 1], table[device.portId := device], graph.View())
    {
      ghost var before := graph.View();
      ReportOne(reported, i, table, before);
      var added := graph.AddNode(NewNode(device.nodeId, device.name, WindowsMidi));
      if added.Failure? {
        return Some(added.error);
      }
      added := graph.AddPort(PortOf(device));
      if added.Failure? {
        return Some(added.error);
      }
      ShowOne(reported, i, table, before, graph.View());
      problem := None;
    }

    /** Carry the surviving connections' links over into a rebuilt graph. */
    method CarryOver(rebuilt: Graph, ports: set<PortId>) returns (surviving: seq<Connection>)
      requires rebuilt != graph && rebuilt.links == map[] && rebuilt.ports.Keys == ports
      requires Drawn(connections, graph.links, nextLink)
      modifies rebuilt`links
      ensures surviving == Surviving(connections, ports)
      ensures rebuilt.links == LinksOf(surviving)
    {
      surviving := [];
      for i := 0 to |connections|
        invariant CarriedOver(connections[..i], ports, surviving, rebuilt.links)
      {
        var connection := connections[i];
        var link := graph.links[connection.linkId];
        CarryOne(connections, i, ports, surviving, rebuilt.links, link);
        if link.outputPort in ports && link.inputPort in ports {
          var inserted := rebuilt.InsertExistingLink(link);
          surviving := surviving + [connection];
        }
      }
      assert connections[..|connections|] == connections;
    }

    /**
    Rebuild the graph for the devices now reported.  A connection whose device vanished is dropped
    without releasing its handles, so its uses become leaked; with none dropped nothing leaks.
    */
    method Refresh(reported: seq<MidiDevice>) returns (problem: Option<GraphError>)
      requires Valid()
      modifies this`graph, this`devices, this`connections, this`leaked
      ensures Valid()
      ensures inputs == old(inputs) && outputs == old(outputs) && nextLink == old(nextLink)
      ensures problem.Some? ==>
                && graph == old(graph) && devices == old(devices) && connections == old(connections)
                && leaked == old(leaked)
      ensures problem.None? <==> ClashFree(reported)
      ensures problem.None? ==>
                && fresh(graph) && devices.Keys == (set d | d in reported :: d.portId)
                && (forall d :: d in reported ==> devices[d.portId] == d)
                && connections == Surviving(old(connections), devices.Keys)
                && graph.links == LinksOf(connections)
                && leaked == old(leaked) + Dropped(old(connections), devices.Keys)
    {
      var rebuilt, table;
      problem, rebuilt, table := BuildGraph(reported);
      if problem.Some? {
        return;
      }
      var surviving := CarryOver(rebuilt, table.Keys);
      BooksForget(inputs, outputs, connections, leaked, graph.links, nextLink, table.Keys);
      leaked := leaked + Dropped(connections, table.Keys);
      connections := surviving;
      graph := rebuilt;
      devices := table;
    }
  }

  lemma OneForgotten(cs: seq<Connection>, c: Connection, ports: set<PortId>)
    requires cs == [c] && !Present(c, ports)
    ensures Surviving(cs, ports) == [] && Dropped(cs, ports) == [c] && LinksOf([]) == map[]
  {
    assert cs[..0] == [];
  }

  lemma OneCounted(open: map<PortId, OpenDevice>, cs: seq<Connection>, leaked: seq<Connection>, side: DeviceKind,
                   c: Connection)
    requires Balanced(open, cs, leaked, side) && cs == [] && leaked == [c]
    ensures open.Keys == {EndOf(c, side)} && open[EndOf(c, side)].users == 1
  {
    UsesAppend([], c, side, EndOf(c, side));
    assert [] + [c] == [c];
    assert Users(open, EndOf(c, side)) == 1;
    forall p | p in open
      ensures p == EndOf(c, side)
    {
      UsesAppend([], c, side, p);
      assert Users(open, p) >= 1;
    }
  }

  /** A driver that has just found a keyboard and a synthesizer. */
  method Plugged(keys: MidiDevice, synth: MidiDevice) returns (driver: WindowsMidiDriver)
    requires ClashFree([keys, synth])
    ensures fresh(driver) && fresh(driver.graph) && driver.Valid()
    ensures driver.connections == [] && driver.leaked == [] && driver.nextLink == 1
    ensures keys.portId in driver.devices && driver.devices[keys.portId] == keys
    ensures synth.portId in driver.devices && driver.devices[synth.portId] == synth
  {
    driver := new WindowsMidiDriver();
    var reported := [keys, synth];
    assert keys == reported[0] && synth == reported[1];
    var problem := driver.Refresh(reported);
  }

  /** A driver that has just connected the two. */
  method KeysToSynth(keys: MidiDevice, synth: MidiDevice) returns (driver: WindowsMidiDriver)
    requires keys.kind.Input? && synth.kind.Output? && ClashFree([keys, synth])
    ensures fresh(driver) && fresh(driver.graph) && driver.Valid()
    ensures driver.connections == [Connection(1, keys.portId, synth.portId)] && driver.leaked == []
  {
    driver := Plugged(keys, synth);
    var connected := driver.Connect(keys.portId, synth.portId, WinMm(Some(7), Some(8), true, true));
  }

  /** A refresh that misses a device of the only connection. */
  method ForgetOne(driver: WindowsMidiDriver, c: Connection, reported: seq<MidiDevice>)
    requires driver.Valid() && driver.connections == [c] && driver.leaked == []
    requires ClashFree(reported) && !Present(c, set d | d in reported :: d.portId)
    modifies driver`graph, driver`devices, driver`connections, driver`leaked
    ensures driver.Valid() && driver.devices.Keys == set d | d in reported :: d.portId
    ensures driver.connections == [] && driver.leaked == [c] && driver.graph.links == map[]
  {
    OneForgotten(driver.connections, c, set d | d in reported :: d.portId);
    var problem := driver.Refresh(reported);
  }

  /** The only connection loses its output device: it is forgotten, yet both its handles stay open and counted. */
  method UnpluggedDeviceLeaks(keys: MidiDevice, synth: MidiDevice) returns (driver: WindowsMidiDriver)
    requires keys.kind.Input? && synth.kind.Output? && ClashFree([keys, synth])
    ensures fresh(driver) && driver.Valid() && driver.devices.Keys == {keys.portId}
    ensures driver.connections == [] && driver.graph.links == map[]
    ensures driver.inputs.Keys == {keys.portId} && driver.inputs[keys.portId].users == 1
    ensures driver.outputs.Keys == {synth.portId} && driver.outputs[synth.portId].users == 1
  {
    assert [keys, synth][0].portId != [keys, synth][1].portId;
    driver := KeysToSynth(keys, synth);
    var c := Connection(1, keys.portId, synth.portId);
    var reported := [keys];
    assert (set d | d in reported :: d.portId) == {keys.portId};
    ForgetOne(driver, c, reported);
    OneCounted(driver.inputs, driver.connections, driver.leaked, Input, c);
    OneCounted(driver.outputs, driver.connections, driver.leaked, Output, c);
  }

  /** A refresh leaks nothing exactly when every connection's devices are still there. */
  lemma LeaksIffDropped(cs: seq<Connection>, ports: set<PortId>)
    ensures Dropped(cs, ports) == [] <==> forall c :: c in cs ==> Present(c, ports)
  {
    SurvivingComesFrom(cs, ports);
    if Dropped(cs, ports) != [] {
      assert Dropped(cs, ports)[0] in Dropped(cs, ports);
    }
  }
}
