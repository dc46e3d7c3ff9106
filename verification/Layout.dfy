/**
Suggested node positions: columns by graph layer and role, an order inside each
column by static keys and barycentre sweeps, and vertical stacking.
*/
module Layout {
  import opened GraphTypes
  import opened GraphStore
  import opened StableSort
  import opened ModArith
  import opened Layering
  import EndpointResolver

  const LAYOUT_LEFT: real := 40.0
  const LAYOUT_TOP: real := 40.0
  const LAYOUT_X_STEP: real := 360.0
  const LAYOUT_ROW_GAP: real := 70.0
  const LAYOUT_LANE_GAP: real := 28.0
  const LAYOUT_DISCONNECTED_GAP: real := 64.0

  datatype Position = Position(x: real, y: real)

  // Node classification.

  predicate HasDirection(g: GraphView, node: Node, direction: Direction) {
    exists p :: p in node.ports && p in g.ports && g.ports[p].direction == direction
  }

  predicate HasType(g: GraphView, node: Node, types: set<PortType>) {
    exists p :: p in node.ports && p in g.ports && g.ports[p].portType in types
  }

  /** 0 for pure sources, 2 for pure sinks, 1 for everything else. */
  function LayoutRole(g: GraphView, node: Node): nat {
    match (HasDirection(g, node, Source), HasDirection(g, node, Sink))
    case (true, false) => 0
    case (false, true) => 2
    case _ => 1
  }

  function MediaCategory(g: GraphView, node: Node): nat {
    if HasType(g, node, {Audio}) then 0
    else if HasType(g, node, {Video}) then 1
    else if HasType(g, node, {MidiJack, MidiAlsa}) then 2
    else 3
  }

  /** Hardware capture, application, processing, output, recorder. */
  function LayoutLane(g: GraphView, node: Node): nat {
    if node.nodeType.Recorder? then 4
    else if node.nodeType.Effect? then 2
    else if node.nodeType.WindowsAudioSession? || EndpointResolver.HasApplicationIdentity(node.MatchingIdentity()) then 1
    else if HasDirection(g, node, Sink) then 3
    else if HasDirection(g, node, Source) then 0
    else 2
  }

  function LayoutHeight(g: GraphView, node: Node): (height: real)
    ensures height >= 62.0
  {
    var panel := if node.nodeType.Recorder? then 68.0 else if HasType(g, node, {Audio}) then 42.0 else 0.0;
    var wanted := 42.0 + panel + 14.0 + |node.ports| as real * 25.0;
    if wanted >= 62.0 then wanted else 62.0
  }

  // The static order inside a column.

  predicate TextAtMost(a: string, b: string) {
    if a == "" then true
    else if b == "" then false
    else if a[0] != b[0] then a[0] < b[0]
    else TextAtMost(a[1..], b[1..])
  }

  function Lowered(c: char): char {
    if 'A' <= c <= 'Z' then (c as int - 'A' as int + 'a' as int) as char else c
  }

  /** `to_ascii_lowercase`. */
  function Lowercase(text: string): string {
    if text == "" then "" else [Lowered(text[0])] + Lowercase(text[1..])
  }

  datatype StaticKey = StaticKey(lane: nat, category: nat, role: nat, name: string, id: NodeId)

  function KeyOfNode(g: GraphView, n: NodeId): StaticKey {
    var node := if n in g.nodes then g.nodes[n] else NewNode(n, "", UnknownNode);
    StaticKey(LayoutLane(g, node), MediaCategory(g, node), LayoutRole(g, node), Lowercase(node.name), n)
  }

  predicate KeyAtMost(a: StaticKey, b: StaticKey) {
    if a.lane != b.lane then a.lane < b.lane
    else if a.category != b.category then a.category < b.category
    else if a.role != b.role then a.role < b.role
    else if a.name != b.name then TextAtMost(a.name, b.name)
    else a.id <= b.id
  }

  function StaticOrder(g: GraphView): (NodeId, NodeId) -> bool {
    (a: NodeId, b: NodeId) => KeyAtMost(KeyOfNode(g, a), KeyOfNode(g, b))
  }

  lemma {:induction false} TextOrder(a: string, b: string)
    ensures TextAtMost(a, b) || TextAtMost(b, a)
    ensures TextAtMost(a, b) && TextAtMost(b, a) ==> a == b
  {
    if a != "" && b != "" && a[0] == b[0] {
      TextOrder(a[1..], b[1..]);
      assert a == [a[0]] + a[1..] && b == [b[0]] + b[1..];
    }
  }

  lemma {:induction false} TextTransitive(a: string, b: string, c: string)
    requires TextAtMost(a, b) && TextAtMost(b, c)
    ensures TextAtMost(a, c)
  {
    if a != "" && a[0] == b[0] == c[0] {
      TextTransitive(a[1..], b[1..], c[1..]);
    }
  }

  lemma KeyOrder(a: StaticKey, b: StaticKey, c: StaticKey)
    ensures KeyAtMost(a, b) || KeyAtMost(b, a)
    ensures KeyAtMost(a, b) && KeyAtMost(b, c) ==> KeyAtMost(a, c)
  {
    TextOrder(a.name, b.name);
    TextOrder(b.name, c.name);
    if TextAtMost(a.name, b.name) && TextAtMost(b.name, c.name) {
      TextTransitive(a.name, b.name, c.name);
    }
  }

  lemma StaticOrderIsTotal(g: GraphView)
    ensures TotalPreorder(StaticOrder(g))
  {
    forall a, b
      ensures StaticOrder(g)(a, b) || StaticOrder(g)(b, a)
    {
      KeyOrder(KeyOfNode(g, a), KeyOfNode(g, b), KeyOfNode(g, a));
    }
    forall a, b, c | StaticOrder(g)(a, b) && StaticOrder(g)(b, c)
      ensures StaticOrder(g)(a, c)
    {
      KeyOrder(KeyOfNode(g, a), KeyOfNode(g, b), KeyOfNode(g, c));
    }
  }

  // Barycentre sweeps.

  datatype Wiring = Wiring(incoming: Adjacency, outgoing: Adjacency, columnOf: map<NodeId, nat>)

  predicate IsLinked(w: Wiring, n: NodeId) {
    || (n in w.incoming && w.incoming[n] != [])
    || (n in w.outgoing && w.outgoing[n] != [])
  }

  function Unlinked(w: Wiring): NodeId -> bool {
    (n: NodeId) => !IsLinked(w, n)
  }

  /** Sum and number of the places of the neighbours that lie on the sweep's side. */
  function NeighbourPlaces(neighbours: seq<NodeId>, column: nat, forward: bool, places: map<NodeId, nat>,
                           columnOf: map<NodeId, nat>): (nat, nat)
  {
    if neighbours == [] then (0, 0)
    else
      var (total, count) := NeighbourPlaces(neighbours[1..], column, forward, places, columnOf);
      var other := if neighbours[0] in columnOf then columnOf[neighbours[0]] else column;
      if (if forward then other < column else other > column) && neighbours[0] in places
      then (places[neighbours[0]] + total, count + 1)
      else (total, count)
  }

  function NeighbourCenter(w: Wiring, n: NodeId, column: nat, forward: bool, places: map<NodeId, nat>): Option<real> {
    var lists := if forward then w.incoming else w.outgoing;
    if n !in lists then None
    else
      var (total, count) := NeighbourPlaces(lists[n], column, forward, places, w.columnOf);
      if count == 0 then None else Some(total as real / count as real)
  }

  datatype SweepKey = SweepKey(linked: bool, center: Option<real>)

  function SweepKeyOf(w: Wiring, n: NodeId, column: nat, forward: bool, places: map<NodeId, nat>): SweepKey {
    SweepKey(IsLinked(w, n), NeighbourCenter(w, n, column, forward, places))
  }

  /** Linked nodes first, by centre, those without one last; unlinked nodes all compare equal. */
  predicate SweepAtMost(a: SweepKey, b: SweepKey) {
    if a.linked != b.linked then a.linked
    else if !a.linked then true
    else match (a.center, b.center)
      case (Some(x), Some(y)) => x <= y
      case (None, Some(_)) => false
      case (_, None) => true
  }

  function SweepOrder(w: Wiring, column: nat, forward: bool, places: map<NodeId, nat>): (NodeId, NodeId) -> bool {
    (a: NodeId, b: NodeId) =>
      SweepAtMost(SweepKeyOf(w, a, column, forward, places), SweepKeyOf(w, b, column, forward, places))
  }

  lemma SweepOrderIsTotal(w: Wiring, column: nat, forward: bool, places: map<NodeId, nat>)
    ensures TotalPreorder(SweepOrder(w, column, forward, places))
    ensures AllEqual(Unlinked(w), SweepOrder(w, column, forward, places))
  {
  }

  /** Every node of `columns` with its place in its own column. */
  function PlacesUpTo(columns: seq<seq<NodeId>>): map<NodeId, nat> {
    if columns == [] then map[]
    else PlacesUpTo(columns[..|columns| - 1]) + PlacesIn(columns[|columns| - 1])
  }

  function PlacesIn(nodes: seq<NodeId>): map<NodeId, nat> {
    if nodes == [] then map[]
    else PlacesIn(nodes[..|nodes| - 1])[nodes[|nodes| - 1] := |nodes| - 1]
  }

  ghost predicate LinkedFirst(w: Wiring, nodes: seq<NodeId>) {
    forall i, j :: 0 <= i < j < |nodes| && IsLinked(w, nodes[j]) ==> IsLinked(w, nodes[i])
  }

  /** The same nodes, with the unlinked ones still in their old order. */
  ghost predicate Rearranged(w: Wiring, before: seq<NodeId>, after: seq<NodeId>) {
    && multiset(before) == multiset(after)
    && Filter(before, Unlinked(w)) == Filter(after, Unlinked(w))
  }

  /** A sort by sweep order only rearranges a column, and brings its linked nodes to the front. */
  lemma SortedColumn(w: Wiring, nodes: seq<NodeId>, column: nat, forward: bool, places: map<NodeId, nat>,
                     sorted: seq<NodeId>)
    requires sorted == Sort(nodes, SweepOrder(w, column, forward, places))
    ensures Rearranged(w, nodes, sorted)
    ensures SortedBy(sorted, SweepOrder(w, column, forward, places))
    ensures LinkedFirst(w, sorted)
  {
    SweepOrderIsTotal(w, column, forward, places);
    SortPermutes(nodes, SweepOrder(w, column, forward, places));
    SortSorts(nodes, SweepOrder(w, column, forward, places));
    SortIsStable(nodes, SweepOrder(w, column, forward, places), Unlinked(w));
    forall i, j | 0 <= i < j < |sorted| && IsLinked(w, sorted[j])
      ensures IsLinked(w, sorted[i])
    {
      assert SweepOrder(w, column, forward, places)(sorted[i], sorted[j]);
    }
  }

  /** Sort one column by the places its neighbours now have. */
  function SweepColumn(w: Wiring, before: seq<seq<NodeId>>, column: nat, forward: bool): (after: seq<seq<NodeId>>)
    requires column < |before|
    ensures |after| == |before|
  {
    before[column := Sort(before[column], SweepOrder(w, column, forward, PlacesUpTo(before)))]
  }

  /** The columns after the first `steps` sorts of a sweep, each seeing the places the previous ones left. */
  function SweepSteps(w: Wiring, start: seq<seq<NodeId>>, forward: bool, steps: nat): (columns: seq<seq<NodeId>>)
    requires steps <= |start|
    ensures |columns| == |start|
  {
    if steps == 0 then start
    else
      var before := SweepSteps(w, start, forward, steps - 1);
      var column: nat := if forward then steps - 1 else |start| - steps;
      SweepColumn(w, before, column, forward)
  }

  function SweepRounds(w: Wiring, start: seq<seq<NodeId>>, rounds: nat): seq<seq<NodeId>> {
    if rounds == 0 then start
    else
      var before := SweepRounds(w, start, rounds - 1);
      var halfway := SweepSteps(w, before, true, |before|);
      SweepSteps(w, halfway, false, |halfway|)
  }

  /** What sweeps may have done to the columns; those from `low` up to `high` have linked nodes first. */
  ghost predicate Swept(w: Wiring, before: seq<seq<NodeId>>, after: seq<seq<NodeId>>, low: int, high: int) {
    && |before| == |after|
    && (forall c :: 0 <= c < |before| ==> Rearranged(w, before[c], after[c]))
    && (forall c :: low <= c < high && 0 <= c < |after| ==> LinkedFirst(w, after[c]))
  }

  lemma OneColumnSwept(w: Wiring, original: seq<seq<NodeId>>, before: seq<seq<NodeId>>, after: seq<seq<NodeId>>,
                       low: int, high: int, column: nat, forward: bool)
    requires Swept(w, original, before, low, high) && column < |before|
    requires after == SweepColumn(w, before, column, forward)
    ensures column == high ==> Swept(w, original, after, low, high + 1)
    ensures column == low - 1 ==> Swept(w, original, after, low - 1, high)
  {
    SortedColumn(w, before[column], column, forward, PlacesUpTo(before), after[column]);
    assert Rearranged(w, original[column], before[column]);
  }

  /** The columns a sweep has dealt with after `steps` sorts. */
  ghost predicate SweptSoFar(w: Wiring, original: seq<seq<NodeId>>, columns: seq<seq<NodeId>>, forward: bool, steps: nat) {
    if forward then Swept(w, original, columns, 0, steps)
    else Swept(w, original, columns, |columns| - steps, |columns|)
  }

  lemma OneMoreStep(w: Wiring, original: seq<seq<NodeId>>, before: seq<seq<NodeId>>, after: seq<seq<NodeId>>,
                    forward: bool, steps: nat, column: nat)
    requires steps < |before| && SweptSoFar(w, original, before, forward, steps)
    requires column == (if forward then steps else |before| - 1 - steps) && after == SweepColumn(w, before, column, forward)
    ensures SweptSoFar(w, original, after, forward, steps + 1)
  {
    if forward {
      OneColumnSwept(w, original, before, after, 0, steps, steps, forward);
    } else {
      OneColumnSwept(w, original, before, after, |before| - steps, |before|, |before| - 1 - steps, forward);
    }
  }

  lemma {:induction false} SweepStepsArrange(w: Wiring, original: seq<seq<NodeId>>, start: seq<seq<NodeId>>,
                                             forward: bool, steps: nat, columns: seq<seq<NodeId>>)
    requires steps <= |start| && Swept(w, original, start, 0, 0)
    requires columns == SweepSteps(w, start, forward, steps)
    ensures SweptSoFar(w, original, columns, forward, steps)
  {
    if steps > 0 {
      var before := SweepSteps(w, start, forward, steps - 1);
      SweepStepsArrange(w, original, start, forward, steps - 1, before);
      var column: nat := if forward then steps - 1 else |start| - steps;
      assert columns == SweepColumn(w, before, column, forward);
      OneMoreStep(w, original, before, columns, forward, steps - 1, column);
    }
  }

  /** Any number of sweeps only rearranges columns; after the first, linked nodes lead each of them. */
  lemma {:induction false} SweepRoundsArrange(w: Wiring, start: seq<seq<NodeId>>, rounds: nat)
    ensures Swept(w, start, SweepRounds(w, start, rounds), 0, if rounds == 0 then 0 else |start|)
  {
    if rounds > 0 {
      SweepRoundsArrange(w, start, rounds - 1);
      var before := SweepRounds(w, start, rounds - 1);
      var halfway := SweepSteps(w, before, true, |before|);
      SweepStepsArrange(w, start, before, true, |before|, halfway);
      var after := SweepSteps(w, halfway, false, |halfway|);
      SweepStepsArrange(w, start, halfway, false, |halfway|, after);
    }
  }

  // The last backward sweep settles the order: what it has passed does not change any more.

  lemma {:induction false} PlacesInAt(nodes: seq<NodeId>, k: nat)
    requires k < |nodes| && Distinct(nodes)
    ensures forall n :: n in PlacesIn(nodes) <==> n in nodes
    ensures PlacesIn(nodes)[nodes[k]] == k
  {
    var last := |nodes| - 1;
    assert nodes == nodes[..last] + [nodes[last]];
    if last > 0 {
      PlacesInAt(nodes[..last], if k < last then k else 0);
    }
  }

  lemma PlacesInHas(nodes: seq<NodeId>)
    requires Distinct(nodes)
    ensures forall n :: n in PlacesIn(nodes) <==> n in nodes
  {
    if nodes != [] {
      PlacesInAt(nodes, 0);
    }
  }

  /** A node's place is its index in the one column that has it. */
  lemma {:induction false} PlaceInColumn(columns: seq<seq<NodeId>>, c: nat, k: nat)
    requires c < |columns| && k < |columns[c]| && forall d :: 0 <= d < |columns| ==> Distinct(columns[d])
    requires forall d :: 0 <= d < |columns| && d != c ==> columns[c][k] !in columns[d]
    ensures columns[c][k] in PlacesUpTo(columns) && PlacesUpTo(columns)[columns[c][k]] == k
  {
    var last := |columns| - 1;
    PlacesInHas(columns[last]);
    if c == last {
      PlacesInAt(columns[c], k);
    } else {
      PlaceInColumn(columns[..last], c, k);
    }
  }

  /** The same columns to the right of `column` give its right-hand neighbours the same places. */
  lemma RightPlacesAgree(columnOf: map<NodeId, nat>, a: seq<seq<NodeId>>, b: seq<seq<NodeId>>, column: nat, n: NodeId)
    requires Holds(a, columnOf) && Holds(b, columnOf) && |a| == |b|
    requires forall d :: column < d < |a| ==> a[d] == b[d]
    requires n in columnOf && columnOf[n] > column
    ensures n in PlacesUpTo(a) && n in PlacesUpTo(b) && PlacesUpTo(a)[n] == PlacesUpTo(b)[n]
  {
    var d := columnOf[n];
    assert n in a[d];
    var k :| 0 <= k < |a[d]| && a[d][k] == n;
    PlaceInColumn(a, d, k);
    PlaceInColumn(b, d, k);
  }

  lemma {:induction false} RightSumsAgree(neighbours: seq<NodeId>, columnOf: map<NodeId, nat>, column: nat,
                                          a: map<NodeId, nat>, b: map<NodeId, nat>)
    requires forall n :: n in columnOf && columnOf[n] > column ==> n in a && n in b && a[n] == b[n]
    ensures NeighbourPlaces(neighbours, column, false, a, columnOf) == NeighbourPlaces(neighbours, column, false, b, columnOf)
  {
    if neighbours != [] {
      RightSumsAgree(neighbours[1..], columnOf, column, a, b);
    }
  }

  /** The backward order of a column depends on nothing but the columns to its right. */
  lemma BackwardOrderAgrees(w: Wiring, a: seq<seq<NodeId>>, b: seq<seq<NodeId>>, column: nat, nodes: seq<NodeId>)
    requires Holds(a, w.columnOf) && Holds(b, w.columnOf) && |a| == |b|
    requires forall d :: column < d < |a| ==> a[d] == b[d]
    requires SortedBy(nodes, SweepOrder(w, column, false, PlacesUpTo(a)))
    ensures SortedBy(nodes, SweepOrder(w, column, false, PlacesUpTo(b)))
  {
    forall n | n in w.columnOf && w.columnOf[n] > column
      ensures n in PlacesUpTo(a) && n in PlacesUpTo(b) && PlacesUpTo(a)[n] == PlacesUpTo(b)[n]
    {
      RightPlacesAgree(w.columnOf, a, b, column, n);
    }
    forall n
      ensures SweepKeyOf(w, n, column, false, PlacesUpTo(a)) == SweepKeyOf(w, n, column, false, PlacesUpTo(b))
    {
      if n in w.outgoing {
        RightSumsAgree(w.outgoing[n], w.columnOf, column, PlacesUpTo(a), PlacesUpTo(b));
      }
    }
    forall i, j | 0 <= i < j < |nodes|
      ensures SweepOrder(w, column, false, PlacesUpTo(b))(nodes[i], nodes[j])
    {
      assert SweepOrder(w, column, false, PlacesUpTo(a))(nodes[i], nodes[j]);
    }
  }

  /** This column is in the order that the places of its right-hand neighbours ask for. */
  ghost predicate SettledColumn(w: Wiring, columns: seq<seq<NodeId>>, c: nat)
    requires c < |columns|
  {
    SortedBy(columns[c], SweepOrder(w, c, false, PlacesUpTo(columns)))
  }

  /** From `low` on every column is sorted by the present average place of each node's right-hand neighbours. */
  ghost predicate Settled(w: Wiring, columns: seq<seq<NodeId>>, low: nat) {
    forall c: nat :: low <= c < |columns| ==> SettledColumn(w, columns, c)
  }

  lemma OneMoreSettled(w: Wiring, before: seq<seq<NodeId>>, after: seq<seq<NodeId>>, column: nat)
    requires Holds(before, w.columnOf) && column < |before| && Settled(w, before, column + 1)
    requires after == SweepColumn(w, before, column, false)
    ensures Holds(after, w.columnOf) && Settled(w, after, column)
  {
    SortedColumn(w, before[column], column, false, PlacesUpTo(before), after[column]);
    PermutedHolds(before, after, w.columnOf);
    forall c: nat | column <= c < |after|
      ensures SettledColumn(w, after, c)
    {
      if c > column {
        assert SettledColumn(w, before, c);
      }
      BackwardOrderAgrees(w, before, after, c, after[c]);
    }
  }

  lemma {:induction false} BackwardSettles(w: Wiring, start: seq<seq<NodeId>>, steps: nat, columns: seq<seq<NodeId>>)
    requires steps <= |start| && Holds(start, w.columnOf) && columns == SweepSteps(w, start, false, steps)
    ensures Holds(columns, w.columnOf) && Settled(w, columns, |start| - steps)
  {
    if steps > 0 {
      var before := SweepSteps(w, start, false, steps - 1);
      BackwardSettles(w, start, steps - 1, before);
      OneMoreSettled(w, before, columns, |start| - steps);
    }
  }

  /** After any number of rounds every column is in the order its right-hand neighbours ask for. */
  lemma RoundsSettle(w: Wiring, start: seq<seq<NodeId>>, rounds: nat)
    requires Holds(start, w.columnOf) && rounds > 0
    ensures Settled(w, SweepRounds(w, start, rounds), 0)
  {
    var before := SweepRounds(w, start, rounds - 1);
    SweepRoundsArrange(w, start, rounds - 1);
    var halfway := SweepSteps(w, before, true, |before|);
    SweepStepsArrange(w, start, before, true, |before|, halfway);
    PermutedHolds(start, halfway, w.columnOf);
    BackwardSettles(w, halfway, |halfway|, SweepSteps(w, halfway, false, |halfway|));
  }

  /** One pass over all columns, left to right or right to left. */
  method Sweep(w: Wiring, start: seq<seq<NodeId>>, forward: bool) returns (columns: seq<seq<NodeId>>)
    ensures columns == SweepSteps(w, start, forward, |start|)
  {
    columns := start;
    for step := 0 to |start|
      invariant columns == SweepSteps(w, start, forward, step)
    {
      var column := if forward then step else |start| - 1 - step;
      var order := PlacesUpTo(columns);
      columns := columns[column := Sort(columns[column], SweepOrder(w, column, forward, order))];
    }
  }

  const SWEEP_ROUNDS: nat := 4

  /** Four rounds of a forward and a backward sweep. */
  method OrderColumns(w: Wiring, start: seq<seq<NodeId>>) returns (columns: seq<seq<NodeId>>)
    ensures columns == SweepRounds(w, start, SWEEP_ROUNDS)
    ensures Swept(w, start, columns, 0, |start|)
    ensures Holds(start, w.columnOf) ==> Settled(w, columns, 0)
  {
    columns := start;
    for round := 0 to SWEEP_ROUNDS
      invariant columns == SweepRounds(w, start, round)
    {
      columns := Sweep(w, columns, true);
      columns := Sweep(w, columns, false);
    }
    SweepRoundsArrange(w, start, SWEEP_ROUNDS);
    if Holds(start, w.columnOf) {
      RoundsSettle(w, start, SWEEP_ROUNDS);
    }
  }

  // Columns.

  /** The column a node ends up in: its graph layer, or its role if that layer is 0. */
  function Column(g: GraphView, layers: map<NodeId, nat>, n: NodeId): nat
    requires n in g.nodes && n in layers
  {
    if layers[n] == 0 then LayoutRole(g, g.nodes[n]) else layers[n]
  }

  /** Each column holds exactly the nodes assigned to it, once each. */
  ghost predicate Holds(columns: seq<seq<NodeId>>, columnOf: map<NodeId, nat>) {
    && (forall c :: 0 <= c < |columns| ==> Distinct(columns[c]))
    && (forall c, n :: 0 <= c < |columns| ==> (n in columns[c] <==> n in columnOf && columnOf[n] == c))
    && (forall n :: n in columnOf ==> columnOf[n] < |columns|)
  }

  ghost predicate InGraph(g: GraphView, nodes: seq<NodeId>) {
    forall n :: n in nodes ==> n in g.nodes
  }

  function HighestOf(order: seq<NodeId>, layers: map<NodeId, nat>): (highest: nat)
    requires forall n :: n in order ==> n in layers
    ensures highest >= 2
    ensures forall n :: n in order ==> layers[n] <= highest
  {
    if order == [] then 2
    else
      var rest := HighestOf(order[1..], layers);
      if layers[order[0]] > rest then layers[order[0]] else rest
  }

  /** The nodes seen so far are in their columns. */
  ghost predicate Assigned(g: GraphView, layers: map<NodeId, nat>, seen: seq<NodeId>, columns: seq<seq<NodeId>>,
                           columnOf: map<NodeId, nat>)
    requires layers.Keys == g.nodes.Keys
  {
    && (forall n :: n in columnOf <==> n in seen)
    && (forall n :: n in columnOf ==> n in g.nodes && columnOf[n] == Column(g, layers, n))
    && Holds(columns, columnOf)
  }

  lemma HoldsOneMore(columns: seq<seq<NodeId>>, columnOf: map<NodeId, nat>, n: NodeId, column: nat)
    requires Holds(columns, columnOf) && n !in columnOf && column < |columns|
    ensures Holds(columns[column := columns[column] + [n]], columnOf[n := column])
  {
    assert n !in columns[column];
  }

  lemma AssignedOneMore(g: GraphView, layers: map<NodeId, nat>, seen: seq<NodeId>, columns: seq<seq<NodeId>>,
                        columnOf: map<NodeId, nat>, n: NodeId)
    requires layers.Keys == g.nodes.Keys && n in g.nodes && n !in seen && Column(g, layers, n) < |columns|
    requires Assigned(g, layers, seen, columns, columnOf)
    ensures var column := Column(g, layers, n);
      Assigned(g, layers, seen + [n], columns[column := columns[column] + [n]], columnOf[n := column])
  {
    HoldsOneMore(columns, columnOf, n, Column(g, layers, n));
  }

  lemma NotSeenYet(order: seq<NodeId>, i: nat)
    requires i < |order| && Distinct(order)
    ensures order[..i + 1] == order[..i] + [order[i]] && order[i] in order && order[i] !in order[..i]
  {
  }

  method AssignInOrder(g: GraphView, layers: map<NodeId, nat>, order: seq<NodeId>, highest: nat)
    returns (columns: seq<seq<NodeId>>, columnOf: map<NodeId, nat>)
    requires layers.Keys == g.nodes.Keys && Distinct(order) && InGraph(g, order)
    requires highest >= 2 && forall n :: n in order ==> layers[n] <= highest
    ensures Assigned(g, layers, order, columns, columnOf)
  {
    columns := seq(highest + 1, _ => []);
    columnOf := map[];
    for i := 0 to |order|
      invariant Assigned(g, layers, order[..i], columns, columnOf)
      invariant |columns| == highest + 1
    {
      var n := order[i];
      NotSeenYet(order, i);
      var column := Column(g, layers, n);
      AssignedOneMore(g, layers, order[..i], columns, columnOf, n);
      columns := columns[column := columns[column] + [n]];
      columnOf := columnOf[n := column];
    }
    assert order[..|order|] == order;
  }

  method AssignColumns(g: GraphView, layers: map<NodeId, nat>)
    returns (columns: seq<seq<NodeId>>, columnOf: map<NodeId, nat>)
    requires layers.Keys == g.nodes.Keys
    ensures columnOf == map n | n in g.nodes :: Column(g, layers, n)
    ensures Holds(columns, columnOf)
  {
    var order := Ascending(g.nodes.Keys);
    AscendingHas(g.nodes.Keys);
    AscendingIncreases(g.nodes.Keys);
    columns, columnOf := AssignInOrder(g, layers, order, HighestOf(order, layers));
  }

  ghost predicate StaticallySorted(g: GraphView, columns: seq<seq<NodeId>>) {
    forall c :: 0 <= c < |columns| ==> SortedBy(columns[c], StaticOrder(g))
  }

  lemma PermutedHolds(before: seq<seq<NodeId>>, after: seq<seq<NodeId>>, columnOf: map<NodeId, nat>)
    requires Holds(before, columnOf) && |before| == |after|
    requires forall c :: 0 <= c < |before| ==> multiset(before[c]) == multiset(after[c])
    ensures Holds(after, columnOf)
  {
    forall c | 0 <= c < |before|
      ensures Distinct(after[c])
      ensures forall n :: n in after[c] <==> n in before[c]
    {
      PermutationKeepsDistinct(before[c], after[c]);
      PermutationFacts(before[c], after[c]);
    }
  }

  method SortColumns(g: GraphView, start: seq<seq<NodeId>>, columnOf: map<NodeId, nat>) returns (columns: seq<seq<NodeId>>)
    requires Holds(start, columnOf)
    ensures |columns| == |start| && Holds(columns, columnOf) && StaticallySorted(g, columns)
  {
    columns := start;
    StaticOrderIsTotal(g);
    for i := 0 to |start|
      invariant |columns| == |start|
      invariant forall c :: 0 <= c < |start| ==> multiset(columns[c]) == multiset(start[c])
      invariant forall c :: 0 <= c < i ==> SortedBy(columns[c], StaticOrder(g))
    {
      SortPermutes(columns[i], StaticOrder(g));
      SortSorts(columns[i], StaticOrder(g));
      columns := columns[i := Sort(columns[i], StaticOrder(g))];
    }
    PermutedHolds(start, columns, columnOf);
  }

  lemma {:induction false} FilterKeepsSorted(xs: seq<NodeId>, keep: NodeId -> bool, le: (NodeId, NodeId) -> bool)
    requires SortedBy(xs, le)
    ensures SortedBy(Filter(xs, keep), le)
  {
    if xs != [] {
      FilterKeepsSorted(xs[1..], keep, le);
      FilterHas(xs[1..], keep);
      var rest := Filter(xs[1..], keep);
      forall j | 0 <= j < |rest|
        ensures le(xs[0], rest[j])
      {
        assert rest[j] in xs[1..];
      }
    }
  }

  // The arrangement as a whole.

  datatype Plan = Plan(layers: map<NodeId, nat>, wiring: Wiring, columns: seq<seq<NodeId>>)

  /**
  Columns follow the longest walks, hold every node once, put linked nodes before
  unlinked ones, keep the unlinked ones in static order, and order the linked ones by
  the barycentre of their neighbours in later columns as these now stand.
  */
  ghost predicate GoodPlan(g: GraphView, plan: Plan) {
    && Describes(g, plan.wiring.incoming, plan.wiring.outgoing)
    && plan.layers.Keys == g.nodes.Keys
    && (forall n :: n in g.nodes ==> LongestWalk(plan.wiring.outgoing, n, |g.nodes| - 1, plan.layers[n]))
    && plan.wiring.columnOf == (map n | n in g.nodes :: Column(g, plan.layers, n))
    && Holds(plan.columns, plan.wiring.columnOf)
    && (forall c :: 0 <= c < |plan.columns| ==> LinkedFirst(plan.wiring, plan.columns[c]))
    && (forall c :: 0 <= c < |plan.columns| ==>
          SortedBy(Filter(plan.columns[c], Unlinked(plan.wiring)), StaticOrder(g)))
    && Settled(plan.wiring, plan.columns, 0)
  }

  lemma SweptPlan(g: GraphView, w: Wiring, sorted: seq<seq<NodeId>>, columns: seq<seq<NodeId>>)
    requires Holds(sorted, w.columnOf) && StaticallySorted(g, sorted)
    requires Swept(w, sorted, columns, 0, |sorted|)
    ensures Holds(columns, w.columnOf)
    ensures forall c :: 0 <= c < |columns| ==> LinkedFirst(w, columns[c])
    ensures forall c :: 0 <= c < |columns| ==> SortedBy(Filter(columns[c], Unlinked(w)), StaticOrder(g))
  {
    PermutedHolds(sorted, columns, w.columnOf);
    forall c | 0 <= c < |columns|
      ensures SortedBy(Filter(columns[c], Unlinked(w)), StaticOrder(g))
    {
      assert Rearranged(w, sorted[c], columns[c]);
      FilterKeepsSorted(sorted[c], Unlinked(w), StaticOrder(g));
    }
  }

  method MakePlan(g: GraphView) returns (plan: Plan)
    requires g.nodes.Keys != {}
    ensures GoodPlan(g, plan)
  {
    var incoming, outgoing, incomingCount := BuildAdjacency(g);
    assert NoSelfLoops(outgoing) by {
      forall u, v | u in outgoing && v in outgoing[u]
        ensures v in outgoing && v != u
      {
        assert Edge(g, u, v);
      }
    }
    assert |g.nodes| == |g.nodes.Keys| == |outgoing.Keys| == |outgoing|;
    var layers := GraphLayers(outgoing, incomingCount);
    var buckets, columnOf := AssignColumns(g, layers);
    var w := Wiring(incoming, outgoing, columnOf);
    var sorted := SortColumns(g, buckets, columnOf);
    var columns := OrderColumns(w, sorted);
    SweptPlan(g, w, sorted, columns);
    plan := Plan(layers, w, columns);
  }

  // Stacking.

  /** Extra space between vertical neighbours. */
  function GapBetween(g: GraphView, w: Wiring, above: NodeId, below: NodeId): real
    requires above in g.nodes && below in g.nodes
  {
    if IsLinked(w, above) && !IsLinked(w, below) then LAYOUT_DISCONNECTED_GAP
    else if IsLinked(w, above) == IsLinked(w, below) && LayoutLane(g, g.nodes[above]) != LayoutLane(g, g.nodes[below])
    then LAYOUT_LANE_GAP
    else 0.0
  }

  /** `b` starts at least `space` under the end of `a`. */
  ghost predicate Below(g: GraphView, positions: map<NodeId, Position>, a: NodeId, b: NodeId, space: real)
    requires a in positions && b in positions && a in g.nodes
  {
    positions[a].y + LayoutHeight(g, g.nodes[a]) + space <= positions[b].y
  }

  function ColumnX(column: nat): real {
    LAYOUT_LEFT + column as real * LAYOUT_X_STEP
  }

  /** `b` is the next node under `a`. */
  ghost predicate Follows(g: GraphView, w: Wiring, positions: map<NodeId, Position>, a: NodeId, b: NodeId)
    requires a in positions && b in positions && a in g.nodes && b in g.nodes
  {
    positions[b].y == positions[a].y + LayoutHeight(g, g.nodes[a]) + LAYOUT_ROW_GAP + GapBetween(g, w, a, b)
  }

  /** The first `count` nodes of a column are positioned one under the other, starting at the top. */
  ghost predicate Stacked(g: GraphView, w: Wiring, nodes: seq<NodeId>, column: nat, count: nat,
                          positions: map<NodeId, Position>)
    requires count <= |nodes| && forall n :: n in nodes ==> n in g.nodes
  {
    && (forall k :: 0 <= k < count ==> nodes[k] in positions && positions[nodes[k]].x == ColumnX(column))
    && (count > 0 ==> positions[nodes[0]].y == LAYOUT_TOP)
    && (forall k :: 0 < k < count ==> Follows(g, w, positions, nodes[k - 1], nodes[k]))
  }

  lemma {:induction false} StackedApart(g: GraphView, w: Wiring, nodes: seq<NodeId>, column: nat,
                                        positions: map<NodeId, Position>, i: nat, j: nat)
    requires i < j < |nodes| && forall n :: n in nodes ==> n in g.nodes
    requires Stacked(g, w, nodes, column, |nodes|, positions)
    ensures Below(g, positions, nodes[i], nodes[j], LAYOUT_ROW_GAP)
    ensures IsLinked(w, nodes[i]) && !IsLinked(w, nodes[j]) ==>
              Below(g, positions, nodes[i], nodes[j], LAYOUT_ROW_GAP + LAYOUT_DISCONNECTED_GAP)
  {
    assert Follows(g, w, positions, nodes[j - 1], nodes[j]);
    if j != i + 1 {
      StackedApart(g, w, nodes, column, positions, i, j - 1);
    }
  }

  /** Where the next node goes, before any gap, given what was placed last. */
  ghost predicate CursorAt(g: GraphView, w: Wiring, nodes: seq<NodeId>, k: nat, positions: map<NodeId, Position>,
                           end: real, previous: Option<(bool, nat)>)
    requires k <= |nodes| && forall n :: n in nodes ==> n in g.nodes
    requires forall j :: 0 <= j < k ==> nodes[j] in positions
  {
    if k == 0 then end == LAYOUT_TOP && previous == None
    else
      var last := nodes[k - 1];
      && end == positions[last].y + LayoutHeight(g, g.nodes[last]) + LAYOUT_ROW_GAP
      && previous == Some((IsLinked(w, last), LayoutLane(g, g.nodes[last])))
  }

  method PlaceNext(g: GraphView, w: Wiring, nodes: seq<NodeId>, column: nat, k: nat, start: map<NodeId, Position>,
                   end: real, previous: Option<(bool, nat)>)
    returns (positions: map<NodeId, Position>, newEnd: real, last: Option<(bool, nat)>)
    requires k < |nodes| && Distinct(nodes) && forall n :: n in nodes ==> n in g.nodes
    requires Stacked(g, w, nodes, column, k, start) && CursorAt(g, w, nodes, k, start, end, previous)
    ensures positions.Keys == start.Keys + {nodes[k]} && positions == start[nodes[k] := positions[nodes[k]]]
    ensures Stacked(g, w, nodes, column, k + 1, positions)
    ensures CursorAt(g, w, nodes, k + 1, positions, newEnd, last)
  {
    var n := nodes[k];
    var linked, lane := IsLinked(w, n), LayoutLane(g, g.nodes[n]);
    var top := end;
    if previous.Some? {
      if previous.value.0 && !linked {
        top := top + LAYOUT_DISCONNECTED_GAP;
      } else if previous.value.0 == linked && previous.value.1 != lane {
        top := top + LAYOUT_LANE_GAP;
      }
    }
    positions := start[n := Position(ColumnX(column), top)];
    newEnd := top + LayoutHeight(g, g.nodes[n]) + LAYOUT_ROW_GAP;
    last := Some((linked, lane));
    StackedOneMore(g, w, nodes, column, k, start, Position(ColumnX(column), top));
  }

  lemma StackedOneMore(g: GraphView, w: Wiring, nodes: seq<NodeId>, column: nat, k: nat, positions: map<NodeId, Position>,
                       place: Position)
    requires k < |nodes| && Distinct(nodes) && forall n :: n in nodes ==> n in g.nodes
    requires Stacked(g, w, nodes, column, k, positions) && place.x == ColumnX(column)
    requires k == 0 ==> place.y == LAYOUT_TOP
    requires k > 0 ==> Follows(g, w, positions[nodes[k] := place], nodes[k - 1], nodes[k])
    ensures Stacked(g, w, nodes, column, k + 1, positions[nodes[k] := place])
  {
    var after := positions[nodes[k] := place];
    forall j | 0 < j < k
      ensures Follows(g, w, after, nodes[j - 1], nodes[j])
    {
      assert Follows(g, w, positions, nodes[j - 1], nodes[j]);
    }
  }

  lemma OneMorePosition(nodes: seq<NodeId>, k: nat, start: map<NodeId, Position>, before: map<NodeId, Position>,
                        place: Position)
    requires k < |nodes|
    requires forall n :: n in before <==> n in start || n in nodes[..k]
    requires forall n :: n in start && n !in nodes ==> before[n] == start[n]
    ensures var after := before[nodes[k] := place];
      && (forall n :: n in after <==> n in start || n in nodes[..k + 1])
      && (forall n :: n in start && n !in nodes ==> after[n] == start[n])
  {
    assert nodes[k] in nodes && nodes[..k + 1] == nodes[..k] + [nodes[k]];
  }

  method StackColumn(g: GraphView, w: Wiring, nodes: seq<NodeId>, column: nat, start: map<NodeId, Position>)
    returns (positions: map<NodeId, Position>)
    requires Distinct(nodes) && forall n :: n in nodes ==> n in g.nodes
    ensures Stacked(g, w, nodes, column, |nodes|, positions)
    ensures forall n :: n in positions <==> n in start || n in nodes
    ensures forall n :: n in start && n !in nodes ==> positions[n] == start[n]
  {
    positions := start;
    var end := LAYOUT_TOP;
    var previous: Option<(bool, nat)> := None;
    for k := 0 to |nodes|
      invariant Stacked(g, w, nodes, column, k, positions)
      invariant CursorAt(g, w, nodes, k, positions, end, previous)
      invariant forall n :: n in positions <==> n in start || n in nodes[..k]
      invariant forall n :: n in start && n !in nodes ==> positions[n] == start[n]
    {
      ghost var before := positions;
      positions, end, previous := PlaceNext(g, w, nodes, column, k, positions, end, previous);
      OneMorePosition(nodes, k, start, before, positions[nodes[k]]);
    }
    assert nodes[..|nodes|] == nodes;
  }

  /** The first `count` columns are stacked. */
  ghost predicate ColumnsStacked(g: GraphView, plan: Plan, count: nat, positions: map<NodeId, Position>) {
    && count <= |plan.columns|
    && (forall c: nat :: c < count ==>
          InGraph(g, plan.columns[c])
          && Stacked(g, plan.wiring, plan.columns[c], c, |plan.columns[c]|, positions))
  }

  /** Every node stands where its column and its place in it put it. */
  ghost predicate Placed(g: GraphView, plan: Plan, positions: map<NodeId, Position>) {
    positions.Keys == g.nodes.Keys && ColumnsStacked(g, plan, |plan.columns|, positions)
  }

  lemma StackedStays(g: GraphView, w: Wiring, nodes: seq<NodeId>, column: nat,
                     before: map<NodeId, Position>, after: map<NodeId, Position>)
    requires forall n :: n in nodes ==> n in g.nodes
    requires Stacked(g, w, nodes, column, |nodes|, before)
    requires forall n :: n in nodes && n in before ==> n in after && after[n] == before[n]
    ensures Stacked(g, w, nodes, column, |nodes|, after)
  {
    forall k: nat | k < |nodes|
      ensures nodes[k] in after && after[nodes[k]] == before[nodes[k]]
    {
      assert nodes[k] in nodes;
    }
  }

  lemma OneMoreColumn(g: GraphView, plan: Plan, count: nat, before: map<NodeId, Position>, after: map<NodeId, Position>)
    requires Holds(plan.columns, plan.wiring.columnOf) && count < |plan.columns|
    requires ColumnsStacked(g, plan, count, before) && InGraph(g, plan.columns[count])
    requires forall n :: n in before && n !in plan.columns[count] ==> n in after && after[n] == before[n]
    requires Stacked(g, plan.wiring, plan.columns[count], count, |plan.columns[count]|, after)
    ensures ColumnsStacked(g, plan, count + 1, after)
  {
    forall c: nat | c < count
      ensures Stacked(g, plan.wiring, plan.columns[c], c, |plan.columns[c]|, after)
    {
      forall n | n in plan.columns[c]
        ensures n !in plan.columns[count]
      {
        assert plan.wiring.columnOf[n] == c;
      }
      StackedStays(g, plan.wiring, plan.columns[c], c, before, after);
    }
  }

  lemma PlanColumns(g: GraphView, plan: Plan, c: nat)
    requires GoodPlan(g, plan) && c < |plan.columns|
    ensures InGraph(g, plan.columns[c]) && Distinct(plan.columns[c])
    ensures forall n :: n in plan.columns[c] <==> n in g.nodes && Column(g, plan.layers, n) == c
  {
    var columnOf := plan.wiring.columnOf;
    forall n
      ensures n in plan.columns[c] <==> n in g.nodes && Column(g, plan.layers, n) == c
    {
      assert n in plan.columns[c] <==> n in columnOf && columnOf[n] == c;
    }
  }

  method StackColumns(g: GraphView, plan: Plan) returns (positions: map<NodeId, Position>)
    requires GoodPlan(g, plan)
    ensures Placed(g, plan, positions)
  {
    positions := map[];
    for c := 0 to |plan.columns|
      invariant forall n :: n in positions <==> n in g.nodes && Column(g, plan.layers, n) < c
      invariant ColumnsStacked(g, plan, c, positions)
    {
      ghost var before := positions;
      PlanColumns(g, plan, c);
      positions := StackColumn(g, plan.wiring, plan.columns[c], c, positions);
      OneMoreColumn(g, plan, c, before, positions);
    }
    forall n | n in g.nodes
      ensures n in positions
    {
      assert plan.wiring.columnOf[n] < |plan.columns|;
    }
  }

  // What the layout promises.

  /** In different columns, or in the same one with at least 70 units between them. */
  ghost predicate Apart(g: GraphView, positions: map<NodeId, Position>, a: NodeId, b: NodeId)
    requires a in positions && b in positions && a in g.nodes && b in g.nodes
  {
    if positions[a].x == positions[b].x
    then Below(g, positions, a, b, LAYOUT_ROW_GAP) || Below(g, positions, b, a, LAYOUT_ROW_GAP)
    else positions[a].x + LAYOUT_X_STEP <= positions[b].x || positions[b].x + LAYOUT_X_STEP <= positions[a].x
  }

  lemma PlaceOf(g: GraphView, plan: Plan, positions: map<NodeId, Position>, n: NodeId) returns (k: nat)
    requires GoodPlan(g, plan) && Placed(g, plan, positions) && n in g.nodes
    ensures var c := Column(g, plan.layers, n);
      && c < |plan.columns| && k < |plan.columns[c]| && plan.columns[c][k] == n
      && positions[n].x == ColumnX(c)
      && (forall m :: m in plan.columns[c] ==> m in g.nodes)
      && Stacked(g, plan.wiring, plan.columns[c], c, |plan.columns[c]|, positions)
  {
    var c := plan.wiring.columnOf[n];
    assert n in plan.columns[c];
    k :| k < |plan.columns[c]| && plan.columns[c][k] == n;
  }

  lemma StepsApart(a: nat, b: nat)
    ensures ColumnX(a) == ColumnX(b) <==> a == b
    ensures a < b <==> ColumnX(a) < ColumnX(b)
    ensures a < b ==> ColumnX(a) + LAYOUT_X_STEP <= ColumnX(b)
  {
  }

  /** No two nodes overlap: they are a column step apart, or stacked with the row gap between them. */
  lemma NodesStandApart(g: GraphView, plan: Plan, positions: map<NodeId, Position>, a: NodeId, b: NodeId)
    requires GoodPlan(g, plan) && Placed(g, plan, positions) && a in g.nodes && b in g.nodes && a != b
    ensures Apart(g, positions, a, b)
  {
    var i := PlaceOf(g, plan, positions, a);
    var j := PlaceOf(g, plan, positions, b);
    var c, d := Column(g, plan.layers, a), Column(g, plan.layers, b);
    StepsApart(c, d);
    StepsApart(d, c);
    if c == d {
      if i < j {
        StackedApart(g, plan.wiring, plan.columns[c], c, positions, i, j);
      } else {
        StackedApart(g, plan.wiring, plan.columns[c], c, positions, j, i);
      }
    }
  }

  /** Some link joins `n` to another node. */
  ghost predicate HasEdge(g: GraphView, n: NodeId) {
    exists m :: Edge(g, n, m) || Edge(g, m, n)
  }

  lemma LinkedMeansEdge(g: GraphView, w: Wiring, n: NodeId)
    requires Describes(g, w.incoming, w.outgoing) && n in g.nodes
    ensures IsLinked(w, n) <==> HasEdge(g, n)
  {
    if w.outgoing[n] != [] {
      assert w.outgoing[n][0] in w.outgoing[n];
    }
    if w.incoming[n] != [] {
      assert w.incoming[n][0] in w.incoming[n];
    }
    if HasEdge(g, n) {
      var m :| Edge(g, n, m) || Edge(g, m, n);
      assert m in w.outgoing[n] || m in w.incoming[n];
    }
  }

  /** A node without links stands below every connected node of its column, past the explicit gap. */
  lemma DisconnectedStandBelow(g: GraphView, plan: Plan, positions: map<NodeId, Position>, a: NodeId, b: NodeId)
    requires GoodPlan(g, plan) && Placed(g, plan, positions) && a in g.nodes && b in g.nodes
    requires positions[a].x == positions[b].x && HasEdge(g, a) && !HasEdge(g, b)
    ensures Below(g, positions, a, b, LAYOUT_ROW_GAP + LAYOUT_DISCONNECTED_GAP)
  {
    var i := PlaceOf(g, plan, positions, a);
    var j := PlaceOf(g, plan, positions, b);
    var c := Column(g, plan.layers, a);
    StepsApart(c, Column(g, plan.layers, b));
    LinkedMeansEdge(g, plan.wiring, a);
    LinkedMeansEdge(g, plan.wiring, b);
    assert LinkedFirst(plan.wiring, plan.columns[c]);
    StackedApart(g, plan.wiring, plan.columns[c], c, positions, i, j);
  }

  lemma SourceRole(g: GraphView, u: NodeId, v: NodeId)
    requires PortsListed(g) && LinksJoin(g) && Edge(g, u, v)
    ensures u in g.nodes && LayoutRole(g, g.nodes[u]) <= 1
  {
    var l :| JoinsNodes(g, l, u, v);
    assert Joins(g, g.links[l]);
    assert Lists(g.nodes[u], g.links[l].outputPort);
  }

  /** A walk along the links of the graph. */
  ghost predicate GraphWalk(g: GraphView, w: seq<NodeId>) {
    && |w| > 0
    && (forall i :: 0 <= i < |w| ==> w[i] in g.nodes)
    && (forall i :: 0 < i < |w| ==> Edge(g, w[i - 1], w[i]))
  }

  /** No walk along links returns to where it began. */
  ghost predicate NoCycle(g: GraphView) {
    forall w :: GraphWalk(g, w) && |w| > 1 ==> w[0] != w[|w| - 1]
  }

  lemma NoCycleMeansAcyclic(g: GraphView, incoming: Adjacency, outgoing: Adjacency)
    requires Describes(g, incoming, outgoing)
    ensures NoCycle(g) <==> Acyclic(outgoing)
  {
    forall w
      ensures GraphWalk(g, w) <==> IsWalk(outgoing, w)
    {
    }
  }

  /** No link leads to `u`. */
  ghost predicate IsEntry(g: GraphView, u: NodeId) {
    forall t :: !Edge(g, t, u)
  }

  /** Two links in a row lead to `v`. */
  ghost predicate TwoLinksTo(g: GraphView, v: NodeId) {
    exists s, t :: Edge(g, s, t) && Edge(g, t, v)
  }

  predicate IsDuplex(g: GraphView, node: Node) {
    HasDirection(g, node, Source) && HasDirection(g, node, Sink)
  }

  /**
  On an acyclic well-formed graph no link runs to the left, and every link runs strictly to the right,
  except exactly one from a node that has sources and sinks but no incoming link to a node that no two links
  in a row lead to: both are drawn in column 1.
  */
  lemma LinksRunRight(g: GraphView, plan: Plan, positions: map<NodeId, Position>, u: NodeId, v: NodeId)
    requires WellFormed(g) && GoodPlan(g, plan) && Placed(g, plan, positions)
    requires NoCycle(g) && Edge(g, u, v)
    ensures u in g.nodes && v in g.nodes
    ensures positions[u].x <= positions[v].x
    ensures positions[u].x == positions[v].x
        <==> IsEntry(g, u) && IsDuplex(g, g.nodes[u]) && !TwoLinksTo(g, v)
  {
    var l :| JoinsNodes(g, l, u, v);
    NoCycleMeansAcyclic(g, plan.wiring.incoming, plan.wiring.outgoing);
    PlanRises(g, plan, u, v);
    SourceRole(g, u, v);
    EntryLayer(g, plan, u, v);
    NextLayer(g, plan, v);
    DrawnByColumn(g, plan, positions, u, v);
  }

  lemma DrawnByColumn(g: GraphView, plan: Plan, positions: map<NodeId, Position>, u: NodeId, v: NodeId)
    requires GoodPlan(g, plan) && Placed(g, plan, positions) && u in g.nodes && v in g.nodes
    ensures positions[u].x <= positions[v].x <==> Column(g, plan.layers, u) <= Column(g, plan.layers, v)
    ensures positions[u].x == positions[v].x <==> Column(g, plan.layers, u) == Column(g, plan.layers, v)
  {
    var i := PlaceOf(g, plan, positions, u);
    var j := PlaceOf(g, plan, positions, v);
    StepsApart(Column(g, plan.layers, u), Column(g, plan.layers, v));
  }

  /** A node with an outgoing link has layer 0 exactly when no link leads to it. */
  lemma EntryLayer(g: GraphView, plan: Plan, u: NodeId, v: NodeId)
    requires GoodPlan(g, plan) && Edge(g, u, v)
    ensures u in g.nodes && (plan.layers[u] == 0 <==> IsEntry(g, u))
  {
    var out := plan.wiring.outgoing;
    var l :| JoinsNodes(g, l, u, v);
    DistinctFits([u, v], g.nodes.Keys);
    assert |g.nodes| == |g.nodes.Keys|;
    assert LongestWalk(out, u, |g.nodes| - 1, plan.layers[u]);
    if !IsEntry(g, u) {
      var t :| Edge(g, t, u);
      assert t in out && u in out[t];
      assert WalkTo(out, u, 1, [t, u]);
      assert Reached(out, u, 1);
    }
    if plan.layers[u] > 0 {
      var t, w := LastLink(g, plan.wiring.incoming, out, u, plan.layers[u]);
    }
  }

  /** A walk of some length ends with a link. */
  lemma LastLink(g: GraphView, incoming: Adjacency, out: Adjacency, v: NodeId, links: nat)
    returns (t: NodeId, w: seq<NodeId>)
    requires Describes(g, incoming, out) && Reached(out, v, links) && links > 0
    ensures Edge(g, t, v) && WalkTo(out, t, links - 1, w)
  {
    var walk :| WalkTo(out, v, links, walk);
    w := walk[..links];
    t := w[links - 1];
    assert walk[links] in out[walk[links - 1]];
  }

  lemma TwoLinksReach(g: GraphView, incoming: Adjacency, out: Adjacency, v: NodeId)
    requires Describes(g, incoming, out) && Acyclic(out) && TwoLinksTo(g, v)
    ensures Reached(out, v, 2) && |g.nodes| >= 3
  {
    var s, t :| Edge(g, s, t) && Edge(g, t, v);
    assert s in out && t in out && v in out && t in out[s] && v in out[t];
    assert WalkTo(out, v, 2, [s, t, v]);
    AcyclicWalksAreShort(out, [s, t, v]);
    assert |out| == |out.Keys| == |g.nodes.Keys| == |g.nodes|;
  }

  lemma ReachedByTwoLinks(g: GraphView, incoming: Adjacency, out: Adjacency, v: NodeId, links: nat)
    requires Describes(g, incoming, out) && Reached(out, v, links) && links >= 2
    ensures TwoLinksTo(g, v)
  {
    var t, w := LastLink(g, incoming, out, v, links);
    var s, _ := LastLink(g, incoming, out, t, links - 1);
  }

  /** A node has a layer above 1 exactly when two links in a row lead to it. */
  lemma NextLayer(g: GraphView, plan: Plan, v: NodeId)
    requires GoodPlan(g, plan) && Acyclic(plan.wiring.outgoing) && v in g.nodes
    ensures plan.layers[v] <= 1 <==> !TwoLinksTo(g, v)
  {
    var incoming, out := plan.wiring.incoming, plan.wiring.outgoing;
    assert LongestWalk(out, v, |g.nodes| - 1, plan.layers[v]);
    if TwoLinksTo(g, v) {
      TwoLinksReach(g, incoming, out, v);
    }
    if plan.layers[v] > 1 {
      ReachedByTwoLinks(g, incoming, out, v, plan.layers[v]);
    }
  }

  /** Two duplex devices joined by one link. */
  function DuplexPair(): GraphView {
    GraphView(map[1 := NewNode(1, "a", PipeWire).(ports := [10, 11]), 2 := NewNode(2, "b", PipeWire).(ports := [20, 21])],
              map[10 := Port(10, 1, "out", None, Source, Audio), 11 := Port(11, 1, "in", None, Sink, Audio),
                  20 := Port(20, 2, "in", None, Sink, Audio), 21 := Port(21, 2, "out", None, Source, Audio)],
              map[1 := Link(1, 10, 20)])
  }

  lemma DuplexPairFacts(g: GraphView)
    requires g == DuplexPair()
    ensures forall u, v :: Edge(g, u, v) <==> u == 1 && v == 2
    ensures 1 in g.nodes && IsDuplex(g, g.nodes[1])
  {
    assert JoinsNodes(g, 1, 1, 2);
    assert g.nodes[1].ports == [10, 11];
    assert 10 in g.nodes[1].ports && 11 in g.nodes[1].ports;
  }

  lemma DuplexPairListed(g: GraphView)
    requires g == DuplexPair()
    ensures PortsListed(g)
  {
    assert g.nodes[1].ports == [10, 11] && g.nodes[2].ports == [20, 21];
    assert forall p :: Lists(g.nodes[1], p) <==> p == 10 || p == 11;
    assert forall p :: Lists(g.nodes[2], p) <==> p == 20 || p == 21;
  }

  lemma DuplexPairJoined(g: GraphView)
    requires g == DuplexPair()
    ensures Keyed(g) && LinksJoin(g)
  {
  }

  lemma DuplexPairAcyclic(g: GraphView)
    requires forall u, v :: Edge(g, u, v) <==> u == 1 && v == 2
    ensures NoCycle(g)
  {
    forall w | GraphWalk(g, w) && |w| > 1
      ensures w[0] != w[|w| - 1]
    {
      EdgeOfWalk(g, w, 1);
      if |w| > 2 {
        EdgeOfWalk(g, w, 2);
      }
    }
  }

  lemma EdgeOfWalk(g: GraphView, w: seq<NodeId>, i: nat)
    requires GraphWalk(g, w) && 0 < i < |w|
    ensures Edge(g, w[i - 1], w[i])
  {
  }

  method ShareAColumn(g: GraphView, u: NodeId, v: NodeId) returns (positions: map<NodeId, Position>)
    requires WellFormed(g) && NoCycle(g) && Edge(g, u, v)
    requires u in g.nodes && IsEntry(g, u) && IsDuplex(g, g.nodes[u]) && !TwoLinksTo(g, v)
    ensures u in positions && v in positions && positions[u].x == positions[v].x
  {
    positions := DefaultNodePositions(g);
    ghost var plan :| GoodPlan(g, plan) && Placed(g, plan, positions);
    LinksRunRight(g, plan, positions, u, v);
  }

  /** The link between the two devices is drawn straight down: both stand in the same column. */
  method DuplexPairShareAColumn() returns (positions: map<NodeId, Position>)
    ensures Edge(DuplexPair(), 1, 2) && 1 in positions && 2 in positions && positions[1].x == positions[2].x
  {
    var g := DuplexPair();
    DuplexPairFacts(g);
    DuplexPairListed(g);
    DuplexPairJoined(g);
    DuplexPairAcyclic(g);
    positions := ShareAColumn(g, 1, 2);
  }

  lemma PlanRises(g: GraphView, plan: Plan, u: NodeId, v: NodeId)
    requires GoodPlan(g, plan) && Acyclic(plan.wiring.outgoing)
    requires u in g.nodes && v in plan.wiring.outgoing[u]
    ensures v in g.nodes && plan.layers[u] < plan.layers[v]
  {
    var out := plan.wiring.outgoing;
    assert Edge(g, u, v);
    var l :| JoinsNodes(g, l, u, v);
    assert NoSelfLoops(out);
    assert Reached(out, u, plan.layers[u]);
    Extend(out, u, v, plan.layers[u]);
    var w :| WalkTo(out, v, plan.layers[u] + 1, w);
    AcyclicWalksAreShort(out, w);
    assert |out| == |out.Keys| == |g.nodes|;
    assert LongestWalk(out, v, |g.nodes| - 1, plan.layers[v]);
  }

  /** A position for every node; no two nodes overlap and unlinked nodes stand below linked ones. */
  method DefaultNodePositions(g: GraphView) returns (positions: map<NodeId, Position>)
    ensures positions.Keys == g.nodes.Keys
    ensures g.nodes.Keys != {} ==> exists plan :: GoodPlan(g, plan) && Placed(g, plan, positions)
    ensures forall a, b :: a in g.nodes && b in g.nodes && a != b ==> Apart(g, positions, a, b)
    ensures forall a, b :: a in g.nodes && b in g.nodes && positions[a].x == positions[b].x
                           && HasEdge(g, a) && !HasEdge(g, b) ==>
              Below(g, positions, a, b, LAYOUT_ROW_GAP + LAYOUT_DISCONNECTED_GAP)
  {
    if g.nodes.Keys == {} {
      return map[];
    }
    var plan := MakePlan(g);
    positions := StackColumns(g, plan);
    forall a, b | a in g.nodes && b in g.nodes && a != b
      ensures Apart(g, positions, a, b)
    {
      NodesStandApart(g, plan, positions, a, b);
    }
    forall a, b | a in g.nodes && b in g.nodes && positions[a].x == positions[b].x
                  && HasEdge(g, a) && !HasEdge(g, b)
      ensures Below(g, positions, a, b, LAYOUT_ROW_GAP + LAYOUT_DISCONNECTED_GAP)
    {
      DisconnectedStandBelow(g, plan, positions, a, b);
    }
  }
}
