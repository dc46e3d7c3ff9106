/**
Asynchronous effect requests end to end: the driver checks a request and submits it to the preparation
manager, and turns every event the manager delivers into a report and, for a finished one, into an effect.
*/
module Requests {
  import opened GraphTypes
  import opened EndpointResolver
  import opened DriverStates
  import L = Lifecycle

  datatype Target = Standalone | Insert(source: PortKey, destination: PortKey)

  datatype Request = Request(effect: EffectRequest, target: Target)

  /** What the driver tells its caller about a ticket. */
  datatype Report =
    | Loading(ticket: L.Ticket, stage: L.Stage)
    | Ready(ticket: L.Ticket, instance: EffectInstance)
    | Failed(ticket: L.Ticket)
    | Cancelled(ticket: L.Ticket)

  /** `opening` is the request whose submission is under way, `pending` the driver's map of unfinished ones. */
  datatype Session = Session(
    manager: L.Manager,
    driver: DriverState,
    opening: Option<Request>,
    pending: map<L.Ticket, Request>,
    reports: seq<Report>)

  datatype Move =
    | Submit(request: Request)
    | TakeNote
    | Deliver(processor: Processor)
    | Manage(step: L.Step)
    | Operate(driver: DriverState)

  /** The checks made before a ticket is drawn. */
  predicate Acceptable(s: Session, request: Request) {
    && !IsBlank(request.effect.instanceId) && !IsBlank(request.effect.effectId)
    && request.effect.instanceId !in s.driver.effects
    && (forall t :: t in s.pending ==> s.pending[t].effect.instanceId != request.effect.instanceId)
    && (request.target.Insert? ==>
          LinkEndpoints(s.driver.graph, request.target.source, request.target.destination).Done?)
  }

  /** `Operate` is any synchronous operation of the driver; the manager's other steps are taken by `Manage`. */
  ghost predicate Enabled(s: Session, move: Move) {
    match move
    case Submit(request) => L.Enabled(s.manager, L.Enqueue) && Acceptable(s, request)
    case TakeNote => L.Enabled(s.manager, L.Accept) && s.opening.Some?
    case Deliver(_) => L.Enabled(s.manager, L.HandOver)
    case Manage(step) => L.Enabled(s.manager, step) && !step.Enqueue? && !step.Accept? && !step.HandOver?
    case Operate(driver) => s.manager.desk.control.AtRest? && Inv(driver)
  }

  /** Putting a prepared effect where its request wanted it. */
  function Placed(driver: DriverState, request: Request, processor: Processor): Outcome<EffectInstance> {
    match request.target
    case Standalone => CreateOutcome(driver, request.effect, Prepared(processor))
    case Insert(source, destination) => InsertOutcome(driver, request.effect, Prepared(processor), source, destination)
  }

  /** One delivered event: the driver, its unfinished requests and what is reported. */
  function Handled(s: Session, e: L.Event, processor: Processor): Session {
    match e
    case Loading(t, stage) => s.(reports := s.reports + [Loading(t, stage)])
    case Failed(t) => s.(pending := s.pending - {t}, reports := s.reports + [Failed(t)])
    case Cancelled(t) => s.(pending := s.pending - {t}, reports := s.reports + [Cancelled(t)])
    case Ready(t) =>
      if t !in s.pending then s
      else
        var placed := Placed(s.driver, s.pending[t], processor);
        var report := if placed.result.Done? then Ready(t, placed.result.value) else Failed(t);
        s.(driver := placed.state, pending := s.pending - {t}, reports := s.reports + [report])
  }

  ghost function Next(s: Session, move: Move): Session
    requires Enabled(s, move)
  {
    match move
    case Submit(request) => s.(manager := L.Next(s.manager, L.Enqueue), opening := Some(request))
    case TakeNote =>
      s.(manager := L.Next(s.manager, L.Accept), opening := None,
         pending := s.pending[s.manager.desk.control.ticket := s.opening.value])
    case Deliver(processor) =>
      var d := s.manager.desk;
      Handled(s, d.out[d.delivered], processor).(manager := L.Next(s.manager, L.HandOver))
    case Manage(step) => s.(manager := L.Next(s.manager, step))
    case Operate(driver) => s.(driver := driver)
  }

  ghost predicate Initial(s: Session) {
    L.Initial(s.manager) && Inv(s.driver) && s.opening == None && s.pending == map[] && s.reports == []
  }

  /** `r` tells about `e`; only a finished preparation may still fail, when the effect does not fit. */
  predicate Tells(r: Report, e: L.Event) {
    match e
    case Loading(t, stage) => r == Loading(t, stage)
    case Ready(t) => r == Failed(t) || (r.Ready? && r.ticket == t)
    case Failed(t) => r == Failed(t)
    case Cancelled(t) => r == Cancelled(t)
  }

  /** Every event that was delivered has been reported, and nothing else. */
  ghost predicate Told(s: Session) {
    && |s.reports| == s.manager.desk.delivered <= |s.manager.desk.out|
    && forall i :: 0 <= i < |s.reports| ==> Tells(s.reports[i], s.manager.desk.out[i])
  }

  /** No two unfinished requests are for the same effect instance. */
  ghost predicate InstancesApart(s: Session) {
    && (forall t, u :: t in s.pending && u in s.pending && t != u ==>
          s.pending[t].effect.instanceId != s.pending[u].effect.instanceId)
    && (s.opening.Some? ==>
          forall t :: t in s.pending ==> s.pending[t].effect.instanceId != s.opening.value.effect.instanceId)
  }

  ghost predicate Matched(s: Session) {
    && s.pending.Keys == s.manager.desk.pending
    && (s.opening.Some? <==> s.manager.desk.control.Registering? || s.manager.desk.control.Accepting?)
  }

  ghost predicate SessionInv(s: Session) {
    var sound := L.Inv(s.manager) && Inv(s.driver) && Matched(s) && InstancesApart(s) && Told(s);
    sound
  }

  // Every move keeps the invariant.

  /** The manager's own steps hand nothing over. */
  lemma ManageKeepsBooks(s: Session, step: L.Step, t: Session)
    requires SessionInv(s) && Enabled(s, Manage(step)) && t == Next(s, Manage(step))
    ensures Matched(t) && Told(t)
  {
    var d, e := s.manager.desk, t.manager.desk;
    assert e.delivered == d.delivered && d.out <= e.out;
  }

  lemma PlacedKeepsInv(s: SoundState, request: Request, processor: Processor)
    ensures var placed := Placed(s, request, processor);
      Inv(placed.state) && (placed.result.Refused? ==> OnlyCountersMoved(s, placed.state))
  {
    var placed := Placed(s, request, processor);
    match request.target {
      case Standalone => CreateKeepsInv(s, request.effect, Prepared(processor), placed);
      case Insert(source, destination) =>
        var ends := LinkEndpoints(s.graph, source, destination);
        if ends.Done? {
          InsertKeepsInv(s, request.effect, Prepared(processor), source, destination,
                         ends.value.0, ends.value.1, ends.value.2, placed);
        }
    }
  }

  /** The next event to be delivered is for a pending request. */
  lemma DeliveredIsPending(m: L.Manager)
    requires L.Inv(m) && L.Enabled(m, L.HandOver)
    ensures m.desk.out[m.desk.delivered].ticket in m.desk.pending
  {
    assert !L.Ended(m.desk.out[..m.desk.delivered], m.desk.out[m.desk.delivered].ticket);
  }

  lemma DeliverTells(s: Session, processor: Processor, t: Session)
    requires Matched(s) && Told(s) && Enabled(s, Deliver(processor)) && t == Next(s, Deliver(processor))
    requires s.manager.desk.out[s.manager.desk.delivered].ticket in s.pending
    ensures Told(t)
  {
  }

  lemma DeliverReports(s: Session, processor: Processor, t: Session)
    requires SessionInv(s) && Enabled(s, Deliver(processor)) && t == Next(s, Deliver(processor))
    ensures Matched(t) && Told(t) && InstancesApart(t)
  {
    DeliveredIsPending(s.manager);
    DeliverTells(s, processor, t);
  }

  lemma DeliverKeepsDriver(s: Session, processor: Processor)
    requires SessionInv(s) && Enabled(s, Deliver(processor))
    ensures Inv(Next(s, Deliver(processor)).driver)
  {
    var d := s.manager.desk;
    var e := d.out[d.delivered];
    if e.Ready? && e.ticket in s.pending {
      PlacedKeepsInv(s.driver, s.pending[e.ticket], processor);
    }
  }

  lemma SubmitKeepsInv(s: Session, request: Request)
    requires SessionInv(s) && Enabled(s, Submit(request))
    ensures SessionInv(Next(s, Submit(request)))
  {
    L.StepKeepsInv(s.manager, L.Enqueue);
    var t := Next(s, Submit(request));
    assert Matched(t) && InstancesApart(t) && Told(t);
  }

  lemma TakeNoteKeepsInv(s: Session)
    requires SessionInv(s) && Enabled(s, TakeNote)
    ensures SessionInv(Next(s, TakeNote))
  {
    L.StepKeepsInv(s.manager, L.Accept);
    TakeNoteKeepsBooks(s, Next(s, TakeNote));
  }

  lemma TakeNoteKeepsBooks(s: Session, t: Session)
    requires Matched(s) && InstancesApart(s) && Told(s) && Enabled(s, TakeNote) && t == Next(s, TakeNote)
    ensures Matched(t) && InstancesApart(t) && Told(t)
  {
  }

  lemma DeliverKeepsInv(s: Session, processor: Processor)
    requires SessionInv(s) && Enabled(s, Deliver(processor))
    ensures SessionInv(Next(s, Deliver(processor)))
  {
    L.StepKeepsInv(s.manager, L.HandOver);
    DeliverReports(s, processor, Next(s, Deliver(processor)));
    DeliverKeepsDriver(s, processor);
  }

  lemma ManageKeepsInv(s: Session, step: L.Step)
    requires SessionInv(s) && Enabled(s, Manage(step))
    ensures SessionInv(Next(s, Manage(step)))
  {
    L.StepKeepsInv(s.manager, step);
    ManageKeepsBooks(s, step, Next(s, Manage(step)));
  }

  lemma MoveKeepsInv(s: Session, move: Move)
    requires SessionInv(s) && Enabled(s, move)
    ensures SessionInv(Next(s, move))
  {
    match move {
      case Submit(request) => SubmitKeepsInv(s, request);
      case TakeNote => TakeNoteKeepsInv(s);
      case Deliver(processor) => DeliverKeepsInv(s, processor);
      case Manage(step) => ManageKeepsInv(s, step);
      case Operate(_) =>
    }
  }

  ghost predicate IsRun(run: seq<Session>, moves: seq<Move>) {
    && |run| == |moves| + 1
    && Initial(run[0])
    && forall k :: 0 <= k < |moves| ==> Enabled(run[k], moves[k]) && run[k + 1] == Next(run[k], moves[k])
  }

  lemma {:induction false} RunKeepsInv(run: seq<Session>, moves: seq<Move>, k: nat)
    requires IsRun(run, moves) && k <= |moves|
    ensures SessionInv(run[k])
  {
    if k == 0 {
      InitialInv(run[0]);
    } else {
      RunKeepsInv(run, moves, k - 1);
      MoveKeepsInv(run[k - 1], moves[k - 1]);
    }
  }

  lemma InitialInv(s: Session)
    requires Initial(s)
    ensures SessionInv(s)
  {
  }

  // What every run guarantees.

  /** No two unfinished requests are for the same effect instance, and they are the manager's unfinished tickets. */
  lemma PendingApart(run: seq<Session>, moves: seq<Move>)
    requires IsRun(run, moves)
    ensures var s := run[|moves|];
      && s.pending.Keys == s.manager.desk.pending
      && forall t, u :: t in s.pending && u in s.pending && t != u ==>
           s.pending[t].effect.instanceId != s.pending[u].effect.instanceId
  {
    RunKeepsInv(run, moves, |moves|);
  }

  /** `e` has come into the driver, with its node, and nothing else has. */
  ghost predicate Entered(before: DriverState, after: DriverState, e: EffectInstance) {
    && e.instanceId !in before.effects
    && after.effects == before.effects[e.instanceId := e]
    && e.nodeId !in before.graph.nodes
    && after.graph.nodes.Keys == before.graph.nodes.Keys + {e.nodeId}
  }

  lemma PlacedEnters(s: DriverState, request: Request, processor: Processor)
    requires Placed(s, request, processor).result.Done?
    ensures var placed := Placed(s, request, processor);
      Entered(s, placed.state, placed.result.value) && placed.result.value.instanceId == request.effect.instanceId
  {
  }

  /**
  Every delivered event is reported, once.  The report is `Ready` exactly when a new effect has entered the
  driver, the one that was asked for under this ticket; otherwise the driver has at most used up numbers.
  */
  lemma ReadyIffEntered(run: seq<Session>, moves: seq<Move>, processor: Processor)
    requires IsRun(run, moves) && Enabled(run[|moves|], Deliver(processor))
    ensures var s := run[|moves|];
      var t := Next(s, Deliver(processor));
      && |t.reports| == |s.reports| + 1 && s.reports == t.reports[..|s.reports|]
      && var r := t.reports[|s.reports|];
         && (r.Ready? <==> exists e :: Entered(s.driver, t.driver, e))
         && (r.Ready? ==>
               && r.ticket in s.pending && r.instance.instanceId == s.pending[r.ticket].effect.instanceId
               && Entered(s.driver, t.driver, r.instance))
         && (!r.Ready? ==> OnlyCountersMoved(s.driver, t.driver))
  {
    var s := run[|moves|];
    RunKeepsInv(run, moves, |moves|);
    DeliveredIsPending(s.manager);
    var e := s.manager.desk.out[s.manager.desk.delivered];
    if e.Ready? {
      PlacedKeepsInv(s.driver, s.pending[e.ticket], processor);
      if Placed(s.driver, s.pending[e.ticket], processor).result.Done? {
        PlacedEnters(s.driver, s.pending[e.ticket], processor);
      }
    }
  }

  /** A ticket's reports: its loading stages, then at most one end. */
  lemma OneEndPerTicket(run: seq<Session>, moves: seq<Move>, i: nat, j: nat)
    requires IsRun(run, moves)
    ensures var reports := run[|moves|].reports;
      i < j < |reports| && reports[i].ticket == reports[j].ticket ==>
        reports[i].Loading? && (reports[j].Loading? ==> reports[i].stage != reports[j].stage)
  {
    RunKeepsInv(run, moves, |moves|);
    ToldOnce(run[|moves|], i, j);
  }

  lemma ToldOnce(s: Session, i: nat, j: nat)
    requires Told(s) && L.InOrder(s.manager.desk.out)
    ensures i < j < |s.reports| && s.reports[i].ticket == s.reports[j].ticket ==>
              s.reports[i].Loading? && (s.reports[j].Loading? ==> s.reports[i].stage != s.reports[j].stage)
  {
    if i < j < |s.reports| {
      assert Tells(s.reports[i], s.manager.desk.out[i]) && Tells(s.reports[j], s.manager.desk.out[j]);
    }
  }

  /** When nothing is queued, working or unread, every accepted request has been given its end. */
  lemma QuietMeansAnswered(run: seq<Session>, moves: seq<Move>, ticket: L.Ticket) returns (i: nat)
    requires IsRun(run, moves) && L.Quiet(run[|moves|].manager)
    ensures var s := run[|moves|];
      && s.pending == map[]
      && (ticket in s.manager.desk.accepted ==> i < |s.reports| && s.reports[i].ticket == ticket && !s.reports[i].Loading?)
  {
    RunKeepsInv(run, moves, |moves|);
    var s := run[|moves|];
    var d := s.manager.desk;
    L.QuietIsFinished(s.manager);
    i := 0;
    if ticket in d.accepted {
      assert L.Ended(d.out[..d.delivered], ticket);
      i :| 0 <= i < d.delivered && d.out[..d.delivered][i].ticket == ticket && L.IsTerminal(d.out[..d.delivered][i]);
      assert Tells(s.reports[i], d.out[i]);
    }
  }

  ghost predicate MarksAreOld(d: L.Desk) {
    forall t :: t in d.cancelAt ==> d.cancelAt[t] <= d.delivered
  }

  /** The cancellation of `ticket` was granted when no more than `at` events had been delivered. */
  ghost predicate Marked(d: L.Desk, ticket: L.Ticket, at: nat) {
    ticket in d.cancelAt && d.cancelAt[ticket] <= at
  }

  lemma MarksStayOld(s: Session, move: Move)
    requires Enabled(s, move) && MarksAreOld(s.manager.desk)
    ensures MarksAreOld(Next(s, move).manager.desk)
  {
  }

  lemma MarkStays(s: Session, move: Move, ticket: L.Ticket, at: nat)
    requires Enabled(s, move) && Marked(s.manager.desk, ticket, at)
    ensures Marked(Next(s, move).manager.desk, ticket, at)
  {
  }

  lemma MarkIsMade(s: Session, ticket: L.Ticket)
    requires Enabled(s, Manage(L.Cancel(ticket))) && MarksAreOld(s.manager.desk) && ticket in s.manager.desk.registry
    ensures Marked(Next(s, Manage(L.Cancel(ticket))).manager.desk, ticket, s.manager.desk.delivered)
  {
  }

  lemma {:induction false} CancelMarksAreOld(run: seq<Session>, moves: seq<Move>, n: nat)
    requires IsRun(run, moves) && n <= |moves|
    ensures MarksAreOld(run[n].manager.desk)
  {
    if n > 0 {
      CancelMarksAreOld(run, moves, n - 1);
      MarksStayOld(run[n - 1], moves[n - 1]);
    }
  }

  lemma {:induction false} CancelStays(run: seq<Session>, moves: seq<Move>, k: nat, n: nat, ticket: L.Ticket)
    requires IsRun(run, moves) && k < n <= |moves|
    requires moves[k] == Manage(L.Cancel(ticket)) && ticket in run[k].manager.desk.registry
    ensures Marked(run[n].manager.desk, ticket, run[k].manager.desk.delivered)
  {
    if k + 1 < n {
      CancelStays(run, moves, k, n - 1, ticket);
      MarkStays(run[n - 1], moves[n - 1], ticket, run[k].manager.desk.delivered);
    } else {
      CancelMarksAreOld(run, moves, k);
      MarkIsMade(run[k], ticket);
    }
  }

  /** Once a cancellation was granted the ticket is only ever reported cancelled: its effect does not enter. */
  lemma CancelledNeverEnters(run: seq<Session>, moves: seq<Move>, k: nat, ticket: L.Ticket, j: nat)
    requires IsRun(run, moves) && k < |moves|
    requires moves[k] == Manage(L.Cancel(ticket)) && ticket in run[k].manager.desk.registry
    ensures var reports := run[|moves|].reports;
      |run[k].reports| <= j < |reports| && reports[j].ticket == ticket ==> reports[j] == Cancelled(ticket)
  {
    RunKeepsInv(run, moves, k);
    RunKeepsInv(run, moves, |moves|);
    CancelStays(run, moves, k, |moves|, ticket);
    var s := run[|moves|];
    if |run[k].reports| <= j < |s.reports| && s.reports[j].ticket == ticket {
      assert Tells(s.reports[j], s.manager.desk.out[j]);
      assert s.manager.desk.out[j] == L.Cancelled(ticket);
    }
  }
}
