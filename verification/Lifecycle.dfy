/**
The preparation manager as a step system: one control thread that begins, cancels and polls, and
loader threads that take jobs, look at the cancellation flag and publish events in between.

A request is enqueued before it is registered, so a worker may publish everything about it first.
Polling takes events one at a time while workers keep publishing.
*/
module Lifecycle {

  type Ticket = nat

  datatype Stage = Queued | LoadingDependencies | Preparing

  datatype Event =
    | Loading(ticket: Ticket, stage: Stage)
    | Ready(ticket: Ticket)
    | Failed(ticket: Ticket)
    | Cancelled(ticket: Ticket)

  predicate IsTerminal(e: Event) {
    !e.Loading?
  }

  /** Where a loader thread is inside `run_job`. */
  datatype Point =
    | AnnounceQueued
    | FirstCheck
    | AnnounceDependencies
    | SecondCheck
    | AnnouncePreparing
    | Prepare
    | LastCheck(ok: bool)
    | SendCancelled
    | SendResult(ok: bool)

  datatype Worker = Waiting | Busy(ticket: Ticket, at: Point)

  /** The job queue, the loader threads and everything they have sent so far. */
  datatype Pool = Pool(queue: seq<Ticket>, workers: seq<Worker>, published: seq<Event>)

  /** Where the control thread is; polling is followed by handing the polled events to the driver. */
  datatype Control =
    | AtRest
    | Registering(ticket: Ticket)
    | Accepting(ticket: Ticket)
    | Polling(seen: set<Ticket>)
    | Handing

  /**
  The control thread's side.  `registry` and `flags` are the manager's cancellation map, `pending` the
  driver's map of unfinished requests.  `out` is everything polled so far, of which the driver has been
  handed the first `delivered`; `read` counts what was taken from the channel.  `registered`, `accepted`
  and `cancelAt` record which tickets were issued, which reached the driver, and how much had been
  delivered when a cancellation was first granted.
  */
  datatype Desk = Desk(
    nextTicket: Ticket,
    control: Control,
    registry: set<Ticket>,
    flags: set<Ticket>,
    pending: set<Ticket>,
    read: nat,
    out: seq<Event>,
    delivered: nat,
    registered: set<Ticket>,
    accepted: set<Ticket>,
    cancelAt: map<Ticket, nat>)

  datatype Manager = Manager(capacity: nat, pool: Pool, desk: Desk)

  datatype Step =
    | Enqueue
    | RejectFull
    | Register
    | Accept
    | Cancel(ticket: Ticket)
    | PollBegin
    | PollTake
    | PollEnd
    | HandOver
    | HandEnd
    | TakeJob(worker: nat)
    | Advance(worker: nat, prepared: bool)

  ghost predicate Initial(m: Manager) {
    && m.capacity > 0
    && m.pool.queue == [] && m.pool.published == []
    && (forall w :: 0 <= w < |m.pool.workers| ==> m.pool.workers[w] == Waiting)
    && m.desk == Desk(1, AtRest, {}, {}, {}, 0, [], 0, {}, {}, map[])
  }

  predicate Enabled(m: Manager, step: Step) {
    var d := m.desk;
    match step
    case Enqueue => d.control.AtRest? && |m.pool.queue| < m.capacity
    case RejectFull => d.control.AtRest? && |m.pool.queue| >= m.capacity
    case Register => d.control.Registering?
    case Accept => d.control.Accepting?
    case Cancel(_) => d.control.AtRest?
    case PollBegin => d.control.AtRest?
    case PollTake => d.control.Polling? && d.read < |m.pool.published|
    case PollEnd => d.control.Polling? && d.read >= |m.pool.published|
    case HandOver => d.control.Handing? && d.delivered < |d.out|
    case HandEnd => d.control.Handing? && d.delivered >= |d.out|
    case TakeJob(w) => w < |m.pool.workers| && m.pool.workers[w].Waiting? && m.pool.queue != []
    case Advance(w, _) => w < |m.pool.workers| && m.pool.workers[w].Busy?
  }

  /** Some event of `events` ends ticket `t`. */
  predicate Ended(events: seq<Event>, t: Ticket) {
    exists i :: 0 <= i < |events| && events[i].ticket == t && IsTerminal(events[i])
  }

  /** One poll step: a cancelled ticket shows nothing but one `Cancelled`. */
  function Polled(d: Desk, e: Event): Desk
    requires d.control.Polling?
  {
    var taken := d.(read := d.read + 1);
    if e.ticket in d.registry && e.ticket in d.flags then
      if e.Loading? || e.ticket in d.control.seen then taken
      else taken.(out := d.out + [Cancelled(e.ticket)], control := Polling(d.control.seen + {e.ticket}))
    else taken.(out := d.out + [e])
  }

  /** What a loader does next: the event it sends, if any, and where it goes. */
  function RunJob(t: Ticket, at: Point, flagged: bool, prepared: bool): (seq<Event>, Worker) {
    match at
    case AnnounceQueued => ([Loading(t, Queued)], Busy(t, FirstCheck))
    case FirstCheck => ([], Busy(t, if flagged then SendCancelled else AnnounceDependencies))
    case AnnounceDependencies => ([Loading(t, LoadingDependencies)], Busy(t, SecondCheck))
    case SecondCheck => ([], Busy(t, if flagged then SendCancelled else AnnouncePreparing))
    case AnnouncePreparing => ([Loading(t, Preparing)], Busy(t, Prepare))
    case Prepare => ([], Busy(t, LastCheck(prepared)))
    case LastCheck(ok) => ([], Busy(t, if flagged then SendCancelled else SendResult(ok)))
    case SendCancelled => ([Cancelled(t)], Waiting)
    case SendResult(ok) => ([if ok then Ready(t) else Failed(t)], Waiting)
  }

  function NextPool(p: Pool, w: nat, flags: set<Ticket>, prepared: bool): Pool
    requires w < |p.workers| && p.workers[w].Busy?
  {
    var (sent, after) := RunJob(p.workers[w].ticket, p.workers[w].at, p.workers[w].ticket in flags, prepared);
    p.(published := p.published + sent, workers := p.workers[w := after])
  }

  function Next(m: Manager, step: Step): Manager
    requires Enabled(m, step)
  {
    var d, p := m.desk, m.pool;
    match step
    case Enqueue =>
      m.(pool := p.(queue := p.queue + [d.nextTicket]),
         desk := d.(nextTicket := d.nextTicket + 1, control := Registering(d.nextTicket)))
    case RejectFull => m.(desk := d.(nextTicket := d.nextTicket + 1))
    case Register =>
      var t := d.control.ticket;
      m.(desk := d.(registry := d.registry + {t}, registered := d.registered + {t}, control := Accepting(t)))
    case Accept =>
      var t := d.control.ticket;
      m.(desk := d.(pending := d.pending + {t}, accepted := d.accepted + {t}, control := AtRest))
    case Cancel(t) =>
      if t !in d.registry then m
      else m.(desk := d.(flags := d.flags + {t},
                         cancelAt := if t in d.cancelAt then d.cancelAt else d.cancelAt[t := d.delivered]))
    case PollBegin => m.(desk := d.(control := Polling({})))
    case PollTake => m.(desk := Polled(d, p.published[d.read]))
    case PollEnd =>
      m.(desk := d.(control := Handing,
                    registry := set t | t in d.registry && !Ended(d.out[Min(d.delivered, |d.out|)..], t)))
    case HandOver =>
      var e := d.out[d.delivered];
      m.(desk := d.(delivered := d.delivered + 1,
                    pending := if IsTerminal(e) then d.pending - {e.ticket} else d.pending))
    case HandEnd => m.(desk := d.(control := AtRest))
    case TakeJob(w) =>
      m.(pool := p.(queue := p.queue[1..], workers := p.workers[w := Busy(p.queue[0], AnnounceQueued)]))
    case Advance(w, prepared) => m.(pool := NextPool(p, w, d.flags, prepared))
  }

  function Min(a: nat, b: nat): nat {
    if a <= b then a else b
  }

  ghost predicate IsRun(run: seq<Manager>, steps: seq<Step>) {
    && |run| == |steps| + 1
    && Initial(run[0])
    && forall k :: 0 <= k < |steps| ==> Enabled(run[k], steps[k]) && run[k + 1] == Next(run[k], steps[k])
  }

  // Every ticket's events come in rank order: queued, dependencies, preparing, terminal.

  function Rank(e: Event): nat {
    match e
    case Loading(_, Queued) => 0
    case Loading(_, LoadingDependencies) => 1
    case Loading(_, Preparing) => 2
    case _ => 3
  }

  /** The lowest rank a loader may still send. */
  function RankAt(at: Point): nat {
    match at
    case AnnounceQueued => 0
    case FirstCheck => 1
    case AnnounceDependencies => 1
    case SecondCheck => 2
    case AnnouncePreparing => 2
    case _ => 3
  }

  ghost predicate InOrder(events: seq<Event>) {
    forall i, j :: 0 <= i < j < |events| && events[i].ticket == events[j].ticket ==> Rank(events[i]) < Rank(events[j])
  }

  ghost predicate AllBelow(events: seq<Event>, t: Ticket, rank: nat) {
    forall i :: 0 <= i < |events| && events[i].ticket == t ==> Rank(events[i]) < rank
  }

  ghost predicate Holding(p: Pool, t: Ticket) {
    t in p.queue || exists w :: 0 <= w < |p.workers| && p.workers[w].Busy? && p.workers[w].ticket == t
  }

  /** Each ticket is in one place, and nothing it may still send has been sent. */
  ghost predicate PoolInv(p: Pool, next: Ticket) {
    && (forall i :: 0 <= i < |p.queue| ==> p.queue[i] < next && AllBelow(p.published, p.queue[i], 0))
    && (forall i, j :: 0 <= i < j < |p.queue| ==> p.queue[i] != p.queue[j])
    && (forall w :: 0 <= w < |p.workers| && p.workers[w].Busy? ==>
          && p.workers[w].ticket < next && p.workers[w].ticket !in p.queue
          && AllBelow(p.published, p.workers[w].ticket, RankAt(p.workers[w].at)))
    && (forall v, w :: 0 <= v < w < |p.workers| && p.workers[v].Busy? && p.workers[w].Busy? ==>
          p.workers[v].ticket != p.workers[w].ticket)
    && (forall i :: 0 <= i < |p.published| ==> p.published[i].ticket < next)
    && InOrder(p.published)
  }

  ghost predicate Known(d: Desk, t: Ticket) {
    t in d.registered || d.control == Registering(t)
  }

  /** Only issued tickets travel, and an issued ticket is on its way or has been ended by a loader. */
  ghost predicate Issued(m: Manager) {
    && (forall t: Ticket :: Holding(m.pool, t) ==> Known(m.desk, t))
    && (forall i :: 0 <= i < |m.pool.published| ==> Known(m.desk, m.pool.published[i].ticket))
    && (forall t: Ticket :: Known(m.desk, t) ==>
          t < m.desk.nextTicket && (Holding(m.pool, t) || Ended(m.pool.published, t)))
  }

  ghost predicate SameMoment(e: Event, f: Event) {
    e.ticket == f.ticket && Rank(e) == Rank(f)
  }

  /** `e` stands for one of the first `read` published events. */
  ghost predicate Traced(published: seq<Event>, read: nat, e: Event) {
    exists i :: 0 <= i < read && i < |published| && SameMoment(published[i], e)
  }

  /** Polling repeats what was published, in order, and never loses the end of a ticket. */
  ghost predicate Follows(d: Desk, published: seq<Event>) {
    && d.read <= |published|
    && InOrder(d.out)
    && (forall j :: 0 <= j < |d.out| ==> Traced(published, d.read, d.out[j]))
    && (forall i :: 0 <= i < d.read && IsTerminal(published[i]) ==> Ended(d.out, published[i].ticket))
    && (d.control.Polling? ==> forall t :: t in d.control.seen ==> Ended(d.out, t))
  }

  /** How much of `out` the registry accounts for. */
  function Committed(d: Desk): nat {
    if d.control.Polling? then d.delivered else |d.out|
  }

  ghost predicate Books(d: Desk) {
    && d.delivered <= |d.out|
    && (d.control.AtRest? || d.control.Registering? || d.control.Accepting? ==> d.delivered == |d.out|)
    && (forall t :: t in d.registry <==> t in d.registered && !Ended(d.out[..Committed(d)], t))
    && (forall t :: t in d.pending <==> t in d.accepted && !Ended(d.out[..d.delivered], t))
    && (if d.control.Accepting? then d.registered == d.accepted + {d.control.ticket} && d.control.ticket !in d.accepted
        else d.registered == d.accepted)
    && (d.control.Registering? ==> d.control.ticket !in d.registered)
    && (forall j :: 0 <= j < |d.out| ==> d.out[j].ticket in d.accepted)
  }

  /** After a granted cancellation nothing but `Cancelled` comes out. */
  ghost predicate CancelWins(d: Desk) {
    forall t, j :: t in d.cancelAt && d.cancelAt[t] <= j < |d.out| && d.out[j].ticket == t ==> d.out[j] == Cancelled(t)
  }

  ghost predicate Inv(m: Manager) {
    var sound :=
      && PoolInv(m.pool, m.desk.nextTicket)
      && Issued(m)
      && Follows(m.desk, m.pool.published)
      && Books(m.desk)
      && m.desk.flags == m.desk.cancelAt.Keys
      && CancelWins(m.desk);
    sound
  }

  // Loader steps.

  lemma SendKeepsOrder(events: seq<Event>, e: Event)
    requires InOrder(events) && AllBelow(events, e.ticket, Rank(e))
    ensures InOrder(events + [e])
    ensures AllBelow(events + [e], e.ticket, Rank(e) + 1)
  {
  }

  lemma EndedGrows(events: seq<Event>, more: seq<Event>, t: Ticket)
    ensures Ended(events + more, t) <==> Ended(events, t) || Ended(more, t)
  {
    var all := events + more;
    if Ended(events, t) {
      var i :| 0 <= i < |events| && events[i].ticket == t && IsTerminal(events[i]);
      assert all[i] == events[i];
    }
    if Ended(more, t) {
      var i :| 0 <= i < |more| && more[i].ticket == t && IsTerminal(more[i]);
      assert all[|events| + i] == more[i];
    }
    if Ended(all, t) {
      var i :| 0 <= i < |all| && all[i].ticket == t && IsTerminal(all[i]);
      assert all[i] == if i < |events| then events[i] else more[i - |events|];
    }
  }

  lemma RunJobRanks(t: Ticket, at: Point, flagged: bool, prepared: bool)
    ensures var (sent, after) := RunJob(t, at, flagged, prepared);
      && |sent| <= 1 && (after.Busy? ==> after.ticket == t)
      && (sent != [] ==> sent[0].ticket == t && Rank(sent[0]) >= RankAt(at))
      && (sent != [] && after.Busy? ==> Rank(sent[0]) < RankAt(after.at))
      && (sent == [] ==> after.Busy? && RankAt(after.at) >= RankAt(at))
      && (after.Waiting? ==> sent != [] && IsTerminal(sent[0]))
  {
  }

  /** What a loader's step changes about who holds which ticket. */
  lemma AdvanceKeepsHolding(p: Pool, w: nat, flags: set<Ticket>, prepared: bool, q: Pool, x: Ticket)
    requires w < |p.workers| && p.workers[w].Busy? && q == NextPool(p, w, flags, prepared)
    ensures Holding(q, x) ==> Holding(p, x)
    ensures Holding(p, x) ==> Holding(q, x) || Ended(q.published, x)
  {
    var t := p.workers[w].ticket;
    var (sent, after) := RunJob(t, p.workers[w].at, t in flags, prepared);
    RunJobRanks(t, p.workers[w].at, t in flags, prepared);
    if sent != [] {
      assert q.published[|p.published|] == sent[0];
    }
    if Holding(p, x) && x !in p.queue {
      var v :| 0 <= v < |p.workers| && p.workers[v].Busy? && p.workers[v].ticket == x;
      assert v != w ==> q.workers[v] == p.workers[v];
      assert v == w ==> q.workers[v] == after;
    }
    if Holding(q, x) && x !in q.queue {
      var v :| 0 <= v < |q.workers| && q.workers[v].Busy? && q.workers[v].ticket == x;
      assert p.workers[v].Busy? && p.workers[v].ticket == x;
    }
  }

  lemma AdvanceKeepsPool(p: Pool, next: Ticket, w: nat, flags: set<Ticket>, prepared: bool, q: Pool)
    requires PoolInv(p, next) && w < |p.workers| && p.workers[w].Busy? && q == NextPool(p, w, flags, prepared)
    ensures PoolInv(q, next)
    ensures forall t: Ticket :: Holding(q, t) ==> Holding(p, t)
    ensures forall t: Ticket :: Holding(p, t) ==> Holding(q, t) || Ended(q.published, t)
    ensures p.published <= q.published
    ensures forall i :: |p.published| <= i < |q.published| ==> Holding(p, q.published[i].ticket)
  {
    AdvanceKeepsOrder(p, next, w, flags, prepared, q);
    forall t
      ensures Holding(q, t) ==> Holding(p, t)
      ensures Holding(p, t) ==> Holding(q, t) || Ended(q.published, t)
    {
      AdvanceKeepsHolding(p, w, flags, prepared, q, t);
    }
  }

  lemma AdvanceKeepsOrder(p: Pool, next: Ticket, w: nat, flags: set<Ticket>, prepared: bool, q: Pool)
    requires PoolInv(p, next) && w < |p.workers| && p.workers[w].Busy? && q == NextPool(p, w, flags, prepared)
    ensures PoolInv(q, next)
    ensures p.published <= q.published
    ensures forall i :: |p.published| <= i < |q.published| ==> Holding(p, q.published[i].ticket)
  {
    var t := p.workers[w].ticket;
    var (sent, _) := RunJob(t, p.workers[w].at, t in flags, prepared);
    RunJobRanks(t, p.workers[w].at, t in flags, prepared);
    assert AllBelow(p.published, t, RankAt(p.workers[w].at));
    if sent != [] {
      assert sent == [sent[0]];
      SendKeepsOrder(p.published, sent[0]);
    } else {
      assert q.published == p.published;
    }
  }

  lemma TakeKeepsPool(p: Pool, next: Ticket, w: nat, q: Pool)
    requires PoolInv(p, next) && w < |p.workers| && p.workers[w].Waiting? && p.queue != []
    requires q == p.(queue := p.queue[1..], workers := p.workers[w := Busy(p.queue[0], AnnounceQueued)])
    ensures PoolInv(q, next)
    ensures forall t: Ticket :: Holding(q, t) <==> Holding(p, t)
  {
    assert p.queue == [p.queue[0]] + q.queue;
    forall t
      ensures Holding(q, t) <==> Holding(p, t)
    {
      if Holding(p, t) && t !in p.queue {
        var v :| 0 <= v < |p.workers| && p.workers[v].Busy? && p.workers[v].ticket == t;
        assert q.workers[v] == p.workers[v];
      }
      if t == p.queue[0] {
        assert q.workers[w].Busy? && q.workers[w].ticket == t;
      }
      if Holding(q, t) && t !in q.queue {
        var v :| 0 <= v < |q.workers| && q.workers[v].Busy? && q.workers[v].ticket == t;
        assert v != w ==> p.workers[v] == q.workers[v];
      }
    }
  }

  lemma LoadersKeepInv(m: Manager, step: Step)
    requires Inv(m) && Enabled(m, step) && (step.TakeJob? || step.Advance?)
    ensures Inv(Next(m, step))
  {
    var n := Next(m, step);
    match step
    case TakeJob(w) =>
      TakeKeepsPool(m.pool, m.desk.nextTicket, w, n.pool);
    case Advance(w, prepared) =>
      AdvanceKeepsPool(m.pool, m.desk.nextTicket, w, m.desk.flags, prepared, n.pool);
      MorePublished(m.desk, m.pool.published, n.pool.published);
      StillIssued(m, n);
  }

  lemma MorePublished(d: Desk, before: seq<Event>, after: seq<Event>)
    requires Follows(d, before) && before <= after
    ensures Follows(d, after)
  {
    forall j | 0 <= j < |d.out|
      ensures Traced(after, d.read, d.out[j])
    {
      assert Traced(before, d.read, d.out[j]);
      var i :| 0 <= i < d.read && i < |before| && SameMoment(before[i], d.out[j]);
      assert after[i] == before[i];
    }
  }

  lemma StillIssued(m: Manager, n: Manager)
    requires Issued(m) && n.desk == m.desk && m.pool.published <= n.pool.published
    requires forall t: Ticket :: Holding(n.pool, t) ==> Holding(m.pool, t)
    requires forall t: Ticket :: Holding(m.pool, t) ==> Holding(n.pool, t) || Ended(n.pool.published, t)
    requires forall i :: |m.pool.published| <= i < |n.pool.published| ==> Holding(m.pool, n.pool.published[i].ticket)
    ensures Issued(n)
  {
    forall t | Ended(m.pool.published, t)
      ensures Ended(n.pool.published, t)
    {
      EndedGrows(m.pool.published, n.pool.published[|m.pool.published|..], t);
      assert m.pool.published + n.pool.published[|m.pool.published|..] == n.pool.published;
    }
    forall i | 0 <= i < |n.pool.published|
      ensures Known(n.desk, n.pool.published[i].ticket)
    {
      if i < |m.pool.published| {
        assert n.pool.published[i] == m.pool.published[i];
      }
    }
  }

  // Control steps.

  /** A control step that neither issues a ticket nor moves one leaves the loaders' side alone. */
  lemma DeskStep(m: Manager, n: Manager)
    requires Inv(m) && n.pool == m.pool && n.desk.nextTicket >= m.desk.nextTicket
    requires forall t: Ticket :: Known(n.desk, t) <==> Known(m.desk, t)
    requires Follows(n.desk, m.pool.published) && Books(n.desk)
    requires n.desk.flags == n.desk.cancelAt.Keys && CancelWins(n.desk)
    ensures Inv(n)
  {
  }

  lemma QueueOneMore(p: Pool, t: Ticket, q: Pool)
    requires PoolInv(p, t) && q == p.(queue := p.queue + [t])
    ensures PoolInv(q, t + 1)
    ensures forall x: Ticket :: Holding(q, x) <==> Holding(p, x) || x == t
  {
    forall i | 0 <= i < |q.queue|
      ensures q.queue[i] < t + 1 && AllBelow(q.published, q.queue[i], 0)
    {
      assert q.queue[i] == if i < |p.queue| then p.queue[i] else t;
    }
    forall x
      ensures Holding(q, x) <==> Holding(p, x) || x == t
    {
      assert x in q.queue <==> x in p.queue || x == t;
    }
  }

  lemma EnqueueKeepsInv(m: Manager)
    requires Inv(m) && Enabled(m, Enqueue)
    ensures Inv(Next(m, Enqueue))
  {
    var n, t := Next(m, Enqueue), m.desk.nextTicket;
    QueueOneMore(m.pool, t, n.pool);
    assert !Known(m.desk, t);
    forall x: Ticket | Known(n.desk, x)
      ensures x < n.desk.nextTicket && (Holding(n.pool, x) || Ended(n.pool.published, x))
    {
      assert x == t || Known(m.desk, x);
    }
    assert forall x: Ticket :: Known(m.desk, x) ==> Known(n.desk, x);
    assert Books(n.desk);
  }

  lemma SameFollows(d: Desk, n: Desk, published: seq<Event>)
    requires Follows(d, published) && n.out == d.out && n.read == d.read
    requires n.control.Polling? ==> n.control.seen == {}
    ensures Follows(n, published)
  {
    forall j | 0 <= j < |n.out|
      ensures Traced(published, n.read, n.out[j])
    {
      assert Traced(published, d.read, d.out[j]);
    }
  }

  lemma RegisterKeepsBooks(d: Desk, n: Desk)
    requires Books(d) && d.control.Registering?
    requires var t := d.control.ticket;
      n == d.(registry := d.registry + {t}, registered := d.registered + {t}, control := Accepting(t))
    ensures Books(n)
  {
    assert !Ended(d.out, d.control.ticket);
    assert d.out[..|d.out|] == d.out;
  }

  lemma AcceptKeepsBooks(d: Desk, n: Desk)
    requires Books(d) && d.control.Accepting?
    requires var t := d.control.ticket;
      n == d.(pending := d.pending + {t}, accepted := d.accepted + {t}, control := AtRest)
    ensures Books(n)
  {
    assert !Ended(d.out, d.control.ticket);
    assert d.out[..|d.out|] == d.out;
  }

  lemma BookkeepingKeepsInv(m: Manager, step: Step)
    requires Inv(m) && Enabled(m, step)
    requires step.RejectFull? || step.Register? || step.Accept? || step.PollBegin? || step.HandEnd?
    ensures Inv(Next(m, step))
  {
    var n := Next(m, step);
    SameFollows(m.desk, n.desk, m.pool.published);
    if step.Register? {
      RegisterKeepsBooks(m.desk, n.desk);
    } else if step.Accept? {
      AcceptKeepsBooks(m.desk, n.desk);
    }
    DeskStep(m, n);
  }

  lemma CancelKeepsInv(m: Manager, t: Ticket)
    requires Inv(m) && Enabled(m, Cancel(t))
    ensures Inv(Next(m, Cancel(t)))
  {
    var n := Next(m, Cancel(t));
    if t in m.desk.registry {
      SameFollows(m.desk, n.desk, m.pool.published);
      assert m.desk.delivered == |m.desk.out|;
      DeskStep(m, n);
    }
  }

  lemma EndedPrefix(events: seq<Event>, n: nat, t: Ticket)
    requires n <= |events|
    ensures Ended(events, t) <==> Ended(events[..n], t) || Ended(events[n..], t)
  {
    EndedGrows(events[..n], events[n..], t);
    assert events[..n] + events[n..] == events;
  }

  /** The event about to be polled belongs to a ticket whose end was not polled yet. */
  lemma NextIsOpen(m: Manager)
    requires Inv(m) && Enabled(m, PollTake)
    ensures var e := m.pool.published[m.desk.read];
      && e.ticket in m.desk.accepted && e.ticket in m.desk.registry
      && !Ended(m.desk.out, e.ticket) && AllBelow(m.desk.out, e.ticket, Rank(e))
  {
    var d, published := m.desk, m.pool.published;
    var e := published[d.read];
    assert Known(d, e.ticket);
    forall j | 0 <= j < |d.out| && d.out[j].ticket == e.ticket
      ensures Rank(d.out[j]) < Rank(e)
    {
      assert Traced(published, d.read, d.out[j]);
    }
    assert !Ended(d.out, e.ticket);
    EndedPrefix(d.out, d.delivered, e.ticket);
  }

  lemma PolledFollows(d: Desk, published: seq<Event>, e: Event, o: Event, n: Desk)
    requires Follows(d, published) && d.read < |published| && e == published[d.read] && SameMoment(e, o)
    requires AllBelow(d.out, e.ticket, Rank(e))
    requires n.out == d.out + [o] && n.read == d.read + 1
    requires n.control.Polling? && d.control.Polling?
    requires forall t :: t in n.control.seen ==> t in d.control.seen || (t == o.ticket && IsTerminal(o))
    ensures Follows(n, published)
  {
    SendKeepsOrder(d.out, o);
    forall j | 0 <= j < |n.out|
      ensures Traced(published, n.read, n.out[j])
    {
      if j < |d.out| {
        assert n.out[j] == d.out[j] && Traced(published, d.read, d.out[j]);
      } else {
        assert SameMoment(published[d.read], n.out[j]);
      }
    }
    EndedOneMore(d.out, o);
  }

  lemma EndedOneMore(events: seq<Event>, e: Event)
    ensures forall t :: Ended(events + [e], t) <==> Ended(events, t) || (t == e.ticket && IsTerminal(e))
  {
    forall t
      ensures Ended(events + [e], t) <==> Ended(events, t) || (t == e.ticket && IsTerminal(e))
    {
      EndedGrows(events, [e], t);
      assert [e][0] == e;
    }
  }

  /** An event that is dropped says nothing new: it is a loading event of a cancelled ticket. */
  lemma SkippedFollows(d: Desk, published: seq<Event>, n: Desk)
    requires Follows(d, published) && d.read < |published| && published[d.read].Loading?
    requires n == d.(read := d.read + 1)
    ensures Follows(n, published)
  {
    forall j | 0 <= j < |n.out|
      ensures Traced(published, n.read, n.out[j])
    {
      assert Traced(published, d.read, d.out[j]);
    }
  }

  lemma PolledBooks(d: Desk, o: Event, n: Desk)
    requires Books(d) && d.control.Polling? && n.control.Polling? && o.ticket in d.accepted
    requires n == d.(read := n.read, out := d.out + [o], control := n.control)
    ensures Books(n)
  {
    assert n.out[..d.delivered] == d.out[..d.delivered];
  }

  lemma PollTakeKeepsInv(m: Manager)
    requires Inv(m) && Enabled(m, PollTake)
    ensures Inv(Next(m, PollTake))
  {
    var n, d := Next(m, PollTake), m.desk;
    var e := m.pool.published[d.read];
    NextIsOpen(m);
    if e.ticket in d.flags && e.Loading? {
      SkippedFollows(d, m.pool.published, n.desk);
    } else {
      var o := if e.ticket in d.flags then Cancelled(e.ticket) else e;
      PolledFollows(d, m.pool.published, e, o, n.desk);
      PolledBooks(d, o, n.desk);
      assert CancelWins(n.desk);
    }
    DeskStep(m, n);
  }

  lemma PollEndKeepsBooks(d: Desk, n: Desk)
    requires Books(d) && d.control.Polling?
    requires n == d.(control := Handing, registry := set t | t in d.registry && !Ended(d.out[d.delivered..], t))
    ensures Books(n)
  {
    forall t
      ensures Ended(d.out, t) <==> Ended(d.out[..d.delivered], t) || Ended(d.out[d.delivered..], t)
    {
      EndedPrefix(d.out, d.delivered, t);
    }
    assert n.out[..|n.out|] == d.out;
  }

  lemma PollEndKeepsInv(m: Manager)
    requires Inv(m) && Enabled(m, PollEnd)
    ensures Inv(Next(m, PollEnd))
  {
    var n := Next(m, PollEnd);
    PollEndKeepsBooks(m.desk, n.desk);
    SameFollows(m.desk, n.desk, m.pool.published);
    DeskStep(m, n);
  }

  lemma HandOverKeepsBooks(d: Desk, e: Event, n: Desk)
    requires Books(d) && d.control.Handing? && d.delivered < |d.out| && e == d.out[d.delivered]
    requires n == d.(delivered := d.delivered + 1,
                     pending := if IsTerminal(e) then d.pending - {e.ticket} else d.pending)
    ensures Books(n)
  {
    EndedOneMore(d.out[..d.delivered], e);
    assert d.out[..d.delivered] + [e] == n.out[..n.delivered];
  }

  lemma HandOverKeepsInv(m: Manager)
    requires Inv(m) && Enabled(m, HandOver)
    ensures Inv(Next(m, HandOver))
  {
    var n := Next(m, HandOver);
    HandOverKeepsBooks(m.desk, m.desk.out[m.desk.delivered], n.desk);
    SameFollows(m.desk, n.desk, m.pool.published);
    DeskStep(m, n);
  }

  lemma StepKeepsInv(m: Manager, step: Step)
    requires Inv(m) && Enabled(m, step)
    ensures Inv(Next(m, step))
  {
    match step
    case Enqueue => EnqueueKeepsInv(m);
    case Cancel(t) => CancelKeepsInv(m, t);
    case PollTake => PollTakeKeepsInv(m);
    case PollEnd => PollEndKeepsInv(m);
    case HandOver => HandOverKeepsInv(m);
    case TakeJob(_) => LoadersKeepInv(m, step);
    case Advance(_, _) => LoadersKeepInv(m, step);
    case RejectFull => BookkeepingKeepsInv(m, step);
    case Register => BookkeepingKeepsInv(m, step);
    case Accept => BookkeepingKeepsInv(m, step);
    case PollBegin => BookkeepingKeepsInv(m, step);
    case HandEnd => BookkeepingKeepsInv(m, step);
  }

  lemma {:induction false} RunKeepsInv(run: seq<Manager>, steps: seq<Step>)
    requires IsRun(run, steps)
    ensures Inv(run[|steps|])
  {
    if steps == [] {
    } else {
      var k := |steps| - 1;
      assert IsRun(run[..k + 1], steps[..k]);
      RunKeepsInv(run[..k + 1], steps[..k]);
      StepKeepsInv(run[k], steps[k]);
    }
  }

  // What every run guarantees.

  /** What the driver has been handed. */
  function Delivered(m: Manager): seq<Event>
    requires m.desk.delivered <= |m.desk.out|
  {
    m.desk.out[..m.desk.delivered]
  }

  /** Each ticket is delivered at most one terminal event, after all of its loading events, which come in stage order. */
  lemma OneTerminalAfterLoading(run: seq<Manager>, steps: seq<Step>, i: nat, j: nat)
    requires IsRun(run, steps)
    ensures var m := run[|steps|];
      && m.desk.delivered <= |m.desk.out|
      && var events := Delivered(m);
         i < j < |events| && events[i].ticket == events[j].ticket ==>
           && events[i].Loading? && events[i].ticket in m.desk.accepted
           && (events[j].Loading? ==> Rank(events[i]) < Rank(events[j]))
  {
    RunKeepsInv(run, steps);
    var d := run[|steps|].desk;
    if i < j < d.delivered && d.out[i].ticket == d.out[j].ticket {
      assert Rank(d.out[i]) < Rank(d.out[j]);
      assert d.out[i].ticket in d.registered;
    }
  }

  /** After a granted cancellation only `Cancelled` is delivered for the ticket, even if its result was already published. */
  lemma CancellationWins(run: seq<Manager>, steps: seq<Step>, k: nat, t: Ticket, j: nat)
    requires IsRun(run, steps) && k < |steps| && steps[k] == Cancel(t) && t in run[k].desk.registry
    ensures var m := run[|steps|];
      && m.desk.delivered <= |m.desk.out|
      && (run[k].desk.delivered <= j < m.desk.delivered && m.desk.out[j].ticket == t ==> m.desk.out[j] == Cancelled(t))
  {
    RunKeepsInv(run, steps);
    CancelRemembered(run, steps, k, t);
  }

  lemma {:induction false} CancelRemembered(run: seq<Manager>, steps: seq<Step>, k: nat, t: Ticket)
    requires IsRun(run, steps) && k < |steps| && steps[k] == Cancel(t) && t in run[k].desk.registry
    ensures var d := run[|steps|].desk; t in d.cancelAt && d.cancelAt[t] <= run[k].desk.delivered
    decreases |steps|
  {
    var last := |steps| - 1;
    assert IsRun(run[..last + 1], steps[..last]);
    RunKeepsInv(run[..last + 1], steps[..last]);
    if k < last {
      CancelRemembered(run[..last + 1], steps[..last], k, t);
    } else {
      CancelMarksAreOld(run[..last + 1], steps[..last]);
    }
  }

  lemma {:induction false} CancelMarksAreOld(run: seq<Manager>, steps: seq<Step>)
    requires IsRun(run, steps)
    ensures var d := run[|steps|].desk; forall t :: t in d.cancelAt ==> d.cancelAt[t] <= d.delivered
  {
    if steps != [] {
      var last := |steps| - 1;
      assert IsRun(run[..last + 1], steps[..last]);
      CancelMarksAreOld(run[..last + 1], steps[..last]);
    }
  }

  /**
  Between operations the manager's registry (its `pending_count`) and the driver's pending requests are
  the same tickets: those accepted and not yet delivered a terminal event.
  */
  lemma PendingIsAcceptedUnfinished(run: seq<Manager>, steps: seq<Step>)
    requires IsRun(run, steps) && run[|steps|].desk.control.AtRest?
    ensures var d := run[|steps|].desk;
      && d.registry == d.pending && d.delivered == |d.out|
      && (forall t :: t in d.registry <==> t in d.accepted && !Ended(d.out[..d.delivered], t))
  {
    RunKeepsInv(run, steps);
    var d := run[|steps|].desk;
    assert d.out[..d.delivered] == d.out[..|d.out|];
  }

  /** Between operations, with the queue empty, every loader waiting and everything polled. */
  ghost predicate Quiet(m: Manager) {
    && m.desk.control.AtRest? && m.pool.queue == [] && m.desk.read == |m.pool.published|
    && forall w :: 0 <= w < |m.pool.workers| ==> m.pool.workers[w].Waiting?
  }

  lemma QuietIsFinished(m: Manager)
    requires Inv(m) && Quiet(m)
    ensures m.desk.pending == {} && m.desk.registry == {}
  {
    assert m.desk.out[..m.desk.delivered] == m.desk.out[..|m.desk.out|] == m.desk.out;
    forall t
      ensures t !in m.desk.registry && t !in m.desk.pending
    {
      if Known(m.desk, t) {
        assert Ended(m.pool.published, t);
        assert Ended(m.desk.out, t);
      }
    }
  }

  /** When nothing is queued, working or unread, no ticket is left pending. */
  lemma QuietMeansFinished(run: seq<Manager>, steps: seq<Step>)
    requires IsRun(run, steps) && Quiet(run[|steps|])
    ensures run[|steps|].desk.pending == {} && run[|steps|].desk.registry == {}
  {
    RunKeepsInv(run, steps);
    QuietIsFinished(run[|steps|]);
  }
}
