/**
The single-producer/single-consumer ring as a two-thread step system.

Every atomic load, every write into a slot and every publishing store is one step, and a run
is any interleaving of producer and consumer steps.  An acquire load of the other side's index
may return a stale value: any value that index has held since this side last loaded it.
*/
module SpscRing {
  import opened ModArith
  import opened AudioBlocks

  /** Where the producer is inside `try_push_with`. */
  datatype Producer =
    | PIdle
    | PLoadedWrite(item: AudioBlock, write: nat)
    | PLoadedRead(item: AudioBlock, write: nat, read: nat)
    | PFilling(item: AudioBlock, write: nat)
    | PFilled(item: AudioBlock, write: nat)

  /** Where the consumer is inside `pop_with` or `peek_with`. */
  datatype Consumer =
    | CIdle
    | CLoadedRead(read: nat)
    | CLoadedWrite(read: nat, write: nat)
    | CReading(read: nat)
    | CHasRead(read: nat, item: AudioBlock)

  /**
  `slots`, `capacity`, `maxSamples`, `write` and `read` are the ring's own fields; `write` and
  `read` wrap at `WORD`.  `published` and `consumed` record what was pushed and what was popped;
  `seenRead` and `seenWrite` are the newest counts each side has loaded of the other.
  */
  datatype Ring = Ring(
    capacity: nat,
    maxSamples: nat,
    slots: seq<AudioBlock>,
    write: nat,
    read: nat,
    producer: Producer,
    consumer: Consumer,
    published: seq<AudioBlock>,
    consumed: seq<AudioBlock>,
    seenRead: nat,
    seenWrite: nat)

  datatype Step =
    | PushRejectOversized(item: AudioBlock)
    | PushLoadWrite(item: AudioBlock)
    | PushLoadRead(seen: nat)
    | PushCheckFull
    | PushWritePartially(torn: AudioBlock)
    | PushFinishFill
    | PushPublish
    | PopLoadRead
    | PopLoadWrite(seen: nat)
    | PopCheckEmpty
    | PopReadSlot
    | PopAdvance
    | PeekReturn

  ghost predicate Initial(s: Ring) {
    && IsCapacity(s.capacity)
    && |s.slots| == s.capacity
    && s.write == s.read == 0
    && s.producer == PIdle && s.consumer == CIdle
    && s.published == s.consumed == []
    && s.seenRead == s.seenWrite == 0
  }

  predicate Fits(s: Ring, item: AudioBlock) {
    item.frames * item.channels <= s.maxSamples
  }

  /** When a step can be taken.  The guards look only at the stepping thread's own control point. */
  predicate Enabled(s: Ring, step: Step) {
    match step
    case PushRejectOversized(item) => s.producer.PIdle? && !Fits(s, item)
    case PushLoadWrite(item) => s.producer.PIdle? && Fits(s, item)
    case PushLoadRead(seen) => s.producer.PLoadedWrite? && s.seenRead <= seen <= |s.consumed|
    case PushCheckFull => s.producer.PLoadedRead?
    case PushWritePartially(_) => s.producer.PFilling?
    case PushFinishFill => s.producer.PFilling?
    case PushPublish => s.producer.PFilled?
    case PopLoadRead => s.consumer.CIdle?
    case PopLoadWrite(seen) => s.consumer.CLoadedRead? && s.seenWrite <= seen <= |s.published|
    case PopCheckEmpty => s.consumer.CLoadedWrite?
    case PopReadSlot => s.consumer.CReading?
    case PopAdvance => s.consumer.CHasRead?
    case PeekReturn => s.consumer.CHasRead?
  }

  /** The ring never indexes a slot out of range; this guard is discharged for every reachable state. */
  ghost predicate InRange(s: Ring) {
    && 0 < s.capacity == |s.slots|
    && (s.producer.PLoadedRead? ==> s.producer.write < WORD && s.producer.read < WORD)
  }

  function Next(s: Ring, step: Step): Ring
    requires InRange(s) && Enabled(s, step)
  {
    match step
    case PushRejectOversized(_) => s
    case PushLoadWrite(item) => s.(producer := PLoadedWrite(item, s.write))
    case PushLoadRead(seen) =>
      s.(producer := PLoadedRead(s.producer.item, s.producer.write, seen % WORD), seenRead := seen)
    case PushCheckFull =>
      if WrappingSub(s.producer.write, s.producer.read) >= s.capacity
      then s.(producer := PIdle)
      else s.(producer := PFilling(s.producer.item, s.producer.write))
    case PushWritePartially(torn) =>
      s.(slots := s.slots[s.producer.write % s.capacity := torn])
    case PushFinishFill =>
      s.(slots := s.slots[s.producer.write % s.capacity := s.producer.item],
         producer := PFilled(s.producer.item, s.producer.write))
    case PushPublish =>
      s.(write := WrappingAdd(s.producer.write, 1),
         published := s.published + [s.producer.item],
         producer := PIdle)
    case PopLoadRead => s.(consumer := CLoadedRead(s.read))
    case PopLoadWrite(seen) =>
      s.(consumer := CLoadedWrite(s.consumer.read, seen % WORD), seenWrite := seen)
    case PopCheckEmpty =>
      if s.consumer.read == s.consumer.write
      then s.(consumer := CIdle)
      else s.(consumer := CReading(s.consumer.read))
    case PopReadSlot =>
      s.(consumer := CHasRead(s.consumer.read, s.slots[s.consumer.read % s.capacity]))
    case PopAdvance =>
      s.(read := WrappingAdd(s.consumer.read, 1),
         consumed := s.consumed + [s.consumer.item],
         consumer := CIdle)
    case PeekReturn => s.(consumer := CIdle)
  }

  // The invariant, one conjunct group per thread.

  ghost predicate Counts(s: Ring) {
    && IsCapacity(s.capacity)
    && 0 < |s.slots| == s.capacity
    && s.write == |s.published| % WORD
    && s.read == |s.consumed| % WORD
    && s.seenRead <= |s.consumed| <= s.seenWrite <= |s.published| <= s.seenRead + s.capacity
    && s.consumed <= s.published
  }

  /** Every unread block sits untouched in its slot. */
  ghost predicate UnreadIntact(s: Ring)
    requires 0 < s.capacity == |s.slots|
  {
    forall i :: |s.consumed| <= i < |s.published| ==> s.slots[i % s.capacity] == s.published[i]
  }

  ghost predicate ProducerOk(s: Ring)
    requires 0 < s.capacity == |s.slots|
  {
    match s.producer
    case PIdle => true
    case PLoadedWrite(_, w) => w == s.write
    case PLoadedRead(_, w, r) => w == s.write && r == s.seenRead % WORD
    case PFilling(_, w) => w == s.write && |s.published| < s.seenRead + s.capacity
    case PFilled(item, w) =>
      w == s.write && |s.published| < s.seenRead + s.capacity && s.slots[w % s.capacity] == item
  }

  ghost predicate ConsumerOk(s: Ring) {
    match s.consumer
    case CIdle => true
    case CLoadedRead(r) => r == s.read
    case CLoadedWrite(r, w) => r == s.read && w == s.seenWrite % WORD
    case CReading(r) => r == s.read && |s.consumed| < s.seenWrite
    case CHasRead(r, item) =>
      r == s.read && |s.consumed| < |s.published| && |s.consumed| < s.seenWrite
      && item == s.published[|s.consumed|]
  }

  ghost predicate Inv(s: Ring) {
    Counts(s) && UnreadIntact(s) && ProducerOk(s) && ConsumerOk(s)
  }

  lemma InvInRange(s: Ring)
    requires Inv(s)
    ensures InRange(s)
  {
  }

  /** The slot the producer writes is outside the unread range. */
  lemma FillSlotIsFree(s: Ring)
    requires Inv(s)
    requires s.producer.PFilling? || s.producer.PFilled?
    ensures s.producer.write % s.capacity == |s.published| % s.capacity
    ensures forall i :: |s.consumed| <= i < |s.published|
              ==> i % s.capacity != s.producer.write % s.capacity
  {
    SlotOfWrapped(|s.published|, s.capacity);
    forall i | |s.consumed| <= i < |s.published|
      ensures i % s.capacity != |s.published| % s.capacity
    {
      SlotsDiffer(i, |s.published|, s.capacity);
    }
  }

  lemma ProducerStepKeepsInv(s: Ring, step: Step)
    requires Inv(s) && InRange(s) && Enabled(s, step)
    requires step.PushRejectOversized? || step.PushLoadWrite? || step.PushLoadRead? || step.PushCheckFull?
    ensures Inv(Next(s, step))
  {
    if step.PushCheckFull? {
      CapacityDividesWord(s.capacity);
      WrappedDistance(|s.published|, s.seenRead);
    } else if step.PushLoadRead? {
      assert Counts(Next(s, step));
    }
  }

  lemma FillStepKeepsInv(s: Ring, step: Step)
    requires Inv(s) && InRange(s) && Enabled(s, step)
    requires step.PushWritePartially? || step.PushFinishFill?
    ensures Inv(Next(s, step))
  {
    FillSlotIsFree(s);
    assert Counts(Next(s, step));
  }

  lemma PublishKeepsUnread(s: Ring)
    requires Inv(s) && InRange(s) && s.producer.PFilled?
    ensures UnreadIntact(Next(s, PushPublish))
  {
    FillSlotIsFree(s);
    var t := Next(s, PushPublish);
    forall i | |t.consumed| <= i < |t.published|
      ensures t.slots[i % t.capacity] == t.published[i]
    {
      if i < |s.published| {
        assert t.published[i] == s.published[i];
      }
    }
  }

  lemma PublishKeepsCounts(s: Ring)
    requires Inv(s) && InRange(s) && s.producer.PFilled?
    ensures Counts(Next(s, PushPublish))
  {
    NextCount(|s.published|);
  }

  lemma PublishKeepsInv(s: Ring)
    requires Inv(s) && InRange(s) && s.producer.PFilled?
    ensures Inv(Next(s, PushPublish))
  {
    PublishKeepsCounts(s);
    PublishKeepsUnread(s);
    assert ConsumerOk(Next(s, PushPublish));
  }

  lemma AdvanceKeepsInv(s: Ring)
    requires Inv(s) && InRange(s) && s.consumer.CHasRead?
    ensures Inv(Next(s, PopAdvance))
  {
    var t := Next(s, PopAdvance);
    assert Counts(t) by {
      NextCount(|s.consumed|);
    }
    assert UnreadIntact(t);
    assert ProducerOk(t);
  }

  lemma ConsumerStepKeepsInv(s: Ring, step: Step)
    requires Inv(s) && InRange(s) && Enabled(s, step)
    requires step.PopLoadRead? || step.PopLoadWrite? || step.PopReadSlot? || step.PeekReturn?
    ensures Inv(Next(s, step))
  {
    if step.PopReadSlot? {
      SlotOfWrapped(|s.consumed|, s.capacity);
    }
    var t := Next(s, step);
    assert Counts(t);
    assert UnreadIntact(t);
    assert ProducerOk(t);
  }

  lemma CheckEmptyKeepsInv(s: Ring)
    requires Inv(s) && InRange(s) && s.consumer.CLoadedWrite?
    ensures Inv(Next(s, PopCheckEmpty))
  {
    CapacityDividesWord(s.capacity);
    WrappedDistance(s.seenWrite, |s.consumed|);
    var t := Next(s, PopCheckEmpty);
    assert Counts(t);
    assert UnreadIntact(t);
    assert ProducerOk(t);
  }

  lemma StepKeepsInv(s: Ring, step: Step)
    requires Inv(s) && InRange(s) && Enabled(s, step)
    ensures Inv(Next(s, step))
  {
    match step {
      case PushRejectOversized(_) => ProducerStepKeepsInv(s, step);
      case PushLoadWrite(_) => ProducerStepKeepsInv(s, step);
      case PushLoadRead(_) => ProducerStepKeepsInv(s, step);
      case PushCheckFull => ProducerStepKeepsInv(s, step);
      case PushWritePartially(_) => FillStepKeepsInv(s, step);
      case PushFinishFill => FillStepKeepsInv(s, step);
      case PushPublish => PublishKeepsInv(s);
      case PopLoadRead => ConsumerStepKeepsInv(s, step);
      case PopLoadWrite(_) => ConsumerStepKeepsInv(s, step);
      case PopCheckEmpty => CheckEmptyKeepsInv(s);
      case PopReadSlot => ConsumerStepKeepsInv(s, step);
      case PopAdvance => AdvanceKeepsInv(s);
      case PeekReturn => ConsumerStepKeepsInv(s, step);
    }
  }

  /** `run` is an interleaving: it starts freshly built and each state follows from the one before. */
  ghost predicate IsRun(run: seq<Ring>, steps: seq<Step>) {
    && |run| == |steps| + 1
    && Initial(run[0])
    && forall k :: 0 <= k < |steps| ==>
         InRange(run[k]) && Enabled(run[k], steps[k]) && run[k + 1] == Next(run[k], steps[k])
  }

  lemma {:induction false} RunKeepsInv(run: seq<Ring>, steps: seq<Step>)
    requires IsRun(run, steps)
    ensures Inv(run[|steps|])
  {
    if steps == [] {
      CapacityDividesWord(run[0].capacity);
    } else {
      var n := |steps| - 1;
      assert IsRun(run[..n + 1], steps[..n]);
      RunKeepsInv(run[..n + 1], steps[..n]);
      StepKeepsInv(run[n], steps[n]);
    }
  }

  /** No run gets stuck on a bad index: the next step is always well defined. */
  lemma RunNeverIndexesOutOfRange(run: seq<Ring>, steps: seq<Step>)
    requires IsRun(run, steps)
    ensures InRange(run[|steps|])
  {
    RunKeepsInv(run, steps);
    InvInRange(run[|steps|]);
  }

  /**
  The consumer sees exactly a prefix of what was published, in order and with the contents it was
  filled with, whatever the interleaving, how stale the index loads were and how often they wrapped.
  */
  lemma ConsumedIsPrefixOfPublished(run: seq<Ring>, steps: seq<Step>)
    requires IsRun(run, steps)
    ensures var s := run[|steps|];
      && s.consumed <= s.published
      && |s.published| - |s.consumed| <= s.capacity
      && (s.consumer.CHasRead? ==>
            |s.consumed| < |s.published| && s.consumer.item == s.published[|s.consumed|])
  {
    RunKeepsInv(run, steps);
  }

  /** The producer and the consumer never touch the same slot at the same time. */
  lemma NoSlotIsShared(run: seq<Ring>, steps: seq<Step>)
    requires IsRun(run, steps)
    ensures var s := run[|steps|];
      && s.capacity > 0
      && (s.producer.PFilling? || s.producer.PFilled? ==>
           && (forall i :: |s.consumed| <= i < |s.published|
                 ==> i % s.capacity != s.producer.write % s.capacity)
           && (s.consumer.CReading? || s.consumer.CHasRead? ==>
                 s.consumer.read % s.capacity != s.producer.write % s.capacity))
  {
    RunKeepsInv(run, steps);
    var s := run[|steps|];
    if s.producer.PFilling? || s.producer.PFilled? {
      FillSlotIsFree(s);
      SlotOfWrapped(|s.consumed|, s.capacity);
    }
  }

  /** A push is refused only when its view is full, and a pop finds nothing only when its view is empty. */
  lemma RefusalsAreExact(run: seq<Ring>, steps: seq<Step>)
    requires IsRun(run, steps)
    requires run[|steps|].producer.PLoadedRead? || run[|steps|].consumer.CLoadedWrite?
    ensures var s := run[|steps|];
      && InRange(s)
      && (s.producer.PLoadedRead? ==>
            (Next(s, PushCheckFull).producer.PIdle? <==> |s.published| - s.seenRead == s.capacity))
      && (s.consumer.CLoadedWrite? ==>
            (Next(s, PopCheckEmpty).consumer.CIdle? <==> s.seenWrite == |s.consumed|))
  {
    RunKeepsInv(run, steps);
    var s := run[|steps|];
    CapacityDividesWord(s.capacity);
    WrappedDistance(|s.published|, s.seenRead);
    WrappedDistance(s.seenWrite, |s.consumed|);
  }

  /** The queue as the consumer knows it: published, not yet popped, and seen by its last load. */
  function Known(s: Ring): seq<AudioBlock>
    requires |s.consumed| <= s.seenWrite <= |s.published|
  {
    s.published[|s.consumed|..s.seenWrite]
  }

  /** Steps other than the consumer's load and pop leave what it knows alone. */
  lemma KnownStays(s: Ring, step: Step)
    requires Inv(s) && InRange(s) && Enabled(s, step) && !step.PopLoadWrite? && !step.PopAdvance?
    ensures |Next(s, step).consumed| <= Next(s, step).seenWrite <= |Next(s, step).published|
    ensures Known(Next(s, step)) == Known(s)
  {
  }

  lemma KnownMoves(s: Ring, step: Step)
    requires Inv(s) && InRange(s) && Enabled(s, step)
    ensures step.PopLoadWrite? ==> Known(Next(s, step)) == Known(s) + s.published[s.seenWrite..step.seen]
    ensures step.PopAdvance? ==> Known(s) != [] && |s.consumed| < s.seenWrite && Known(Next(s, step)) == Known(s)[1..]
  {
  }

  lemma EmptyIsTold(s: Ring)
    requires Inv(s) && InRange(s) && s.consumer.CLoadedWrite?
    ensures Next(s, PopCheckEmpty).consumer.CIdle? <==> Known(s) == []
  {
    CapacityDividesWord(s.capacity);
    WrappedDistance(s.seenWrite, |s.consumed|);
  }

  /**
  Between its own steps the consumer has a plain queue to itself.  Only its load of the write index makes
  the queue longer, by blocks published in the meantime; only its pop makes it shorter; it is told that the
  queue is empty exactly when it is; and what it reads is the front.
  */
  lemma ConsumerOwnsAQueue(run: seq<Ring>, steps: seq<Step>, step: Step)
    requires IsRun(run, steps) && Enabled(run[|steps|], step)
    ensures var s := run[|steps|];
      && InRange(s) && |s.consumed| <= s.seenWrite <= |s.published|
      && var t := Next(s, step);
         && |t.consumed| <= t.seenWrite <= |t.published|
         && Known(t) == (match step
                         case PopLoadWrite(seen) => Known(s) + s.published[s.seenWrite..seen]
                         case PopAdvance => if Known(s) == [] then [] else Known(s)[1..]
                         case _ => Known(s))
         && (step.PopCheckEmpty? ==> (t.consumer.CIdle? <==> Known(s) == []))
         && (s.consumer.CHasRead? ==> Known(s) != [] && s.consumer.item == Known(s)[0])
  {
    RunKeepsInv(run, steps);
    var s := run[|steps|];
    KnownMoves(s, step);
    if step.PopCheckEmpty? {
      EmptyIsTold(s);
    }
    if !step.PopLoadWrite? && !step.PopAdvance? {
      KnownStays(s, step);
    }
  }

  // One reader as a sequence of turns on a plain queue.

  /** One turn of a reader: it finds nothing, or looks at a block any number of times and may then pop it. */
  datatype Turn = Nothing | Looked(block: AudioBlock, popped: bool)

  /**
  What a reader has done so far: its turns, for each one the blocks that have shown up between the start of
  the turn before and its own start, and the blocks that have shown up since the last turn started.
  */
  datatype Account = Account(turns: seq<Turn>, arrivals: seq<seq<AudioBlock>>, pending: seq<AudioBlock>)

  /** The last turn has looked at a block and not popped it. */
  predicate IsOpen(a: Account) {
    a.turns != [] && a.turns[|a.turns| - 1].Looked? && !a.turns[|a.turns| - 1].popped
  }

  function NewTurn(a: Account, turn: Turn): Account {
    Account(a.turns + [turn], a.arrivals + [a.pending], [])
  }

  function Recorded(a: Account, s: Ring, step: Step): Account
    requires InRange(s) && Enabled(s, step) && s.seenWrite <= |s.published|
  {
    match step
    case PopLoadWrite(seen) => a.(pending := a.pending + s.published[s.seenWrite..seen])
    case PopCheckEmpty => if Next(s, step).consumer.CIdle? then NewTurn(a, Nothing) else a
    case PeekReturn => if IsOpen(a) then a else NewTurn(a, Looked(s.consumer.item, false))
    case PopAdvance =>
      if IsOpen(a)
      then a.(turns := a.turns[..|a.turns| - 1] + [a.turns[|a.turns| - 1].(popped := true)])
      else NewTurn(a, Looked(s.consumer.item, true))
    case _ => a
  }

  /** The account of what the consumer does from state `from` to state `to` of a run. */
  ghost function AccountOf(run: seq<Ring>, steps: seq<Step>, from: nat, to: nat): Account
    requires IsRun(run, steps) && from <= to <= |steps|
  {
    if to == from then Account([], [], [])
    else
      RunPrefixKeepsInv(run, steps, to - 1);
      Recorded(AccountOf(run, steps, from, to - 1), run[to - 1], steps[to - 1])
  }

  lemma RunPrefixKeepsInv(run: seq<Ring>, steps: seq<Step>, k: nat)
    requires IsRun(run, steps) && k <= |steps|
    ensures Inv(run[k])
  {
    assert IsRun(run[..k + 1], steps[..k]);
    RunKeepsInv(run[..k + 1], steps[..k]);
  }

  /** The plain queue at the start of its last turn, and after it. */
  function TurnStart(first: seq<AudioBlock>, turns: seq<Turn>, arrivals: seq<seq<AudioBlock>>): seq<AudioBlock>
    requires |turns| == |arrivals| > 0
    decreases |turns|, 0
  {
    After(first, turns[..|turns| - 1], arrivals[..|turns| - 1]) + arrivals[|turns| - 1]
  }

  function After(first: seq<AudioBlock>, turns: seq<Turn>, arrivals: seq<seq<AudioBlock>>): seq<AudioBlock>
    requires |turns| == |arrivals|
    decreases |turns|, 1
  {
    if turns == [] then first
    else
      var q, turn := TurnStart(first, turns, arrivals), turns[|turns| - 1];
      if turn.Looked? && turn.popped && q != [] then q[1..] else q
  }

  /** On a plain queue that starts as `first` and gets `arrivals[i]` before turn `i`, the turns go just so. */
  ghost predicate Agrees(first: seq<AudioBlock>, turns: seq<Turn>, arrivals: seq<seq<AudioBlock>>, capacity: nat) {
    && |turns| == |arrivals|
    && (turns != [] ==>
          var q, turn := TurnStart(first, turns, arrivals), turns[|turns| - 1];
          && Agrees(first, turns[..|turns| - 1], arrivals[..|turns| - 1], capacity)
          && |q| <= capacity
          && (if turn.Looked? then q != [] && turn.block == q[0] else q == []))
  }

  ghost predicate Accounted(first: seq<AudioBlock>, a: Account, s: Ring) {
    var accounted :=
      && Inv(s)
      && Agrees(first, a.turns, a.arrivals, s.capacity)
      && Known(s) == After(first, a.turns, a.arrivals) + a.pending;
    accounted
  }

  lemma NewTurnAgrees(first: seq<AudioBlock>, a: Account, s: Ring, turn: Turn)
    requires Accounted(first, a, s)
    requires if turn.Looked? then Known(s) != [] && turn.block == Known(s)[0] else Known(s) == []
    ensures var b := NewTurn(a, turn);
      && Agrees(first, b.turns, b.arrivals, s.capacity)
      && After(first, b.turns, b.arrivals) == if turn.Looked? && turn.popped then Known(s)[1..] else Known(s)
  {
    var b := NewTurn(a, turn);
    assert b.turns[..|a.turns|] == a.turns && b.arrivals[..|a.turns|] == a.arrivals;
  }

  lemma CloseTurnAgrees(first: seq<AudioBlock>, a: Account, s: Ring)
    requires Accounted(first, a, s) && IsOpen(a)
    ensures var b := a.(turns := a.turns[..|a.turns| - 1] + [a.turns[|a.turns| - 1].(popped := true)]);
      && Agrees(first, b.turns, b.arrivals, s.capacity)
      && After(first, a.turns, a.arrivals) != []
      && After(first, b.turns, b.arrivals) == After(first, a.turns, a.arrivals)[1..]
  {
    var n := |a.turns| - 1;
    var b := a.(turns := a.turns[..n] + [a.turns[n].(popped := true)]);
    assert b.turns[..n] == a.turns[..n];
  }

  lemma LoadStaysAccounted(first: seq<AudioBlock>, a: Account, s: Ring, step: Step)
    requires InRange(s) && Accounted(first, a, s) && Enabled(s, step) && step.PopLoadWrite?
    ensures Accounted(first, Recorded(a, s, step), Next(s, step))
  {
    StepKeepsInv(s, step);
    KnownMoves(s, step);
  }

  lemma EmptyStaysAccounted(first: seq<AudioBlock>, a: Account, s: Ring)
    requires InRange(s) && Accounted(first, a, s) && s.consumer.CLoadedWrite?
    ensures Accounted(first, Recorded(a, s, PopCheckEmpty), Next(s, PopCheckEmpty))
  {
    StepKeepsInv(s, PopCheckEmpty);
    KnownStays(s, PopCheckEmpty);
    EmptyIsTold(s);
    if Known(s) == [] {
      NewTurnAgrees(first, a, s, Nothing);
    }
  }

  lemma PeekStaysAccounted(first: seq<AudioBlock>, a: Account, s: Ring)
    requires InRange(s) && Accounted(first, a, s) && s.consumer.CHasRead?
    ensures Accounted(first, Recorded(a, s, PeekReturn), Next(s, PeekReturn))
  {
    StepKeepsInv(s, PeekReturn);
    KnownStays(s, PeekReturn);
    if !IsOpen(a) {
      NewTurnAgrees(first, a, s, Looked(s.consumer.item, false));
    }
  }

  lemma PopClosesTurn(first: seq<AudioBlock>, a: Account, s: Ring)
    requires InRange(s) && Accounted(first, a, s) && s.consumer.CHasRead? && IsOpen(a)
    ensures Accounted(first, Recorded(a, s, PopAdvance), Next(s, PopAdvance))
  {
    StepKeepsInv(s, PopAdvance);
    KnownMoves(s, PopAdvance);
    CloseTurnAgrees(first, a, s);
    var rest := After(first, a.turns, a.arrivals);
    assert (rest + a.pending)[1..] == rest[1..] + a.pending;
  }

  lemma PopStaysAccounted(first: seq<AudioBlock>, a: Account, s: Ring)
    requires InRange(s) && Accounted(first, a, s) && s.consumer.CHasRead?
    ensures Accounted(first, Recorded(a, s, PopAdvance), Next(s, PopAdvance))
  {
    if IsOpen(a) {
      PopClosesTurn(first, a, s);
    } else {
      StepKeepsInv(s, PopAdvance);
      KnownMoves(s, PopAdvance);
      NewTurnAgrees(first, a, s, Looked(s.consumer.item, true));
    }
  }

  lemma RecordedStaysAccounted(first: seq<AudioBlock>, a: Account, s: Ring, step: Step)
    requires InRange(s) && Accounted(first, a, s) && Enabled(s, step)
    ensures Accounted(first, Recorded(a, s, step), Next(s, step))
  {
    match step {
      case PopLoadWrite(_) => LoadStaysAccounted(first, a, s, step);
      case PopCheckEmpty => EmptyStaysAccounted(first, a, s);
      case PeekReturn => PeekStaysAccounted(first, a, s);
      case PopAdvance => PopStaysAccounted(first, a, s);
      case _ =>
        StepKeepsInv(s, step);
        KnownStays(s, step);
    }
  }

  /**
  Whatever the interleaving, what a reader does on the ring is what it would do on a plain queue that grows by
  `arrivals[i]` before turn `i` and never holds more than the ring does; what else has shown up is left for
  later.
  */
  lemma {:induction false} ReaderHasAQueue(run: seq<Ring>, steps: seq<Step>, from: nat, to: nat)
    requires IsRun(run, steps) && from <= to <= |steps|
    ensures Inv(run[from]) && Accounted(Known(run[from]), AccountOf(run, steps, from, to), run[to])
  {
    RunPrefixKeepsInv(run, steps, from);
    if from < to {
      ReaderHasAQueue(run, steps, from, to - 1);
      RecordedStaysAccounted(Known(run[from]), AccountOf(run, steps, from, to - 1), run[to - 1], steps[to - 1]);
    }
  }

  function Flat(arrivals: seq<seq<AudioBlock>>): seq<AudioBlock> {
    if arrivals == [] then [] else Flat(arrivals[..|arrivals| - 1]) + arrivals[|arrivals| - 1]
  }

  lemma RecordedArrivals(a: Account, s: Ring, step: Step)
    requires Inv(s) && InRange(s) && Enabled(s, step)
    ensures var b := Recorded(a, s, step);
      Flat(b.arrivals) + b.pending
      == Flat(a.arrivals) + a.pending + if step.PopLoadWrite? then s.published[s.seenWrite..step.seen] else []
  {
    assert (a.arrivals + [a.pending])[..|a.arrivals|] == a.arrivals;
  }

  lemma LoadedMoves(s: Ring, step: Step, from: nat)
    requires Inv(s) && InRange(s) && Enabled(s, step) && from <= s.seenWrite
    ensures var t := Next(s, step);
      && s.seenWrite <= t.seenWrite <= |t.published|
      && t.published[from..t.seenWrite]
         == s.published[from..s.seenWrite] + if step.PopLoadWrite? then s.published[s.seenWrite..step.seen] else []
  {
  }

  /** The blocks of the account are those published since `from`, as far as the consumer has loaded. */
  ghost predicate Arrived(a: Account, s: Ring, from: nat) {
    && from <= s.seenWrite <= |s.published|
    && Flat(a.arrivals) + a.pending == s.published[from..s.seenWrite]
  }

  lemma StillArrived(a: Account, s: Ring, step: Step, from: nat)
    requires Inv(s) && InRange(s) && Enabled(s, step) && Arrived(a, s, from)
    ensures Arrived(Recorded(a, s, step), Next(s, step), from)
  {
    RecordedArrivals(a, s, step);
    LoadedMoves(s, step, from);
  }

  /** What shows up is exactly what was published in the meantime, in order and as far as the reader has loaded. */
  lemma {:induction false} ArrivalsWerePublished(run: seq<Ring>, steps: seq<Step>, from: nat, to: nat)
    requires IsRun(run, steps) && from <= to <= |steps|
    ensures Arrived(AccountOf(run, steps, from, to), run[to], run[from].seenWrite)
  {
    if from == to {
      RunPrefixKeepsInv(run, steps, to);
    } else {
      ArrivalsWerePublished(run, steps, from, to - 1);
      RunPrefixKeepsInv(run, steps, to - 1);
      StillArrived(AccountOf(run, steps, from, to - 1), run[to - 1], steps[to - 1], run[from].seenWrite);
    }
  }
}
