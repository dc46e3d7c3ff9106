/** The bounded block queue as each side uses it, and the wet-timeline reader on top of it. */
module HushQueue {
  import opened ModArith
  import opened AudioBlocks

  const HUSH_QUEUE_CAPACITY: nat := 128

  /** What a reader asks for: only blocks of this generation, epoch and channel count are live. */
  datatype Key = Key(generation: nat, wetEpoch: nat, channels: nat)

  // The timeline a queue of blocks describes.  Positions are flat: frame * channels + channel.

  function First(b: AudioBlock): U64 {
    b.startFrame
  }

  function Last(b: AudioBlock): U64 {
    SaturatingAdd(b.startFrame, b.frames)
  }

  predicate Live(b: AudioBlock, key: Key) {
    && b.generation == key.generation
    && b.wetEpoch == key.wetEpoch
    && b.frames != 0
    && b.frames * b.channels <= |b.samples|
    && b.channels == key.channels
  }

  predicate CoversFrame(b: AudioBlock, key: Key, frame: nat) {
    Live(b, key) && First(b) <= frame < Last(b)
  }

  predicate Covers(b: AudioBlock, key: Key, p: nat) {
    Live(b, key) && First(b) * key.channels <= p < Last(b) * key.channels
  }

  function SampleAt(b: AudioBlock, key: Key, p: nat): Sample
    requires Covers(b, key, p)
  {
    SpanFits(b, key);
    b.samples[p - First(b) * key.channels]
  }

  /** The sample the queue holds for flat position `p`, or `default` where no live block covers it. */
  function WetOr(q: seq<AudioBlock>, key: Key, p: nat, default: Sample): Sample {
    if q == [] then default
    else if Covers(q[|q| - 1], key, p) then SampleAt(q[|q| - 1], key, p)
    else WetOr(q[..|q| - 1], key, p, default)
  }

  /** Live blocks are sorted and disjoint; stale blocks may sit anywhere between them. */
  ghost predicate Ordered(q: seq<AudioBlock>, key: Key) {
    forall i, j :: 0 <= i < j < |q| && Live(q[i], key) && Live(q[j], key) ==> Last(q[i]) <= First(q[j])
  }

  ghost predicate FrameCovered(q: seq<AudioBlock>, key: Key, frame: nat) {
    exists i :: 0 <= i < |q| && CoversFrame(q[i], key, frame)
  }

  ghost function CoveredFrames(q: seq<AudioBlock>, key: Key, start: nat, end: nat): set<nat> {
    set t: nat | start <= t < end && FrameCovered(q, key, t)
  }

  lemma SpanFits(b: AudioBlock, key: Key)
    requires Live(b, key)
    ensures Last(b) * key.channels - First(b) * key.channels <= |b.samples|
  {
    Stride(Last(b), First(b) + b.frames, key.channels);
    Stride(First(b), First(b) + b.frames, key.channels);
  }

  /** Flat coverage is frame coverage: sample `channel` of `frame` is covered iff the frame is. */
  lemma CoversIsCoversFrame(b: AudioBlock, key: Key, frame: nat, channel: nat)
    requires channel < key.channels
    ensures Covers(b, key, frame * key.channels + channel) <==> CoversFrame(b, key, frame)
  {
    var c := key.channels;
    if First(b) <= frame {
      Stride(First(b), frame, c);
    } else {
      Stride(frame + 1, First(b), c);
    }
    if frame < Last(b) {
      Stride(frame + 1, Last(b), c);
    } else {
      Stride(Last(b), frame, c);
    }
  }

  lemma {:induction false} UncoveredIsDefault(q: seq<AudioBlock>, key: Key, p: nat, default: Sample)
    requires forall i :: 0 <= i < |q| ==> !Covers(q[i], key, p)
    ensures WetOr(q, key, p, default) == default
  {
    if q == [] {
    } else {
      UncoveredIsDefault(q[..|q| - 1], key, p, default);
    }
  }

  /** Every wet sample comes from a live block that covers its position. */
  lemma {:induction false} WetHasSource(q: seq<AudioBlock>, key: Key, p: nat, default: Sample) returns (i: nat)
    requires exists j :: 0 <= j < |q| && Covers(q[j], key, p)
    ensures i < |q| && Covers(q[i], key, p)
    ensures WetOr(q, key, p, default) == SampleAt(q[i], key, p)
  {
    i := |q| - 1;
    if !Covers(q[i], key, p) {
      var j :| 0 <= j < |q| && Covers(q[j], key, p);
      assert Covers(q[..|q| - 1][j], key, p);
      i := WetHasSource(q[..|q| - 1], key, p, default);
    }
  }

  /** Blocks at the back that do not cover `p` do not matter for `p`. */
  lemma {:induction false} BackIrrelevant(q: seq<AudioBlock>, n: nat, key: Key, p: nat, default: Sample)
    requires n <= |q|
    requires forall i :: n <= i < |q| ==> !Covers(q[i], key, p)
    ensures WetOr(q, key, p, default) == WetOr(q[..n], key, p, default)
  {
    if n == |q| {
      assert q[..n] == q;
    } else {
      BackIrrelevant(q[..|q| - 1], n, key, p, default);
      assert q[..|q| - 1][..n] == q[..n];
    }
  }

  /** Blocks at the front that do not cover `p` do not matter for `p`. */
  lemma {:induction false} FrontIrrelevant(q: seq<AudioBlock>, n: nat, key: Key, p: nat, default: Sample)
    requires n <= |q|
    requires forall i :: 0 <= i < n ==> !Covers(q[i], key, p)
    ensures WetOr(q, key, p, default) == WetOr(q[n..], key, p, default)
  {
    if n == |q| {
      UncoveredIsDefault(q, key, p, default);
    } else {
      FrontIrrelevant(q[..|q| - 1], n, key, p, default);
      assert q[..|q| - 1][n..] == q[n..][..|q| - n - 1];
    }
  }

  /** In an ordered queue the block that covers `p` decides it, wherever it sits. */
  lemma {:induction false} CoveringBlockDecides(q: seq<AudioBlock>, i: nat, key: Key, p: nat, default: Sample)
    requires Ordered(q, key) && i < |q| && Covers(q[i], key, p)
    ensures WetOr(q, key, p, default) == SampleAt(q[i], key, p)
    ensures forall j :: 0 <= j < |q| && j != i ==> !Covers(q[j], key, p)
  {
    forall j | 0 <= j < |q| && j != i
      ensures !Covers(q[j], key, p)
    {
      if Live(q[j], key) {
        if i < j {
          Stride(Last(q[i]), First(q[j]), key.channels);
        } else {
          Stride(Last(q[j]), First(q[i]), key.channels);
        }
      }
    }
    BackIrrelevant(q, i + 1, key, p, default);
    assert q[..i + 1][..i] == q[..i];
  }

  ghost function Interval(start: nat, end: nat): (s: set<nat>)
    requires start <= end
    ensures forall t :: t in s <==> start <= t < end
    ensures |s| == end - start
  {
    if start == end then {} else Interval(start, end - 1) + {end - 1}
  }

  /** One more block adds exactly the frames it covers itself. */
  lemma CoveredByOneMore(q: seq<AudioBlock>, n: nat, key: Key, start: nat, end: nat, t: nat)
    requires n < |q| && start <= end
    ensures t in CoveredFrames(q[..n + 1], key, start, end)
        <==> t in CoveredFrames(q[..n], key, start, end) || (start <= t < end && CoversFrame(q[n], key, t))
  {
    var before, after := q[..n], q[..n + 1];
    if t in CoveredFrames(before, key, start, end) {
      var i :| 0 <= i < n && CoversFrame(before[i], key, t);
      assert CoversFrame(after[i], key, t);
    }
    if t in CoveredFrames(after, key, start, end) {
      var i :| 0 <= i < n + 1 && CoversFrame(after[i], key, t);
      assert i < n ==> CoversFrame(before[i], key, t);
    }
    if start <= t < end && CoversFrame(q[n], key, t) {
      assert CoversFrame(after[n], key, t);
    }
  }

  /** Behind ordered live blocks, another one covers exactly the part of the request it overlaps. */
  lemma OverlapAdds(q: seq<AudioBlock>, n: nat, key: Key, start: nat, end: nat)
    requires n < |q| && Ordered(q[..n + 1], key) && Live(q[n], key)
    requires First(q[n]) < end && start < Last(q[n]) && start <= end
    ensures |CoveredFrames(q[..n + 1], key, start, end)|
         == |CoveredFrames(q[..n], key, start, end)| + Min(Last(q[n]), end) - Max(First(q[n]), start)
  {
    var from, to := Max(First(q[n]), start), Min(Last(q[n]), end);
    var added := Interval(from, to);
    var before, after := CoveredFrames(q[..n], key, start, end), CoveredFrames(q[..n + 1], key, start, end);
    forall t: nat
      ensures t in after <==> t in before || t in added
      ensures !(t in before && t in added)
    {
      CoveredByOneMore(q, n, key, start, end, t);
      if t in before {
        var i :| 0 <= i < n && CoversFrame(q[..n][i], key, t);
        assert q[..n + 1][i] == q[i] && q[..n + 1][n] == q[n];
      }
    }
    assert after == before + added;
    assert before !! added;
  }

  lemma StaleAddsNothing(q: seq<AudioBlock>, n: nat, m: nat, key: Key, start: nat, end: nat)
    requires n <= m <= |q|
    requires forall i :: n <= i < m ==> forall t :: start <= t < end ==> !CoversFrame(q[i], key, t)
    ensures CoveredFrames(q[..m], key, start, end) == CoveredFrames(q[..n], key, start, end)
  {
    forall t | start <= t < end
      ensures FrameCovered(q[..m], key, t) <==> FrameCovered(q[..n], key, t)
    {
      if FrameCovered(q[..m], key, t) {
        var i :| 0 <= i < m && CoversFrame(q[..m][i], key, t);
        assert CoversFrame(q[..n][i], key, t);
      }
      if FrameCovered(q[..n], key, t) {
        var i :| 0 <= i < n && CoversFrame(q[..n][i], key, t);
        assert CoversFrame(q[..m][i], key, t);
      }
    }
  }

  /**
  `after` is `before` with every covered position of `[start, end)` replaced by its wet sample.
  The request's first sample is destination index `base`; nothing else changes.
  */
  ghost predicate Overlaid(before: seq<Sample>, after: seq<Sample>, base: nat,
                           q: seq<AudioBlock>, key: Key, start: nat, end: nat)
    requires start <= end
  {
    && |after| == |before|
    && forall k :: 0 <= k < |before| ==>
         after[k] == if base <= k < base + (end - start) * key.channels
                     then WetOr(q, key, start * key.channels + (k - base), before[k])
                     else before[k]
  }

  /** Everything dropped from the front was stale or lies wholly before `end`. */
  ghost predicate KeepsWhatIsStillNeeded(q: seq<AudioBlock>, rest: seq<AudioBlock>, key: Key, end: nat) {
    && |rest| <= |q|
    && rest == q[|q| - |rest|..]
    && forall i :: 0 <= i < |q| - |rest| ==> !Live(q[i], key) || Last(q[i]) <= end
  }

  /** What one read of `[start, end)` does to the destination and to an ordered queue. */
  ghost predicate TimelineRead(q: seq<AudioBlock>, rest: seq<AudioBlock>, key: Key, start: nat, end: nat,
                               before: seq<Sample>, after: seq<Sample>, base: nat, copied: nat)
  {
    var timelineRead :=
      && start <= end
      && Overlaid(before, after, base, q, key, start, end)
      && copied == |CoveredFrames(q, key, start, end)|
      && KeepsWhatIsStillNeeded(q, rest, key, end);
    timelineRead
  }

  /**
  What a read does to any queue, ordered or not: it lays the first `n` blocks over the destination,
  later ones over earlier ones, and counts nothing only if it changes nothing.
  */
  ghost predicate PartlyRead(q: seq<AudioBlock>, n: nat, rest: seq<AudioBlock>, key: Key, start: nat, end: nat,
                             before: seq<Sample>, after: seq<Sample>, base: nat, copied: nat)
  {
    var partlyRead :=
      && start <= end && n <= |q|
      && Overlaid(before, after, base, q[..n], key, start, end)
      && (copied == 0 ==> after == before)
      && KeepsWhatIsStillNeeded(q, rest, key, end);
    partlyRead
  }

  /**
  How a read interleaves with the worker: `seen` counts as published before it, of which the first
  `looked` blocks were looked at and `rest` is left; `later` was published after it.
  */
  datatype Reading = Reading(seen: seq<AudioBlock>, looked: nat, rest: seq<AudioBlock>, later: seq<AudioBlock>)

  ghost predicate IsReading(r: Reading, key: Key, start: nat, end: nat, before: seq<Sample>, after: seq<Sample>,
                            base: nat, copied: nat)
  {
    var isReading :=
      && PartlyRead(r.seen, r.looked, r.rest, key, start, end, before, after, base, copied)
      && (Ordered(r.seen, key) ==> TimelineRead(r.seen, r.rest, key, start, end, before, after, base, copied));
    isReading
  }

  /** Dropping what lies before `end` leaves every later position as it was. */
  lemma LaterPositionsSurvive(q: seq<AudioBlock>, rest: seq<AudioBlock>, key: Key, end: nat, p: nat, default: Sample)
    requires KeepsWhatIsStillNeeded(q, rest, key, end)
    requires end * key.channels <= p
    ensures WetOr(rest, key, p, default) == WetOr(q, key, p, default)
  {
    var n := |q| - |rest|;
    forall i | 0 <= i < n
      ensures !Covers(q[i], key, p)
    {
      if Live(q[i], key) {
        Stride(Last(q[i]), end, key.channels);
      }
    }
    FrontIrrelevant(q, n, key, p, default);
  }

  lemma LaterFramesSurvive(q: seq<AudioBlock>, rest: seq<AudioBlock>, key: Key, mid: nat, end: nat)
    requires KeepsWhatIsStillNeeded(q, rest, key, mid)
    ensures CoveredFrames(rest, key, mid, end) == CoveredFrames(q, key, mid, end)
  {
    var n := |q| - |rest|;
    forall t | mid <= t < end
      ensures FrameCovered(rest, key, t) <==> FrameCovered(q, key, t)
    {
      if FrameCovered(rest, key, t) {
        var i :| 0 <= i < |rest| && CoversFrame(rest[i], key, t);
        assert q[n + i] == rest[i];
      }
      if FrameCovered(q, key, t) {
        var i :| 0 <= i < |q| && CoversFrame(q[i], key, t);
        assert rest[i - n] == q[i];
      }
    }
  }

  lemma CoveredSplits(q: seq<AudioBlock>, key: Key, start: nat, mid: nat, end: nat)
    requires start <= mid <= end
    ensures |CoveredFrames(q, key, start, end)|
         == |CoveredFrames(q, key, start, mid)| + |CoveredFrames(q, key, mid, end)|
  {
    var a, b := CoveredFrames(q, key, start, mid), CoveredFrames(q, key, mid, end);
    assert CoveredFrames(q, key, start, end) == a + b;
    assert a * b == {};
  }

  lemma SplitOverlay(q: seq<AudioBlock>, rest: seq<AudioBlock>, key: Key, start: nat, mid: nat, end: nat, base: nat,
                     before: seq<Sample>, between: seq<Sample>, last: seq<Sample>, after: seq<Sample>)
    requires start <= mid <= end
    requires KeepsWhatIsStillNeeded(q, rest, key, mid)
    requires Overlaid(before, between, base, q, key, start, mid)
    requires Overlaid(between, last, base + (mid - start) * key.channels, rest, key, mid, end)
    requires Overlaid(before, after, base, q, key, start, end)
    ensures after == last
  {
    var c := key.channels;
    Stride(start, mid, c);
    Stride(mid, end, c);
    Stride(start, end, c);
    forall k | 0 <= k < |after|
      ensures after[k] == last[k]
    {
      var p := start * c + (k - base);
      if base + (mid - start) * c <= k < base + (end - start) * c {
        LaterPositionsSurvive(q, rest, key, mid, p, before[k]);
      }
    }
  }

  lemma KeepsTwice(q: seq<AudioBlock>, rest1: seq<AudioBlock>, rest2: seq<AudioBlock>, key: Key, mid: nat, end: nat)
    requires mid <= end
    requires KeepsWhatIsStillNeeded(q, rest1, key, mid)
    requires KeepsWhatIsStillNeeded(rest1, rest2, key, end)
    ensures KeepsWhatIsStillNeeded(q, rest2, key, end)
  {
    var n1 := |q| - |rest1|;
    forall i | 0 <= i < |q| - |rest2|
      ensures !Live(q[i], key) || Last(q[i]) <= end
    {
      if i >= n1 {
        assert rest1[i - n1] == q[i];
      }
    }
  }

  /**
  Reading `[start, mid)` and then `[mid, end)` from what is left fills the destination exactly as
  one read of `[start, end)` does, and counts the same frames.
  */
  lemma SplitReadIsOneRead(q: seq<AudioBlock>, rest1: seq<AudioBlock>, rest2: seq<AudioBlock>, rest: seq<AudioBlock>,
                           key: Key, start: nat, mid: nat, end: nat, base: nat,
                           before: seq<Sample>, between: seq<Sample>, last: seq<Sample>, after: seq<Sample>,
                           copied1: nat, copied2: nat, copied: nat)
    requires TimelineRead(q, rest1, key, start, mid, before, between, base, copied1)
    requires TimelineRead(rest1, rest2, key, mid, end, between, last, base + (mid - start) * key.channels, copied2)
    requires TimelineRead(q, rest, key, start, end, before, after, base, copied)
    ensures after == last
    ensures copied == copied1 + copied2
    ensures KeepsWhatIsStillNeeded(q, rest2, key, end)
  {
    SplitOverlay(q, rest1, key, start, mid, end, base, before, between, last, after);
    CoveredSplits(q, key, start, mid, end);
    LaterFramesSurvive(q, rest1, key, mid, end);
    KeepsTwice(q, rest1, rest2, key, mid, end);
  }

  /** The unread blocks sit in consecutive slots, starting at the front. */
  ghost predicate Stored(slots: seq<AudioBlock>, popped: nat, contents: seq<AudioBlock>)
    requires |slots| > 0
  {
    forall i :: 0 <= i < |contents| ==> slots[(popped + i) % |slots|] == contents[i]
  }

  lemma Distance(popped: nat, length: nat, capacity: nat)
    requires IsCapacity(capacity) && length <= capacity
    ensures 0 < capacity < WORD
    ensures WrappingSub((popped + length) % WORD, popped % WORD) == length
    ensures (popped + length) % WORD == popped % WORD <==> length == 0
    ensures popped % WORD % capacity == popped % capacity
    ensures (popped + length) % WORD % capacity == (popped + length) % capacity
  {
    SlotOfWrapped(popped, capacity);
    SlotOfWrapped(popped + length, capacity);
    WrappedDistance(popped + length, popped);
  }

  /** Filling the next free slot appends to what is stored. */
  lemma StoreAppends(slots: seq<AudioBlock>, popped: nat, contents: seq<AudioBlock>, item: AudioBlock)
    requires |contents| < |slots| && Stored(slots, popped, contents)
    ensures Stored(slots[(popped + |contents|) % |slots| := item], popped, contents + [item])
  {
    var next := (popped + |contents|) % |slots|;
    forall i | 0 <= i < |contents|
      ensures slots[next := item][(popped + i) % |slots|] == contents[i]
    {
      SlotsDiffer(popped + i, popped + |contents|, |slots|);
    }
  }

  lemma StoredTail(slots: seq<AudioBlock>, popped: nat, contents: seq<AudioBlock>)
    requires |slots| > 0 && contents != [] && Stored(slots, popped, contents)
    ensures slots[popped % |slots|] == contents[0]
    ensures Stored(slots, popped + 1, contents[1..])
  {
    assert slots[(popped + 0) % |slots|] == contents[0];
    forall i | 0 <= i < |contents| - 1
      ensures slots[(popped + 1 + i) % |slots|] == contents[1..][i]
    {
      assert slots[(popped + (i + 1)) % |slots|] == contents[i + 1];
    }
  }

  /** The ring as one thread sees it between its own calls. */
  class BlockQueue {
    const capacity: nat
    const maxSamples: nat
    const slots: array<AudioBlock>
    var write: nat
    var read: nat

    /** The unread blocks, oldest first, and how many blocks have been popped so far. */
    ghost var Contents: seq<AudioBlock>
    ghost var popped: nat

    ghost predicate Valid()
      reads this, slots
    {
      && IsCapacity(capacity)
      && 0 < slots.Length == capacity
      && |Contents| <= capacity
      && read == popped % WORD
      && write == (popped + |Contents|) % WORD
      && Stored(slots[..], popped, Contents)
      && (forall i :: 0 <= i < capacity ==> |slots[i].samples| == maxSamples)
    }

    constructor (capacity: nat, maxSamples: nat)
      requires IsCapacity(capacity)
      ensures Valid() && Contents == [] && fresh(slots)
      ensures this.capacity == capacity && this.maxSamples == maxSamples
    {
      CapacityDividesWord(capacity);
      this.capacity := capacity;
      this.maxSamples := maxSamples;
      slots := new AudioBlock[capacity](_ => EmptyBlock(maxSamples));
      write, read := 0, 0;
      Contents, popped := [], 0;
    }

    /** Publish one block unless it is too large or the ring is full. */
    method TryPushWith(generation: nat, wetEpoch: nat, startFrame: U64, frames: nat, channels: nat,
                       channelMask: nat, fill: seq<Sample> -> seq<Sample>) returns (pushed: bool)
      requires Valid()
      requires forall s :: |fill(s)| == |s|
      modifies this, slots
      ensures Valid()
      ensures pushed <==> frames * channels <= maxSamples && |old(Contents)| < capacity
      ensures !pushed ==> Contents == old(Contents)
      ensures pushed ==>
        && |Contents| == |old(Contents)| + 1
        && Contents[..|old(Contents)|] == old(Contents)
        && var block := Contents[|old(Contents)|];
           && block == AudioBlock(generation, wetEpoch, startFrame, frames, channels, channelMask, block.samples)
           && exists previous :: |previous| == maxSamples && block.samples == fill(previous)
    {
      if frames * channels > maxSamples {
        return false;
      }
      Distance(popped, |Contents|, capacity);
      if WrappingSub(write, read) >= capacity {
        return false;
      }
      var slot := write % capacity;
      var previous := slots[slot].samples;
      ghost var stored := slots[..];
      slots[slot] := AudioBlock(generation, wetEpoch, startFrame, frames, channels, channelMask, fill(previous));
      StoreAppends(stored, popped, Contents, slots[slot]);
      assert slots[..] == stored[slot := slots[slot]];
      NextCount(popped + |Contents|);
      Contents := Contents + [slots[slot]];
      write := WrappingAdd(write, 1);
      pushed := true;
    }

    method PeekWith() returns (found: bool, block: AudioBlock)
      requires Valid()
      ensures found <==> Contents != []
      ensures found ==> block == Contents[0]
    {
      Distance(popped, |Contents|, capacity);
      if read == write {
        return false, EmptyBlock(0);
      }
      StoredTail(slots[..], popped, Contents);
      return true, slots[read % capacity];
    }

    method PopWith() returns (found: bool, block: AudioBlock)
      requires Valid()
      modifies this
      ensures Valid()
      ensures found <==> old(Contents) != []
      ensures found ==> block == old(Contents)[0] && Contents == old(Contents)[1..]
      ensures !found ==> Contents == old(Contents)
    {
      Distance(popped, |Contents|, capacity);
      if read == write {
        return false, EmptyBlock(0);
      }
      block := slots[read % capacity];
      StoredTail(slots[..], popped, Contents);
      NextCount(popped);
      Contents := Contents[1..];
      popped := popped + 1;
      read := WrappingAdd(read, 1);
      found := true;
    }
  }

  /** Why a block is discarded without being read. */
  predicate Dropped(b: AudioBlock, key: Key, start: nat) {
    !Live(b, key) || Last(b) <= start
  }

  /** Destination contents after the overlap of one live block has been copied. */
  ghost predicate CopiedFrom(b: AudioBlock, key: Key, start: nat, end: nat, base: nat,
                             before: seq<Sample>, after: seq<Sample>)
    requires start <= end
  {
    && |after| == |before|
    && forall k :: 0 <= k < |before| ==>
         after[k] == if base <= k < base + (end - start) * key.channels
                        && Covers(b, key, start * key.channels + (k - base))
                     then SampleAt(b, key, start * key.channels + (k - base))
                     else before[k]
  }

  /** Where the overlap starts in the block and in the request, and how many samples it has. */
  method SliceOffsets(b: AudioBlock, key: Key, start: nat, end: nat) returns (src: nat, dst: nat, len: nat)
    requires Live(b, key) && First(b) < end && start < Last(b) && start <= end
    ensures var first, last, lo, hi := First(b) * key.channels, Last(b) * key.channels,
                                       start * key.channels, end * key.channels;
      && src == Max(first, lo) - first && dst == Max(first, lo) - lo && len == Min(last, hi) - Max(first, lo)
      && last - first <= |b.samples|
      && hi - lo == (end - start) * key.channels
  {
    var from, to := Max(First(b), start), Min(Last(b), end);
    OffsetsFit(b, key, start, end, from, to, key.channels);
    src := (from - First(b)) * key.channels;
    dst := (from - start) * key.channels;
    len := (to - from) * key.channels;
  }

  /** Copy the part of one live block that overlaps the request; the result is its number of frames. */
  method CopyOverlap(b: AudioBlock, key: Key, start: nat, end: nat, destination: array<Sample>, base: nat)
    returns (frames: nat)
    requires Live(b, key) && First(b) < end && start < Last(b) && start <= end
    requires base + (end - start) * key.channels <= destination.Length
    modifies destination
    ensures frames == Min(Last(b), end) - Max(First(b), start)
    ensures CopiedFrom(b, key, start, end, base, old(destination[..]), destination[..])
  {
    var src, dst, len := SliceOffsets(b, key, start, end);
    ghost var before := destination[..];
    CopySlice(b.samples, src, destination, base + dst, len);
    CopiedRange(b, key, start, end, base, before, destination[..],
                First(b) * key.channels, Last(b) * key.channels, start * key.channels, end * key.channels,
                src, dst, len);
    frames := Min(Last(b), end) - Max(First(b), start);
  }

  /** The three slice offsets, in flat positions. */
  lemma OffsetsFit(b: AudioBlock, key: Key, start: nat, end: nat, from: nat, to: nat, c: nat)
    requires Live(b, key) && First(b) < end && start < Last(b) && start <= end
    requires from == Max(First(b), start) && to == Min(Last(b), end) && c == key.channels
    ensures (to - from) * c == Min(Last(b) * c, end * c) - Max(First(b) * c, start * c) >= 0
    ensures (from - First(b)) * c == Max(First(b) * c, start * c) - First(b) * c >= 0
    ensures (from - start) * c == Max(First(b) * c, start * c) - start * c >= 0
    ensures (end - start) * c == end * c - start * c >= 0
    ensures Last(b) * c - First(b) * c <= |b.samples|
  {
    Stride(from, to, c);
    Stride(First(b), from, c);
    Stride(start, from, c);
    Stride(to, Last(b), c);
    Stride(to, end, c);
    Stride(start, end, c);
    SpanFits(b, key);
  }

  /** `first`, `last`, `lo` and `hi` are the block's and the request's bounds in flat positions. */
  lemma CopiedRange(b: AudioBlock, key: Key, start: nat, end: nat, base: nat, before: seq<Sample>, after: seq<Sample>,
                    first: int, last: int, lo: int, hi: int, src: nat, dst: nat, len: nat)
    requires Live(b, key) && start <= end
    requires first == First(b) * key.channels && last == Last(b) * key.channels
    requires lo == start * key.channels && hi == end * key.channels && hi - lo == (end - start) * key.channels
    requires last - first <= |b.samples| && base + (hi - lo) <= |before|
    requires src == Max(first, lo) - first && dst == Max(first, lo) - lo && len == Min(last, hi) - Max(first, lo)
    requires after == before[..base + dst] + b.samples[src..src + len] + before[base + dst + len..]
    ensures CopiedFrom(b, key, start, end, base, before, after)
  {
  }

  /** The first `n` blocks have been dealt with. */
  ghost predicate ReadSoFar(q: seq<AudioBlock>, n: nat, key: Key, start: nat, end: nat,
                            before: seq<Sample>, now: seq<Sample>, base: nat, copied: nat)
  {
    var readSoFar :=
      && n <= |q| && start <= end
      && Overlaid(before, now, base, q[..n], key, start, end)
      && (Ordered(q[..n], key) ==> copied == |CoveredFrames(q[..n], key, start, end)|)
      && (copied == 0 ==> now == before)
      && forall i :: 0 <= i < n ==> !Live(q[i], key) || Last(q[i]) <= end;
    readSoFar
  }

  lemma OrderedPrefix(q: seq<AudioBlock>, n: nat, m: nat, key: Key)
    requires n <= m <= |q| && Ordered(q[..m], key)
    ensures Ordered(q[..n], key)
  {
    assert forall i :: 0 <= i < n ==> q[..n][i] == q[..m][i];
  }

  /** Blocks published in the meantime do not change what has been read. */
  lemma ReadSoFarGrows(q: seq<AudioBlock>, more: seq<AudioBlock>, n: nat, key: Key, start: nat, end: nat,
                       before: seq<Sample>, now: seq<Sample>, base: nat, copied: nat)
    requires ReadSoFar(q, n, key, start, end, before, now, base, copied)
    ensures ReadSoFar(q + more, n, key, start, end, before, now, base, copied)
    ensures (q + more)[n..] == q[n..] + more
  {
    assert (q + more)[..n] == q[..n];
  }

  lemma StaleStep(q: seq<AudioBlock>, n: nat, key: Key, start: nat, end: nat,
                  before: seq<Sample>, now: seq<Sample>, base: nat, copied: nat)
    requires n < |q| && Dropped(q[n], key, start)
    requires ReadSoFar(q, n, key, start, end, before, now, base, copied)
    ensures ReadSoFar(q, n + 1, key, start, end, before, now, base, copied)
  {
    StaleAddsNothing(q, n, n + 1, key, start, end);
    if Ordered(q[..n + 1], key) {
      OrderedPrefix(q, n, n + 1, key);
    }
    assert q[..n + 1][..n] == q[..n];
    if Live(q[n], key) {
      Stride(Last(q[n]), start, key.channels);
    }
  }

  /** Copying the overlap of block `n` extends the overlay by that block. */
  lemma CopyStep(q: seq<AudioBlock>, n: nat, key: Key, start: nat, end: nat,
                 before: seq<Sample>, current: seq<Sample>, now: seq<Sample>, base: nat)
    requires n < |q| && start <= end
    requires Overlaid(before, current, base, q[..n], key, start, end)
    requires CopiedFrom(q[n], key, start, end, base, current, now)
    ensures Overlaid(before, now, base, q[..n + 1], key, start, end)
  {
    assert q[..n + 1][..n] == q[..n];
  }

  lemma FinishedStep(q: seq<AudioBlock>, n: nat, key: Key, start: nat, end: nat,
                     before: seq<Sample>, current: seq<Sample>, now: seq<Sample>, base: nat, copied: nat)
    requires n < |q| && Live(q[n], key)
    requires First(q[n]) < end && start < Last(q[n]) <= end
    requires ReadSoFar(q, n, key, start, end, before, current, base, copied)
    requires CopiedFrom(q[n], key, start, end, base, current, now)
    ensures ReadSoFar(q, n + 1, key, start, end, before, now, base,
                      copied + Min(Last(q[n]), end) - Max(First(q[n]), start))
  {
    CopyStep(q, n, key, start, end, before, current, now, base);
    if Ordered(q[..n + 1], key) {
      OrderedPrefix(q, n, n + 1, key);
      OverlapAdds(q, n, key, start, end);
    }
  }

  lemma AfterLastNothing(q: seq<AudioBlock>, n: nat, key: Key, end: nat)
    requires n < |q| && Ordered(q, key) && Live(q[n], key) && Last(q[n]) >= end
    ensures forall i, t: nat :: n < i < |q| && t < end ==> !CoversFrame(q[i], key, t)
    ensures forall i, p: nat :: n < i < |q| && p < end * key.channels ==> !Covers(q[i], key, p)
  {
    forall i, p: nat | n < i < |q| && p < end * key.channels
      ensures !Covers(q[i], key, p)
    {
      if Live(q[i], key) {
        Stride(end, First(q[i]), key.channels);
      }
    }
  }

  lemma OverlaidExtends(q: seq<AudioBlock>, n: nat, key: Key, start: nat, end: nat,
                        before: seq<Sample>, now: seq<Sample>, base: nat)
    requires n <= |q| && start <= end
    requires Overlaid(before, now, base, q[..n], key, start, end)
    requires forall i, p: nat :: n <= i < |q| && p < end * key.channels ==> !Covers(q[i], key, p)
    ensures Overlaid(before, now, base, q, key, start, end)
  {
    Stride(start, end, key.channels);
    forall k | 0 <= k < |before| && base <= k < base + (end - start) * key.channels
      ensures now[k] == WetOr(q, key, start * key.channels + (k - base), before[k])
    {
      BackIrrelevant(q, n, key, start * key.channels + (k - base), before[k]);
    }
  }

  /** In an ordered queue the blocks behind an unfinished one start after the request. */
  lemma StopAfterOrdered(q: seq<AudioBlock>, n: nat, key: Key, start: nat, end: nat,
                         before: seq<Sample>, now: seq<Sample>, base: nat, copied: nat)
    requires n < |q| && Live(q[n], key) && Ordered(q, key) && start <= end
    requires First(q[n]) < end && start < Last(q[n]) && end < Last(q[n])
    requires copied == |CoveredFrames(q[..n], key, start, end)|
    requires Overlaid(before, now, base, q[..n + 1], key, start, end) && KeepsWhatIsStillNeeded(q, q[n..], key, end)
    ensures TimelineRead(q, q[n..], key, start, end, before, now, base,
                         copied + Min(Last(q[n]), end) - Max(First(q[n]), start))
  {
    WholeOrdered(q, n, key);
    OverlapAdds(q, n, key, start, end);
    AfterLastNothing(q, n, key, end);
    OverlaidExtends(q, n + 1, key, start, end, before, now, base);
    StaleAddsNothing(q, n + 1, |q|, key, start, end);
    assert q[..|q|] == q;
  }

  lemma StoppedKeeps(q: seq<AudioBlock>, n: nat, rest: seq<AudioBlock>, key: Key, start: nat, end: nat,
                     before: seq<Sample>, now: seq<Sample>, base: nat, copied: nat)
    requires ReadSoFar(q, n, key, start, end, before, now, base, copied) && rest == q[n..]
    ensures KeepsWhatIsStillNeeded(q, rest, key, end)
  {
  }

  /** A request of no frames takes nothing even from a block it lies in. */
  lemma NothingToCopy(b: AudioBlock, key: Key, start: nat, end: nat, base: nat, before: seq<Sample>, after: seq<Sample>)
    requires start == end && CopiedFrom(b, key, start, end, base, before, after)
    ensures after == before
  {
    assert (end - start) * key.channels == 0;
  }

  /** Stopping on an unfinished block. */
  lemma StopAfter(q: seq<AudioBlock>, n: nat, rest: seq<AudioBlock>, key: Key, start: nat, end: nat,
                  before: seq<Sample>, current: seq<Sample>, now: seq<Sample>, base: nat, copied: nat, total: nat)
    requires n < |q| && Live(q[n], key) && rest == q[n..]
    requires First(q[n]) < end && start < Last(q[n]) && end < Last(q[n])
    requires ReadSoFar(q, n, key, start, end, before, current, base, copied)
    requires CopiedFrom(q[n], key, start, end, base, current, now)
    requires total == copied + Min(Last(q[n]), end) - Max(First(q[n]), start)
    ensures IsReading(Reading(q, n + 1, rest, []), key, start, end, before, now, base, total)
  {
    CopyStep(q, n, key, start, end, before, current, now, base);
    StoppedKeeps(q, n, rest, key, start, end, before, current, base, copied);
    if total == 0 {
      NothingToCopy(q[n], key, start, end, base, current, now);
    }
    if Ordered(q, key) {
      WholeOrdered(q, n, key);
      StopAfterOrdered(q, n, key, start, end, before, now, base, copied);
    }
  }

  lemma WholeOrdered(q: seq<AudioBlock>, n: nat, key: Key)
    requires Ordered(q, key) && n < |q|
    ensures Ordered(q[..n], key) && Ordered(q[..n + 1], key)
  {
    assert q[..|q|] == q;
    OrderedPrefix(q, n, |q|, key);
    OrderedPrefix(q, n + 1, |q|, key);
  }

  /** Stopping at the end of the queue or on a block that starts after the request. */
  lemma StopBefore(r: Reading, n: nat, key: Key, start: nat, end: nat,
                   before: seq<Sample>, now: seq<Sample>, base: nat, copied: nat)
    requires ReadSoFar(r.seen, n, key, start, end, before, now, base, copied)
    requires r.looked == n && r.rest == r.seen[n..]
    requires n < |r.seen| ==> Live(r.seen[n], key) && First(r.seen[n]) >= end
    ensures IsReading(r, key, start, end, before, now, base, copied)
  {
    var q := r.seen;
    if Ordered(q, key) {
      if n < |q| {
        WholeOrdered(q, n, key);
        Stride(end, First(q[n]), key.channels);
        AfterLastNothing(q, n, key, end);
      }
      assert q[..|q|] == q;
      OverlaidExtends(q, n, key, start, end, before, now, base);
      StaleAddsNothing(q, n, |q|, key, start, end);
    }
  }

  /** One iteration of the reader, on the block at the front; `done` is a `break`. */
  method ReadFront(queue: BlockQueue, key: Key, start: nat, end: nat, destination: array<Sample>, base: nat,
                   copied: nat, ghost q: seq<AudioBlock>, ghost n: nat, ghost before: seq<Sample>)
    returns (done: bool, total: nat, ghost reading: Reading)
    requires queue.Valid()
    requires ReadSoFar(q, n, key, start, end, before, destination[..], base, copied)
    requires queue.Contents == q[n..]
    requires base + (end - start) * key.channels <= destination.Length
    modifies queue, destination
    ensures queue.Valid()
    ensures !done ==> n < |q| && ReadSoFar(q, n + 1, key, start, end, before, destination[..], base, total)
    ensures !done ==> queue.Contents == q[n + 1..]
    ensures done ==> reading.seen == q && reading.later == [] && queue.Contents == reading.rest + reading.later
    ensures done ==> IsReading(reading, key, start, end, before, destination[..], base, total)
  {
    reading := Reading(q, n, q[n..], []);
    var found, b := queue.PeekWith();
    if !found {
      StopBefore(reading, n, key, start, end, before, destination[..], base, copied);
      return true, copied, reading;
    }
    if Dropped(b, key, start) {
      StaleStep(q, n, key, start, end, before, destination[..], base, copied);
      var _, _ := queue.PopWith();
      return false, copied, reading;
    }
    if First(b) >= end {
      StopBefore(reading, n, key, start, end, before, destination[..], base, copied);
      return true, copied, reading;
    }
    ghost var current := destination[..];
    var overlap := CopyOverlap(b, key, start, end, destination, base);
    total := copied + overlap;
    if Last(b) <= end {
      FinishedStep(q, n, key, start, end, before, current, destination[..], base, copied);
      var _, _ := queue.PopWith();
      done := false;
    } else {
      StopAfter(q, n, queue.Contents, key, start, end, before, current, destination[..], base, copied, total);
      reading := Reading(q, n + 1, queue.Contents, []);
      done := true;
    }
  }

  /** Blocks fill whole slots of the ring, whatever part of it they use. */
  ghost predicate SlotSized(arrivals: seq<seq<AudioBlock>>, maxSamples: nat) {
    forall i, b :: 0 <= i < |arrivals| && b in arrivals[i] ==> |b.samples| == maxSamples
  }

  /** What the worker publishes between two turns of the reader; what does not fit is lost. */
  method Publish(queue: BlockQueue, blocks: seq<AudioBlock>) returns (ghost published: seq<AudioBlock>)
    requires queue.Valid() && forall b :: b in blocks ==> |b.samples| == queue.maxSamples
    modifies queue, queue.slots
    ensures queue.Valid() && queue.Contents == old(queue.Contents) + published
    ensures |published| <= |blocks| && forall b :: b in published ==> b in blocks
  {
    published := [];
    for i := 0 to |blocks|
      invariant queue.Valid() && queue.Contents == old(queue.Contents) + published
      invariant |published| <= i && forall b :: b in published ==> b in blocks
    {
      var block := blocks[i];
      var fill := (samples: seq<Sample>) => if |samples| == |block.samples| then block.samples else samples;
      ghost var before := queue.Contents;
      var pushed := queue.TryPushWith(block.generation, block.wetEpoch, block.startFrame, block.frames, block.channels,
                                      block.channelMask, fill);
      if pushed {
        assert queue.Contents == before + [block];
        published := published + [block];
      }
    }
  }

  /** After `n` turns the reader has dealt with the first `n` blocks of `q`, which grew out of `first`. */
  ghost predicate TurnsDone(first: seq<AudioBlock>, q: seq<AudioBlock>, n: nat, left: seq<AudioBlock>, quiet: bool,
                            key: Key, start: nat, end: nat, before: seq<Sample>, now: seq<Sample>, base: nat, copied: nat)
  {
    var turnsDone :=
      && ReadSoFar(q, n, key, start, end, before, now, base, copied)
      && left == q[n..]
      && first <= q && (quiet ==> q == first);
    turnsDone
  }

  /** How a read ended: what it saw grew out of `first`, and the queue holds the rest and what came later. */
  ghost predicate TurnsEnded(first: seq<AudioBlock>, left: seq<AudioBlock>, quiet: bool, reading: Reading,
                             key: Key, start: nat, end: nat, before: seq<Sample>, now: seq<Sample>, base: nat, copied: nat)
  {
    var turnsEnded :=
      && first <= reading.seen && left == reading.rest + reading.later
      && (quiet ==> reading.seen == first && reading.later == [])
      && IsReading(reading, key, start, end, before, now, base, copied);
    turnsEnded
  }

  /** Wait for what the worker publishes next, then look at the front. */
  method ReadTurn(queue: BlockQueue, key: Key, start: nat, end: nat, destination: array<Sample>, base: nat,
                  copied: nat, arrivals: seq<AudioBlock>, ghost first: seq<AudioBlock>, ghost q: seq<AudioBlock>,
                  ghost n: nat, ghost quiet: bool, ghost before: seq<Sample>)
    returns (done: bool, total: nat, ghost seen: seq<AudioBlock>, ghost reading: Reading)
    requires queue.Valid() && forall b :: b in arrivals ==> |b.samples| == queue.maxSamples
    requires TurnsDone(first, q, n, queue.Contents, quiet, key, start, end, before, destination[..], base, copied)
    requires base + (end - start) * key.channels <= destination.Length && (quiet ==> arrivals == [])
    modifies queue, queue.slots, destination
    ensures queue.Valid()
    ensures !done ==>
              TurnsDone(first, seen, n + 1, queue.Contents, quiet, key, start, end, before, destination[..], base, total)
    ensures done ==>
              TurnsEnded(first, queue.Contents, quiet, reading, key, start, end, before, destination[..], base, total)
  {
    ghost var published := Publish(queue, arrivals);
    ReadSoFarGrows(q, published, n, key, start, end, before, destination[..], base, copied);
    seen := q + published;
    done, total, reading := ReadFront(queue, key, start, end, destination, base, copied, seen, n, before);
  }

  /**
  Copy the blocks that overlap `[start, start + frames)` into `destination[base..base + length]`.
  Stale blocks are discarded, finished blocks popped and unfinished ones left at the front.
  Before its turn `i` the reader comes to see the blocks `arrivals[i]` that the worker has published
  in the meantime; `reading` says which of them counted.
  */
  method ReadTimeline(queue: BlockQueue, generation: nat, wetEpoch: nat, start: U64, frames: nat, channels: nat,
                      destination: array<Sample>, base: nat, length: nat, arrivals: seq<seq<AudioBlock>>)
    returns (copied: nat, ghost reading: Reading)
    requires queue.Valid() && queue.capacity <= HUSH_QUEUE_CAPACITY
    requires base + length <= destination.Length
    requires SlotSized(arrivals, queue.maxSamples)
    modifies queue, queue.slots, destination
    ensures queue.Valid()
    ensures old(queue.Contents) <= reading.seen && queue.Contents == reading.rest + reading.later
    ensures arrivals == [] ==> reading.seen == old(queue.Contents) && reading.later == []
    ensures channels == 0 || length < frames * channels ==>
              copied == 0 && queue.Contents == old(queue.Contents) && destination[..] == old(destination[..])
    ensures channels != 0 && frames * channels <= length ==>
              IsReading(reading, Key(generation, wetEpoch, channels), start, SaturatingAdd(start, frames),
                        old(destination[..]), destination[..], base, copied)
  {
    if channels == 0 || length < frames * channels {
      return 0, Reading(queue.Contents, 0, queue.Contents, []);
    }
    var end := SaturatingAdd(start, frames);
    Stride(end - start, frames, channels);
    copied, reading := ReadAll(queue, Key(generation, wetEpoch, channels), start, end, destination, base, arrivals);
  }

  /** The turns of a request that fits its destination. */
  method ReadAll(queue: BlockQueue, key: Key, start: nat, end: nat, destination: array<Sample>, base: nat,
                 arrivals: seq<seq<AudioBlock>>)
    returns (copied: nat, ghost reading: Reading)
    requires queue.Valid() && queue.capacity <= HUSH_QUEUE_CAPACITY
    requires start <= end && base + (end - start) * key.channels <= destination.Length
    requires SlotSized(arrivals, queue.maxSamples)
    modifies queue, queue.slots, destination
    ensures queue.Valid()
    ensures old(queue.Contents) <= reading.seen && queue.Contents == reading.rest + reading.later
    ensures arrivals == [] ==> reading.seen == old(queue.Contents) && reading.later == []
    ensures IsReading(reading, key, start, end, old(destination[..]), destination[..], base, copied)
  {
    copied := 0;
    ghost var first, q, before, quiet := queue.Contents, queue.Contents, destination[..], arrivals == [];
    NothingRead(q, key, start, end, before, base);
    var iteration := 0;
    while iteration < HUSH_QUEUE_CAPACITY
      invariant 0 <= iteration <= HUSH_QUEUE_CAPACITY && queue.Valid()
      invariant TurnsDone(first, q, iteration, queue.Contents, quiet, key, start, end, before, destination[..], base, copied)
    {
      var arrived := if iteration < |arrivals| then arrivals[iteration] else [];
      var done;
      done, copied, q, reading :=
        ReadTurn(queue, key, start, end, destination, base, copied, arrived, first, q, iteration, quiet, before);
      if done {
        return;
      }
      iteration := iteration + 1;
    }
    reading := EnoughRead(first, q, iteration, queue.Contents, quiet, key, start, end, before, destination[..], base,
                          copied);
  }

  lemma NothingRead(q: seq<AudioBlock>, key: Key, start: nat, end: nat, before: seq<Sample>, base: nat)
    requires start <= end
    ensures ReadSoFar(q, 0, key, start, end, before, before, base, 0)
    ensures q[0..] == q
  {
    assert CoveredFrames(q[..0], key, start, end) == {};
  }

  /** After the last turn whatever is still in the queue was published too late. */
  lemma EnoughRead(first: seq<AudioBlock>, q: seq<AudioBlock>, n: nat, left: seq<AudioBlock>, quiet: bool, key: Key,
                   start: nat, end: nat, before: seq<Sample>, now: seq<Sample>, base: nat, copied: nat)
    returns (reading: Reading)
    requires TurnsDone(first, q, n, left, quiet, key, start, end, before, now, base, copied) && |first| <= n
    ensures TurnsEnded(first, left, quiet, reading, key, start, end, before, now, base, copied)
  {
    reading := Reading(q[..n], n, [], q[n..]);
    assert q[..n][..n] == q[..n] && q[..n][n..] == [];
    StopBefore(reading, n, key, start, end, before, now, base, copied);
  }
}
