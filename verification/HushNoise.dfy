/** The Hush callback: the aligned dry path and the wet timeline merged into one buffer. */
module HushNoise {
  import opened ModArith
  import opened AudioBlocks
  import opened HushQueue
  import opened DryDelays

  const HUSH_SCHEDULING_MS: nat := 40
  const HUSH_MIN_WORKER_HEADROOM_MS: nat := 10
  const HUSH_MAX_BACKLOG_MS: nat := 80
  const HUSH_SYNTHESIS_DELAY_SAMPLES: nat := 160
  const HUSH_PERFORMANCE_WINDOW_MS: nat := 50
  const HUSH_OVERLOAD_OBSERVATIONS: nat := 3

  datatype EffectError =
    | FrameLimitExceeded(frames: nat, maxFrames: nat)
    | InvalidBufferLength(actual: nat, expected: nat)

  datatype Outcome = Done | Failed(error: EffectError)

  function DivCeil(a: nat, b: nat): nat
    requires b > 0
  {
    (a + b - 1) / b
  }

  predicate ChannelIsConnected(mask: bv16, channel: nat) {
    channel < 16 && mask & (1 << channel) != 0
  }

  /** The portion of a callback that may be read from the wet timeline: start, frames, skipped prefix. */
  function SafeWetRequest(callbackStart: nat, frames: nat, schedulingFrames: nat): (nat, nat, nat) {
    var prefix := Min(SaturatingSub(schedulingFrames, callbackStart), frames);
    (SaturatingSub(callbackStart, schedulingFrames), frames - prefix, prefix)
  }

  /**
  The request never reaches past the callback start, and its `j`-th frame is exactly the frame that
  was due `schedulingFrames` ago; callback frames without one are the skipped prefix.
  */
  lemma WetRequestIsAligned(callbackStart: nat, frames: nat, schedulingFrames: nat, k: nat)
    requires frames <= schedulingFrames && k < frames
    ensures var (start, requested, prefix) := SafeWetRequest(callbackStart, frames, schedulingFrames);
      && prefix + requested == frames
      && start + requested <= callbackStart
      && (prefix <= k <==> schedulingFrames <= callbackStart + k)
      && (prefix <= k ==> start + (k - prefix) == callbackStart + k - schedulingFrames)
  {
  }

  /** What a callback loads about the worker: windows measured so far, its stable p99 and whether it has failed. */
  datatype WorkerReport = WorkerReport(performanceWindows: nat, stableP99Ns: nat, failed: bool)

  /** The worker's stable cost in frames; it is not believed before the third performance window. */
  function StableCost(report: WorkerReport, sampleRate: nat): nat {
    if report.performanceWindows >= HUSH_OVERLOAD_OBSERVATIONS
    then DivCeil(report.stableP99Ns * sampleRate, 1_000_000_000)
    else 0
  }

  /** How many frames the worker must process for one performance window. */
  function WindowFrames(sampleRate: nat): nat {
    Max(sampleRate * HUSH_PERFORMANCE_WINDOW_MS / 1000, 1)
  }

  /** `observe_quantum`: the scheduling allowance only grows and always exceeds the callback size. */
  function ObserveQuantum(current: nat, frames: nat, sampleRate: nat, stableP99Frames: nat): nat {
    var headroom := DivCeil(sampleRate * HUSH_MIN_WORKER_HEADROOM_MS, 1000);
    var target := Max(Max(frames + headroom, stableP99Frames + frames),
                      DivCeil(sampleRate * HUSH_SCHEDULING_MS, 1000));
    Max(current, target)
  }

  /** How far scheduling may grow before scheduling plus synthesis outgrows the prepared dry ring. */
  function SchedulingRoom(sampleRate: nat, maxFrames: nat): nat {
    var scheduling := DivCeil(sampleRate * HUSH_SCHEDULING_MS, 1000);
    scheduling + Max(scheduling, maxFrames) + DivCeil(sampleRate * HUSH_MAX_BACKLOG_MS, 1000)
  }

  /**
  Callback sizes alone never exhaust the room: scheduling stays inside it exactly while the measured
  worker cost plus the callback does.
  */
  lemma RoomLastsIffWorkerKeepsUp(current: nat, frames: nat, sampleRate: nat, maxFrames: nat, stableP99Frames: nat)
    requires frames <= maxFrames && current <= SchedulingRoom(sampleRate, maxFrames)
    ensures ObserveQuantum(current, frames, sampleRate, stableP99Frames) <= SchedulingRoom(sampleRate, maxFrames)
        <==> stableP99Frames + frames <= SchedulingRoom(sampleRate, maxFrames)
  {
    assert DivCeil(sampleRate * HUSH_MIN_WORKER_HEADROOM_MS, 1000) <= DivCeil(sampleRate * HUSH_SCHEDULING_MS, 1000);
  }

  /** The dry path is delayed by the full latency exactly while scheduling has room. */
  lemma DryKeepsFullLatencyIffRoom(scheduling: nat, synthesis: nat, room: nat, channels: nat)
    requires channels > 0
    ensures Min((scheduling + synthesis) * channels, (synthesis + room) * channels) == (scheduling + synthesis) * channels
        <==> scheduling <= room
  {
    if scheduling <= room {
      Stride(scheduling + synthesis, synthesis + room, channels);
    } else {
      Stride(synthesis + room + 1, scheduling + synthesis, channels);
      Stride(synthesis + room, synthesis + room + 1, channels);
    }
  }

  lemma TimesMin(a: nat, b: nat, channels: nat)
    ensures Min(a * channels, b * channels) == Min(a, b) * channels
  {
    Stride(Min(a, b), Max(a, b), channels);
  }

  /** Silence on every disconnected channel of an interleaved buffer. */
  function Muted(samples: seq<Sample>, mask: bv16, channels: nat): (muted: seq<Sample>)
    requires channels > 0
    ensures |muted| == |samples|
  {
    seq(|samples|, k requires 0 <= k < |samples| =>
      if ChannelIsConnected(mask, k % channels) then samples[k] else 0.0)
  }

  /**
  The sample a callback plays at buffer index `k`.  `position` is the flat stream position of the
  callback start and `stream` everything played in since the last generation change.
  */
  ghost function Played(stream: seq<Sample>, position: nat, k: nat, delay: nat, scheduling: nat,
                        queue: seq<AudioBlock>, key: Key, wet: bool): Sample
    requires position + k < |stream|
  {
    var dry := Delayed(stream, position + k, delay);
    if wet && scheduling <= position + k
    then WetOr(queue, key, position + k - scheduling, dry)
    else dry
  }

  /**
  What one callback leaves in its buffer before the gain stage: every connected-channel sample is the
  dry input or the wet block sample of one and the same stream position, all others are silent.
  */
  ghost predicate IsPlayed(buffer: seq<Sample>, history: seq<Sample>, input: seq<Sample>, delay: nat, schedulingFrames: nat,
                           queue: seq<AudioBlock>, key: Key, mask: bv16, wet: bool)
    requires key.channels > 0
  {
    && |buffer| == |input|
    && forall k :: 0 <= k < |buffer| ==>
         buffer[k] == if ChannelIsConnected(mask, k % key.channels)
                      then Played(history + input, |history|, k, delay, schedulingFrames * key.channels, queue, key, wet)
                      else 0.0
  }

  /** The first `n` samples have been muted. */
  ghost predicate MutedUpTo(before: seq<Sample>, now: seq<Sample>, n: nat, mask: bv16, channels: nat)
    requires channels > 0
  {
    && |now| == |before| && n <= |before|
    && (forall k :: 0 <= k < n ==> now[k] == if ChannelIsConnected(mask, k % channels) then before[k] else 0.0)
    && (forall k :: n <= k < |before| ==> now[k] == before[k])
  }

  lemma RowIndex(row: nat, frame: nat, channel: nat, channels: nat)
    requires channel < channels && row == frame * channels
    ensures (row + channel) % channels == channel
  {
    ModUnique(frame, channel, channels);
  }

  method MuteFrame(target: array<Sample>, ghost before: seq<Sample>, ghost frame: nat, row: nat, channels: nat, mask: bv16)
    requires channels > 0 && row == frame * channels && row + channels <= target.Length
    requires MutedUpTo(before, target[..], row, mask, channels)
    modifies target
    ensures MutedUpTo(before, target[..], row + channels, mask, channels)
  {
    for channel := 0 to channels
      invariant MutedUpTo(before, target[..], row + channel, mask, channels)
    {
      RowIndex(row, frame, channel, channels);
      if !ChannelIsConnected(mask, channel) {
        target[row + channel] := 0.0;
      }
    }
  }

  /** `Muted` in place, as the callback does it frame by frame. */
  method MuteDisconnected(target: array<Sample>, frames: nat, channels: nat, mask: bv16)
    requires channels > 0 && frames * channels <= target.Length
    modifies target
    ensures target[..frames * channels] == Muted(old(target[..frames * channels]), mask, channels)
    ensures target[frames * channels..] == old(target[frames * channels..])
  {
    ghost var before := target[..];
    var row := 0;
    for frame := 0 to frames
      invariant row == frame * channels
      invariant MutedUpTo(before, target[..], row, mask, channels)
    {
      Stride(frame + 1, frames, channels);
      MuteFrame(target, before, frame, row, channels, mask);
      row := row + channels;
    }
  }

  /** Flat positions of the wet request: the skipped prefix and the sample each later index asks for. */
  lemma FlatRequest(callbackStart: nat, frames: nat, scheduling: nat, channels: nat, k: nat)
    requires frames <= scheduling && k < frames * channels
    ensures var (start, requested, prefix) := SafeWetRequest(callbackStart, frames, scheduling);
      && prefix * channels + requested * channels == frames * channels
      && (prefix * channels <= k <==> scheduling * channels <= callbackStart * channels + k)
      && (prefix * channels <= k ==>
            start * channels + (k - prefix * channels) == callbackStart * channels + k - scheduling * channels)
  {
    var (start, requested, prefix) := SafeWetRequest(callbackStart, frames, scheduling);
    Stride(prefix, frames, channels);
    if callbackStart <= scheduling {
      Stride(callbackStart, scheduling, channels);
      Stride(prefix, scheduling - callbackStart, channels);
    } else {
      Stride(scheduling, callbackStart, channels);
    }
  }

  lemma DryIsPlayed(history: seq<Sample>, input: seq<Sample>, delay: nat, schedulingFrames: nat,
                    queue: seq<AudioBlock>, key: Key, mask: bv16, dry: seq<Sample>)
    requires key.channels > 0 && dry == Muted(PureDelay(history, input, delay), mask, key.channels)
    ensures IsPlayed(dry, history, input, delay, schedulingFrames, queue, key, mask, false)
  {
  }

  lemma MergedSample(history: seq<Sample>, input: seq<Sample>, delay: nat, mask: bv16,
                     callbackStart: nat, frames: nat, scheduling: nat, queue: seq<AudioBlock>, key: Key,
                     before: seq<Sample>, after: seq<Sample>, k: nat)
    requires key.channels > 0 && frames <= scheduling && k < |input| && ChannelIsConnected(mask, k % key.channels)
    requires |history| == callbackStart * key.channels && |input| == frames * key.channels
    requires |before| >= |input| && before[..|input|] == Muted(PureDelay(history, input, delay), mask, key.channels)
    requires var (start, requested, prefix) := SafeWetRequest(callbackStart, frames, scheduling);
      Overlaid(before, after, prefix * key.channels, queue, key, start, start + requested)
    ensures |after| == |before|
    ensures after[k] == Played(history + input, |history|, k, delay, scheduling * key.channels, queue, key, true)
  {
    FlatRequest(callbackStart, frames, scheduling, key.channels, k);
    assert before[k] == before[..|input|][k] == Delayed(history + input, |history| + k, delay);
  }

  /** Overlaying the wet request on the muted dry signal gives exactly the played samples. */
  lemma MergeIsPlayed(history: seq<Sample>, input: seq<Sample>, delay: nat, mask: bv16,
                      callbackStart: nat, frames: nat, scheduling: nat, queue: seq<AudioBlock>, key: Key,
                      before: seq<Sample>, after: seq<Sample>)
    requires key.channels > 0 && frames <= scheduling
    requires |history| == callbackStart * key.channels && |input| == frames * key.channels
    requires |before| >= |input| && before[..|input|] == Muted(PureDelay(history, input, delay), mask, key.channels)
    requires var (start, requested, prefix) := SafeWetRequest(callbackStart, frames, scheduling);
      Overlaid(before, after, prefix * key.channels, queue, key, start, start + requested)
    ensures |after| == |before|
    ensures IsPlayed(Muted(after[..|input|], mask, key.channels),
                     history, input, delay, scheduling, queue, key, mask, true)
  {
    forall k | 0 <= k < |input| && ChannelIsConnected(mask, k % key.channels)
      ensures after[k] == Played(history + input, |history|, k, delay, scheduling * key.channels, queue, key, true)
    {
      MergedSample(history, input, delay, mask, callbackStart, frames, scheduling, queue, key, before, after, k);
    }
  }

  /** The dry sample of channel `channel` delayed by whole frames: silence before the stream starts. */
  function DryFrame(stream: seq<Sample>, frame: int, channel: nat, channels: nat): Sample
    requires frame >= 0 ==> 0 <= frame * channels + channel < |stream|
  {
    if frame < 0 then 0.0 else stream[frame * channels + channel]
  }

  /** `sample` is the one that `block` holds for `channel` of wet frame `at`. */
  ghost predicate PlaysWet(sample: Sample, block: AudioBlock, key: Key, at: nat, channel: nat) {
    && CoversFrame(block, key, at)
    && 0 <= (at - First(block)) * key.channels + channel < |block.samples|
    && sample == block.samples[(at - First(block)) * key.channels + channel]
  }

  /** `sample` is the one that was played in for `channel` of frame `frame`, or silence before the start. */
  ghost predicate PlaysDry(sample: Sample, stream: seq<Sample>, frame: int, channel: nat, channels: nat) {
    && (frame >= 0 ==> 0 <= frame * channels + channel < |stream|)
    && sample == DryFrame(stream, frame, channel, channels)
  }

  /** What `channel` plays for stream frame `now`: wet from block `source` where the timeline has it, else dry. */
  ghost predicate PlaysFrame(sample: Sample, stream: seq<Sample>, now: nat, channel: nat, latency: nat, scheduling: nat,
                             queue: seq<AudioBlock>, key: Key, wet: bool, source: nat)
  {
    if wet && scheduling <= now && FrameCovered(queue, key, now - scheduling)
    then source < |queue| && PlaysWet(sample, queue[source], key, now - scheduling, channel)
    else PlaysDry(sample, stream, now - latency, channel, key.channels)
  }

  /**
  One frame of one callback.  With `now` the stream frame it is played for, every connected channel plays
  frame `now - scheduling` of one and the same live block, or else every one plays the dry frame
  `now - latency`.
  */
  lemma PlayedFrame(buffer: seq<Sample>, history: seq<Sample>, input: seq<Sample>, latency: nat, scheduling: nat,
                    queue: seq<AudioBlock>, key: Key, mask: bv16, wet: bool,
                    callbackStart: nat, frame: nat) returns (source: nat)
    requires key.channels > 0 && latency > 0
    requires IsPlayed(buffer, history, input, latency * key.channels, scheduling, queue, key, mask, wet)
    requires |history| == callbackStart * key.channels
    requires (frame + 1) * key.channels <= |buffer|
    ensures forall channel: nat :: channel < key.channels && ChannelIsConnected(mask, channel) ==>
      && 0 <= frame * key.channels + channel < |buffer|
      && PlaysFrame(buffer[frame * key.channels + channel], history + input, callbackStart + frame, channel, latency,
                    scheduling, queue, key, wet, source)
  {
    var now, row := callbackStart + frame, frame * key.channels;
    Stride(frame, frame + 1, key.channels);
    Stride(callbackStart, now, key.channels);
    source := if scheduling <= now then LastCovering(queue, key, now - scheduling) else 0;
    forall channel: nat | channel < key.channels && ChannelIsConnected(mask, channel)
      ensures 0 <= frame * key.channels + channel < |buffer|
      ensures PlaysFrame(buffer[frame * key.channels + channel], history + input, now, channel, latency, scheduling,
                         queue, key, wet, source)
    {
      RowIndex(row, frame, channel, key.channels);
      PlayedSample(buffer, history, input, latency, scheduling, queue, key, mask, wet, now, row, channel);
    }
  }

  lemma PlayedSample(buffer: seq<Sample>, history: seq<Sample>, input: seq<Sample>, latency: nat, scheduling: nat,
                     queue: seq<AudioBlock>, key: Key, mask: bv16, wet: bool, now: nat, row: nat, channel: nat)
    requires key.channels > 0 && latency > 0
    requires IsPlayed(buffer, history, input, latency * key.channels, scheduling, queue, key, mask, wet)
    requires |history| + row == now * key.channels && (row + channel) % key.channels == channel
    requires ChannelIsConnected(mask, channel) && row + channel < |buffer|
    ensures PlaysFrame(buffer[row + channel], history + input, now, channel, latency, scheduling, queue, key, wet,
                       if scheduling <= now then LastCovering(queue, key, now - scheduling) else 0)
  {
    PlayedInFrames(history + input, |history|, row + channel, now, channel, latency, scheduling, queue, key, wet);
  }

  lemma PlayedInFrames(stream: seq<Sample>, position: nat, k: nat, now: nat, channel: nat, latency: nat, scheduling: nat,
                       queue: seq<AudioBlock>, key: Key, wet: bool)
    requires channel < key.channels && latency > 0
    requires position + k == now * key.channels + channel < |stream|
    ensures PlaysFrame(Played(stream, position, k, latency * key.channels, scheduling * key.channels, queue, key, wet),
                       stream, now, channel, latency, scheduling, queue, key, wet,
                       if scheduling <= now then LastCovering(queue, key, now - scheduling) else 0)
  {
    FlatOrder(latency, now, channel, key.channels);
    FlatOrder(scheduling, now, channel, key.channels);
    if wet && scheduling <= now {
      WetSample(queue, key, now - scheduling, channel, position + k - scheduling * key.channels,
                Delayed(stream, position + k, latency * key.channels));
    }
  }

  /** The newest live block that covers a frame, or zero. */
  ghost function LastCovering(queue: seq<AudioBlock>, key: Key, at: nat): (source: nat)
    ensures FrameCovered(queue, key, at) ==> source < |queue| && CoversFrame(queue[source], key, at)
    ensures FrameCovered(queue, key, at) ==> forall i :: source < i < |queue| ==> !CoversFrame(queue[i], key, at)
  {
    if queue == [] then 0
    else if CoversFrame(queue[|queue| - 1], key, at) then |queue| - 1
    else
      assert forall i :: 0 <= i < |queue| && CoversFrame(queue[i], key, at) ==>
        CoversFrame(queue[..|queue| - 1][i], key, at);
      LastCovering(queue[..|queue| - 1], key, at)
  }

  /** One frame of the wet timeline, channel by channel. */
  function WetFrameOr(queue: seq<AudioBlock>, key: Key, at: nat, default: Sample): (frame: seq<Sample>)
    ensures |frame| == key.channels
  {
    seq(key.channels, channel requires 0 <= channel < key.channels =>
      WetOr(queue, key, at * key.channels + channel, default))
  }

  /** The newest live block that covers a frame supplies all its channels. */
  lemma WetFrame(queue: seq<AudioBlock>, key: Key, at: nat, default: Sample) returns (source: nat)
    ensures forall channel: nat :: channel < key.channels ==>
      var wet := WetFrameOr(queue, key, at, default)[channel];
      if FrameCovered(queue, key, at) then source < |queue| && PlaysWet(wet, queue[source], key, at, channel)
      else wet == default
  {
    source := LastCovering(queue, key, at);
    forall channel: nat | channel < key.channels
      ensures var wet := WetFrameOr(queue, key, at, default)[channel];
        if FrameCovered(queue, key, at) then source < |queue| && PlaysWet(wet, queue[source], key, at, channel)
        else wet == default
    {
      WetSample(queue, key, at, channel, at * key.channels + channel, default);
    }
  }

  lemma WetSample(queue: seq<AudioBlock>, key: Key, at: nat, channel: nat, p: nat, default: Sample)
    requires channel < key.channels && p == at * key.channels + channel
    ensures
      var wet, source := WetOr(queue, key, p, default), LastCovering(queue, key, at);
      if FrameCovered(queue, key, at) then source < |queue| && PlaysWet(wet, queue[source], key, at, channel)
      else wet == default
  {
    if FrameCovered(queue, key, at) {
      var source := LastCovering(queue, key, at);
      forall i | source < i < |queue|
        ensures !Covers(queue[i], key, p)
      {
        CoversIsCoversFrame(queue[i], key, at, channel);
      }
      BackIrrelevant(queue, source + 1, key, p, default);
      CoversIsCoversFrame(queue[source], key, at, channel);
      Stride(First(queue[source]), at, key.channels);
      SpanFits(queue[source], key);
    } else {
      forall i | 0 <= i < |queue|
        ensures !Covers(queue[i], key, p)
      {
        CoversIsCoversFrame(queue[i], key, at, channel);
      }
      UncoveredIsDefault(queue, key, p, default);
    }
  }

  lemma FlatOrder(delay: nat, now: nat, channel: nat, channels: nat)
    requires channel < channels
    ensures delay <= now <==> delay * channels <= now * channels + channel
    ensures delay <= now ==> (now - delay) * channels + channel == now * channels + channel - delay * channels
  {
    if delay <= now {
      Stride(delay, now, channels);
    } else {
      Stride(now + 1, delay, channels);
    }
  }

  lemma MutedTwice(samples: seq<Sample>, mask: bv16, channels: nat)
    requires channels > 0
    ensures Muted(Muted(samples, mask, channels), mask, channels) == Muted(samples, mask, channels)
  {
  }

  /** The wet buffer after the safe request of one callback has been read into it. */
  ghost predicate WetRead(queue: seq<AudioBlock>, key: Key, callbackStart: nat, frames: nat, scheduling: nat,
                          before: seq<Sample>, after: seq<Sample>, available: nat)
  {
    var (start, requested, prefix) := SafeWetRequest(callbackStart, frames, scheduling);
    var wetRead :=
      && Overlaid(before, after, prefix * key.channels, queue, key, start, start + requested)
      && (available == 0 ==> after == before);
    wetRead
  }

  /** What was read lies over the destination: the blocks looked at, or all that were seen if they are ordered. */
  ghost predicate WetReadFrom(reading: Reading, key: Key, callbackStart: nat, frames: nat, scheduling: nat,
                              before: seq<Sample>, after: seq<Sample>, available: nat)
    requires reading.looked <= |reading.seen|
  {
    var wetRead :=
      && WetRead(reading.seen[..reading.looked], key, callbackStart, frames, scheduling, before, after, available)
      && (Ordered(reading.seen, key) ==>
            WetRead(reading.seen, key, callbackStart, frames, scheduling, before, after, available));
    wetRead
  }

  lemma WetIsPlayed(history: seq<Sample>, input: seq<Sample>, delay: nat, mask: bv16,
                    callbackStart: nat, frames: nat, scheduling: nat, queue: seq<AudioBlock>, key: Key,
                    before: seq<Sample>, after: seq<Sample>, available: nat)
    requires key.channels > 0 && frames <= scheduling
    requires |history| == callbackStart * key.channels && |input| == frames * key.channels
    requires |before| >= |input| && before[..|input|] == Muted(PureDelay(history, input, delay), mask, key.channels)
    requires WetRead(queue, key, callbackStart, frames, scheduling, before, after, available)
    ensures |after| == |before|
    ensures IsPlayed(Muted(after[..|input|], mask, key.channels), history, input, delay, scheduling, queue, key, mask, true)
    ensures available == 0 ==> IsPlayed(before[..|input|], history, input, delay, scheduling, queue, key, mask, true)
  {
    MergeIsPlayed(history, input, delay, mask, callbackStart, frames, scheduling, queue, key, before, after);
    if available == 0 {
      MutedTwice(PureDelay(history, input, delay), mask, key.channels);
    }
  }

  /** A dry ring of `capacity` frames that starts with a delay of `logical` frames. */
  method DelayLine(logical: nat, capacity: nat, channels: nat) returns (line: DryDelay)
    requires 0 < logical <= capacity && channels > 0
    ensures fresh(line) && fresh(line.samples) && line.Valid() && line.history == []
    ensures line.samples.Length == capacity * channels
    ensures line.delay == logical * channels > 0
  {
    Stride(logical, capacity, channels);
    Stride(1, logical, channels);
    line := new DryDelay(capacity * channels);
    line.SetDelay(logical * channels);
  }

  /** The read took note of the queue as it was, in part of what arrived, and left the rest. */
  ghost predicate TookPart(reading: Reading, before: seq<AudioBlock>, after: seq<AudioBlock>,
                           arrivals: seq<seq<AudioBlock>>)
  {
    var tookPart :=
      && before <= reading.seen && reading.looked <= |reading.seen|
      && after == reading.rest + reading.later
      && (arrivals == [] ==> reading.seen == before && reading.later == []);
    tookPart
  }

  /**
  The buffer plays the blocks the reader looked at over the dry signal; if the live blocks among those it
  saw are ordered, that is the same as playing all it saw.
  */
  ghost predicate PlayedFrom(buffer: seq<Sample>, history: seq<Sample>, input: seq<Sample>, delay: nat,
                             schedulingFrames: nat, reading: Reading, key: Key, mask: bv16, wet: bool)
    requires key.channels > 0 && reading.looked <= |reading.seen|
  {
    var playedFrom :=
      && IsPlayed(buffer, history, input, delay, schedulingFrames, reading.seen[..reading.looked], key, mask, wet)
      && (Ordered(reading.seen, key) ==>
            IsPlayed(buffer, history, input, delay, schedulingFrames, reading.seen, key, mask, wet));
    playedFrom
  }

  lemma DryIsPlayedFrom(history: seq<Sample>, input: seq<Sample>, delay: nat, schedulingFrames: nat,
                        reading: Reading, key: Key, mask: bv16, dry: seq<Sample>)
    requires key.channels > 0 && dry == Muted(PureDelay(history, input, delay), mask, key.channels)
    requires reading.looked <= |reading.seen|
    ensures PlayedFrom(dry, history, input, delay, schedulingFrames, reading, key, mask, false)
  {
    DryIsPlayed(history, input, delay, schedulingFrames, reading.seen[..reading.looked], key, mask, dry);
    DryIsPlayed(history, input, delay, schedulingFrames, reading.seen, key, mask, dry);
  }

  /** The buffer keeps the dry signal when bypassed or when nothing was read, and takes the merged one otherwise. */
  lemma Merged(history: seq<Sample>, input: seq<Sample>, delay: nat, mask: bv16, callbackStart: nat, frames: nat,
               scheduling: nat, queue: seq<AudioBlock>, key: Key, before: seq<Sample>, after: seq<Sample>,
               available: nat, bypassed: bool, buffer: seq<Sample>)
    requires key.channels > 0 && frames <= scheduling
    requires |history| == callbackStart * key.channels && |input| == frames * key.channels
    requires |before| >= |input| && before[..|input|] == Muted(PureDelay(history, input, delay), mask, key.channels)
    requires WetRead(queue, key, callbackStart, frames, scheduling, before, after, available)
    requires buffer == if available > 0 && !bypassed then Muted(after[..|input|], mask, key.channels)
                       else before[..|input|]
    ensures IsPlayed(buffer, history, input, delay, scheduling, queue, key, mask, !bypassed)
  {
    WetIsPlayed(history, input, delay, mask, callbackStart, frames, scheduling, queue, key, before, after, available);
    if bypassed {
      DryIsPlayed(history, input, delay, scheduling, queue, key, mask, buffer);
    }
  }

  lemma MergedFrom(history: seq<Sample>, input: seq<Sample>, delay: nat, mask: bv16, callbackStart: nat, frames: nat,
                   scheduling: nat, reading: Reading, key: Key, before: seq<Sample>, after: seq<Sample>,
                   available: nat, bypassed: bool, buffer: seq<Sample>, length: nat)
    requires key.channels > 0 && frames <= scheduling && reading.looked <= |reading.seen|
    requires |history| == callbackStart * key.channels && |input| == frames * key.channels
    requires |after| == |before| >= |input| == length
    requires before[..length] == Muted(PureDelay(history, input, delay), mask, key.channels)
    requires WetReadFrom(reading, key, callbackStart, frames, scheduling, before, after, available)
    requires buffer == if available > 0 && !bypassed then Muted(after[..length], mask, key.channels) else before[..length]
    ensures PlayedFrom(buffer, history, input, delay, scheduling, reading, key, mask, !bypassed)
  {
    Merged(history, input, delay, mask, callbackStart, frames, scheduling, reading.seen[..reading.looked], key,
           before, after, available, bypassed, buffer);
    if Ordered(reading.seen, key) {
      Merged(history, input, delay, mask, callbackStart, frames, scheduling, reading.seen, key,
             before, after, available, bypassed, buffer);
    }
  }

  class HushNoiseSuppressor {
    const sampleRate: nat
    const channels: nat
    const maxFrames: nat
    const synthesisDelayFrames: nat
    const dryDelay: DryDelay
    const fallback: array<Sample>
    const wet: array<Sample>
    /** Blocks the worker has finished; the worker pushes here at any time between callbacks. */
    const output: BlockQueue
    var channelMask: bv16
    var generation: nat
    var inputFramePosition: nat
    var schedulingFrames: nat
    var hostBypass: bool

    /** What the dry path is delayed by, in frames: the full latency, as far as the prepared ring reaches. */
    function DryLatency(): nat
      reads this
    {
      synthesisDelayFrames + Min(schedulingFrames, SchedulingRoom(sampleRate, maxFrames))
    }

    /** The dry path is delayed by the full latency, so that it lines up with the wet timeline. */
    ghost predicate Aligned()
      reads this, dryDelay
    {
      dryDelay.delay == (schedulingFrames + synthesisDelayFrames) * channels
    }

    /** What `Prepare` fixed for good. */
    ghost predicate Prepared() {
      var prepared :=
        && fallback != wet && fallback != dryDelay.samples && wet != dryDelay.samples
        && channels > 0 && sampleRate > 0
        && fallback.Length == wet.Length == maxFrames * channels
        && synthesisDelayFrames > 0
        && dryDelay.samples.Length == (synthesisDelayFrames + SchedulingRoom(sampleRate, maxFrames)) * channels;
      prepared
    }

    ghost predicate Valid()
      reads this, dryDelay, dryDelay.samples, fallback, wet, output, output.slots
    {
      // Named, so that it is proved and used as one fact.
      var sound :=
        && Prepared()
        && dryDelay.Valid() && output.Valid() && output.capacity <= HUSH_QUEUE_CAPACITY
        && dryDelay.delay == DryLatency() * channels > 0
        && |dryDelay.history| == inputFramePosition * channels
        && generation < WORD && inputFramePosition <= U64_MAX;
      sound
    }

    /** `prepare` on a fresh instance; the model, the worker and its runtime are outside the model. */
    constructor Prepare(sampleRate: nat, channels: nat, maxFrames: nat, output: BlockQueue)
      requires sampleRate > 0 && 1 <= channels <= 2 && maxFrames > 0
      requires output.Valid() && output.capacity <= HUSH_QUEUE_CAPACITY
      ensures Valid() && Aligned() && this.output == output
      ensures fresh(dryDelay) && fresh(dryDelay.samples) && fresh(fallback) && fresh(wet)
      ensures channelMask == (1 << channels) - 1 && !hostBypass
      ensures schedulingFrames == DivCeil(sampleRate * HUSH_SCHEDULING_MS, 1000)
      ensures synthesisDelayFrames == DivCeil(sampleRate * HUSH_SYNTHESIS_DELAY_SAMPLES, 16_000)
      ensures this.sampleRate == sampleRate && this.channels == channels && this.maxFrames == maxFrames
      ensures inputFramePosition == 0 && dryDelay.history == []
      ensures dryDelay.delay == (schedulingFrames + synthesisDelayFrames) * channels <= dryDelay.samples.Length
      ensures dryDelay.samples.Length == (synthesisDelayFrames + SchedulingRoom(sampleRate, maxFrames)) * channels
    {
      var synthesis := DivCeil(sampleRate * HUSH_SYNTHESIS_DELAY_SAMPLES, 16_000);
      var scheduling := DivCeil(sampleRate * HUSH_SCHEDULING_MS, 1000);
      var logical := synthesis + scheduling;
      var capacity := logical + Max(scheduling, maxFrames) + DivCeil(sampleRate * HUSH_MAX_BACKLOG_MS, 1000);
      var line := DelayLine(logical, capacity, channels);
      this.sampleRate, this.channels, this.maxFrames := sampleRate, channels, maxFrames;
      this.output := output;
      synthesisDelayFrames, schedulingFrames := synthesis, scheduling;
      channelMask := (1 << channels) - 1;
      generation, inputFramePosition, hostBypass := 0, 0, false;
      dryDelay := line;
      fallback := new Sample[maxFrames * channels](_ => 0.0);
      wet := new Sample[maxFrames * channels](_ => 0.0);
    }

    /** Wet and dry line up exactly while scheduling is within the room the ring was prepared for. */
    lemma AlignedIffRoom()
      requires Valid()
      ensures Aligned() <==> schedulingFrames <= SchedulingRoom(sampleRate, maxFrames)
    {
      var room := SchedulingRoom(sampleRate, maxFrames);
      TimesMin(schedulingFrames + synthesisDelayFrames, synthesisDelayFrames + room, channels);
      DryKeepsFullLatencyIffRoom(schedulingFrames, synthesisDelayFrames, room, channels);
    }

    method NextGeneration()
      requires Valid()
      modifies this, dryDelay, dryDelay.samples, fallback, wet
      ensures Valid()
      ensures generation == WrappingAdd(old(generation), 1)
      ensures inputFramePosition == 0 && dryDelay.history == [] && dryDelay.delay == old(dryDelay.delay)
      ensures channelMask == old(channelMask) && schedulingFrames == old(schedulingFrames)
      ensures hostBypass == old(hostBypass) && Aligned() == old(Aligned())
    {
      generation := WrappingAdd(generation, 1);
      inputFramePosition := 0;
      dryDelay.Reset();
      forall i | 0 <= i < fallback.Length {
        fallback[i] := 0.0;
      }
      forall i | 0 <= i < wet.Length {
        wet[i] := 0.0;
      }
    }

    /** A changed mask starts a new generation, so blocks made under the old mask are never live again. */
    method SetChannelMask(mask: bv16)
      requires Valid() && channels <= 2
      modifies this, dryDelay, dryDelay.samples, fallback, wet
      ensures Valid()
      ensures channelMask == mask & ((1 << channels) - 1)
      ensures channelMask == old(channelMask) ==>
                generation == old(generation) && inputFramePosition == old(inputFramePosition)
                && dryDelay.history == old(dryDelay.history)
      ensures channelMask != old(channelMask) ==>
                generation == WrappingAdd(old(generation), 1) && inputFramePosition == 0 && dryDelay.history == []
      ensures Aligned() == old(Aligned()) && schedulingFrames == old(schedulingFrames)
    {
      var masked := mask & ((1 << channels) - 1);
      if channelMask != masked {
        channelMask := masked;
        NextGeneration();
      }
    }

    /** Let the scheduling allowance and with it the dry delay grow to the observed callback size. */
    method GrowLatency(frames: nat, stableP99Frames: nat)
      requires Valid()
      modifies this`schedulingFrames, dryDelay
      ensures Valid()
      ensures schedulingFrames == ObserveQuantum(old(schedulingFrames), frames, sampleRate, stableP99Frames)
      ensures frames <= schedulingFrames
      ensures dryDelay.history == old(dryDelay.history)
      ensures dryDelay.delay == Min((schedulingFrames + synthesisDelayFrames) * channels, dryDelay.samples.Length)
    {
      schedulingFrames := ObserveQuantum(schedulingFrames, frames, sampleRate, stableP99Frames);
      Stride(1, schedulingFrames + synthesisDelayFrames, channels);
      TimesMin(schedulingFrames + synthesisDelayFrames, synthesisDelayFrames + SchedulingRoom(sampleRate, maxFrames),
               channels);
      dryDelay.SetDelayPreserve((schedulingFrames + synthesisDelayFrames) * channels);
    }

    /** Delay the callback into the fallback, silence disconnected channels and play that. */
    method PlayDry(buffer: array<Sample>, frames: nat)
      requires Valid()
      requires buffer != fallback && buffer != wet && buffer != dryDelay.samples
      requires buffer.Length == frames * channels && frames <= maxFrames
      modifies dryDelay, dryDelay.samples, fallback, wet, buffer
      ensures dryDelay.Valid() && dryDelay.delay == old(dryDelay.delay)
      ensures dryDelay.history == old(dryDelay.history) + old(buffer[..])
      ensures buffer.Length <= wet.Length
      ensures buffer[..] == wet[..buffer.Length]
           == Muted(PureDelay(old(dryDelay.history), old(buffer[..]), dryDelay.delay), channelMask, channels)
    {
      var expected := frames * channels;
      Stride(frames, maxFrames, channels);
      dryDelay.Process(buffer[..], fallback);
      MuteDisconnected(fallback, frames, channels, channelMask);
      CopySlice(fallback[..], 0, buffer, 0, expected);
      CopySlice(fallback[..], 0, wet, 0, expected);
    }

    /** `pop_ready` on the safe part of the request. */
    method ReadWet(frames: nat, wetEpoch: nat, arrivals: seq<seq<AudioBlock>>)
      returns (available: nat, ghost reading: Reading)
      requires output.Valid() && output.capacity <= HUSH_QUEUE_CAPACITY && SlotSized(arrivals, output.maxSamples)
      requires channels > 0 && frames <= schedulingFrames && inputFramePosition + frames <= U64_MAX
      requires frames * channels <= wet.Length
      modifies wet, output, output.slots
      ensures output.Valid()
      ensures TookPart(reading, old(output.Contents), output.Contents, arrivals)
      ensures WetReadFrom(reading, Key(generation, wetEpoch, channels), inputFramePosition, frames, schedulingFrames,
                          old(wet[..]), wet[..], available)
      ensures Ordered(reading.seen, Key(generation, wetEpoch, channels)) ==>
                var (start, requested, _) := SafeWetRequest(inputFramePosition, frames, schedulingFrames);
                available == |CoveredFrames(reading.seen, Key(generation, wetEpoch, channels), start, start + requested)|
    {
      var (start, requested, prefix) := SafeWetRequest(inputFramePosition, frames, schedulingFrames);
      Stride(prefix, frames, channels);
      available, reading := ReadTimeline(output, generation, wetEpoch, start, requested, channels,
                                         wet, prefix * channels, frames * channels - prefix * channels, arrivals);
    }

    /** Overlay the wet request on the dry signal in `wet`; play it unless bypassed or empty. */
    method PlayWet(buffer: array<Sample>, frames: nat, wetEpoch: nat, bypassed: bool, arrivals: seq<seq<AudioBlock>>,
                   ghost history: seq<Sample>, ghost input: seq<Sample>) returns (ghost reading: Reading)
      requires output.Valid() && output.capacity <= HUSH_QUEUE_CAPACITY && SlotSized(arrivals, output.maxSamples)
      requires buffer != wet && channels > 0 && frames <= schedulingFrames && inputFramePosition + frames <= U64_MAX
      requires buffer.Length == frames * channels == |input| <= wet.Length
      requires |history| == inputFramePosition * channels
      requires buffer[..] == wet[..buffer.Length]
            == Muted(PureDelay(history, input, dryDelay.delay), channelMask, channels)
      modifies wet, output, output.slots, buffer
      ensures output.Valid()
      ensures TookPart(reading, old(output.Contents), output.Contents, arrivals)
      ensures PlayedFrom(buffer[..], history, input, dryDelay.delay, schedulingFrames, reading,
                         Key(generation, wetEpoch, channels), channelMask, !bypassed)
    {
      ghost var dry := wet[..];
      var available;
      available, reading := ReadWet(frames, wetEpoch, arrivals);
      ghost var read := wet[..];
      ShowWet(buffer, frames, available > 0 && !bypassed);
      MergedFrom(history, input, dryDelay.delay, channelMask, inputFramePosition, frames, schedulingFrames,
                 reading, Key(generation, wetEpoch, channels), dry, read, available, bypassed, buffer[..], buffer.Length);
    }

    /** If the merged signal is to be heard, silence its disconnected channels and play it. */
    method ShowWet(buffer: array<Sample>, frames: nat, heard: bool)
      requires channels > 0 && buffer != wet && buffer.Length == frames * channels <= wet.Length
      modifies wet, buffer
      ensures buffer[..] == if heard then Muted(old(wet[..buffer.Length]), channelMask, channels) else old(buffer[..])
    {
      if heard {
        MuteDisconnected(wet, frames, channels, channelMask);
        CopySlice(wet[..], 0, buffer, 0, frames * channels);
      }
    }

    /** Play the wet timeline over the dry signal unless the worker has failed. */
    method PlayTimeline(buffer: array<Sample>, frames: nat, wetEpoch: nat, workerFailed: bool, bypassed: bool,
                        arrivals: seq<seq<AudioBlock>>, ghost history: seq<Sample>, ghost input: seq<Sample>)
      returns (ghost reading: Reading)
      requires output.Valid() && output.capacity <= HUSH_QUEUE_CAPACITY && SlotSized(arrivals, output.maxSamples)
      requires buffer != wet && channels > 0 && frames <= schedulingFrames && inputFramePosition + frames <= U64_MAX
      requires buffer.Length == frames * channels == |input| <= wet.Length
      requires |history| == inputFramePosition * channels
      requires buffer[..] == wet[..buffer.Length]
            == Muted(PureDelay(history, input, dryDelay.delay), channelMask, channels)
      modifies wet, output, output.slots, buffer
      ensures output.Valid()
      ensures TookPart(reading, old(output.Contents), output.Contents, arrivals)
      ensures PlayedFrom(buffer[..], history, input, dryDelay.delay, schedulingFrames, reading,
                         Key(generation, wetEpoch, channels), channelMask, !workerFailed && !bypassed)
    {
      if !workerFailed {
        reading := PlayWet(buffer, frames, wetEpoch, bypassed, arrivals, history, input);
      } else {
        reading := Reading(output.Contents, 0, output.Contents, []);
        DryIsPlayedFrom(history, input, dryDelay.delay, schedulingFrames, reading, Key(generation, wetEpoch, channels),
                        channelMask, buffer[..]);
      }
    }

    /** An accepted callback. */
    method Callback(buffer: array<Sample>, frames: nat, stableP99Frames: nat, wetEpoch: nat,
                    workerFailed: bool, bypassed: bool, arrivals: seq<seq<AudioBlock>>)
      returns (ghost reading: Reading)
      requires Valid() && SlotSized(arrivals, output.maxSamples)
      requires buffer != fallback && buffer != wet && buffer != dryDelay.samples
      requires frames <= maxFrames && buffer.Length == frames * channels
      requires inputFramePosition + frames <= U64_MAX
      modifies this`schedulingFrames, this`inputFramePosition, dryDelay, dryDelay.samples, fallback, wet, output,
               output.slots, buffer
      ensures Valid()
      ensures inputFramePosition == old(inputFramePosition) + frames
      ensures schedulingFrames == ObserveQuantum(old(schedulingFrames), frames, sampleRate, stableP99Frames)
      ensures dryDelay.history == old(dryDelay.history) + old(buffer[..])
      ensures dryDelay.delay == Min((schedulingFrames + synthesisDelayFrames) * channels, dryDelay.samples.Length)
      ensures TookPart(reading, old(output.Contents), output.Contents, arrivals)
      ensures PlayedFrom(buffer[..], old(dryDelay.history), old(buffer[..]), dryDelay.delay, schedulingFrames,
                         reading, Key(generation, wetEpoch, channels), channelMask, !workerFailed && !bypassed)
    {
      ghost var input, history := buffer[..], dryDelay.history;
      GrowLatency(frames, stableP99Frames);
      PlayDry(buffer, frames);
      reading := PlayTimeline(buffer, frames, wetEpoch, workerFailed, bypassed, arrivals, history, input);
      Stride(inputFramePosition, inputFramePosition + frames, channels);
      inputFramePosition := inputFramePosition + frames;
    }

    /**
    One callback, up to the gain stage.  `report`, `wetEpoch`, `userBypass` and `attenuation` are what the
    callback loads from the shared diagnostics, `arrivals` what the worker publishes while it reads.
    */
    method Process(buffer: array<Sample>, frames: nat, report: WorkerReport, wetEpoch: nat, userBypass: bool,
                   attenuation: real, arrivals: seq<seq<AudioBlock>>)
      returns (result: Outcome, ghost reading: Reading)
      requires Valid() && SlotSized(arrivals, output.maxSamples)
      requires buffer != fallback && buffer != wet && buffer != dryDelay.samples
      requires inputFramePosition + frames <= U64_MAX
      modifies this`schedulingFrames, this`inputFramePosition, dryDelay, dryDelay.samples, fallback, wet, output,
               output.slots, buffer
      ensures Valid()
      ensures result.Failed? <==> frames > maxFrames || buffer.Length != frames * channels
      ensures result.Failed? ==>
        && inputFramePosition == old(inputFramePosition) && schedulingFrames == old(schedulingFrames)
        && dryDelay.history == old(dryDelay.history) && output.Contents == old(output.Contents)
        && buffer[..] == old(buffer[..]) && Aligned() == old(Aligned())
      ensures result.Done? ==>
        && inputFramePosition == old(inputFramePosition) + frames
        && schedulingFrames == ObserveQuantum(old(schedulingFrames), frames, sampleRate, StableCost(report, sampleRate))
        && dryDelay.history == old(dryDelay.history) + old(buffer[..])
        && dryDelay.delay == Min((schedulingFrames + synthesisDelayFrames) * channels, dryDelay.samples.Length)
      ensures result.Done? ==>
        (Aligned() <==>
           old(Aligned()) && StableCost(report, sampleRate) + frames <= SchedulingRoom(sampleRate, maxFrames))
      ensures result.Done? ==> TookPart(reading, old(output.Contents), output.Contents, arrivals)
      ensures result.Done? ==>
        PlayedFrom(buffer[..], old(dryDelay.history), old(buffer[..]), DryLatency() * channels, schedulingFrames,
                   reading, Key(generation, wetEpoch, channels), channelMask,
                   !report.failed && !(hostBypass || userBypass || attenuation < 0.01))
    {
      reading := Reading(output.Contents, 0, output.Contents, []);
      if frames > maxFrames {
        return Failed(FrameLimitExceeded(frames, maxFrames)), reading;
      }
      var expected := frames * channels;
      if buffer.Length != expected {
        return Failed(InvalidBufferLength(buffer.Length, expected)), reading;
      }
      AlignedIffRoom();
      var cost := StableCost(report, sampleRate);
      reading := Callback(buffer, frames, cost, wetEpoch, report.failed,
                          hostBypass || userBypass || attenuation < 0.01, arrivals);
      AlignedIffRoom();
      RoomShrinks(old(schedulingFrames), frames, sampleRate, maxFrames, cost);
      result := Done;
    }

    /** One event of a run. */
    method Handle(e: HostEvent)
      requires Valid() && channels <= 2
      requires e.Callback? ==> SlotSized(e.arrivals, output.maxSamples)
      requires inputFramePosition + FramesIn(e) <= U64_MAX
      modifies this, dryDelay, dryDelay.samples, fallback, wet, output, output.slots
      ensures Valid()
      ensures inputFramePosition <= old(inputFramePosition) + FramesIn(e)
      ensures Aligned() <==> old(Aligned()) && (Accepted(e, channels, maxFrames) ==>
                                                  KeepsUp(e, sampleRate, maxFrames))
    {
      match e {
        case Callback(input, frames, report, wetEpoch, userBypass, attenuation, arrivals) =>
          var buffer := new Sample[|input|](i requires 0 <= i < |input| => input[i]);
          var _, _ := Process(buffer, frames, report, wetEpoch, userBypass, attenuation, arrivals);
        case Mask(mask) =>
          SetChannelMask(mask);
      }
    }
  }

  /** Once outside the room, scheduling never comes back. */
  lemma RoomShrinks(current: nat, frames: nat, sampleRate: nat, maxFrames: nat, stableP99Frames: nat)
    requires frames <= maxFrames
    ensures ObserveQuantum(current, frames, sampleRate, stableP99Frames) <= SchedulingRoom(sampleRate, maxFrames)
        <==> current <= SchedulingRoom(sampleRate, maxFrames)
             && stableP99Frames + frames <= SchedulingRoom(sampleRate, maxFrames)
  {
    if current <= SchedulingRoom(sampleRate, maxFrames) {
      RoomLastsIffWorkerKeepsUp(current, frames, sampleRate, maxFrames, stableP99Frames);
    }
  }

  // Whole runs since `Prepare`.

  /** What happens to a prepared suppressor: a callback or a change of the connected channels. */
  datatype HostEvent =
    | Callback(input: seq<Sample>, frames: nat, report: WorkerReport, wetEpoch: nat, userBypass: bool,
               attenuation: real, arrivals: seq<seq<AudioBlock>>)
    | Mask(mask: bv16)

  predicate Accepted(e: HostEvent, channels: nat, maxFrames: nat) {
    e.Callback? && e.frames <= maxFrames && |e.input| == e.frames * channels
  }

  /** The worker's stable cost and the callback fit the room together. */
  predicate KeepsUp(e: HostEvent, sampleRate: nat, maxFrames: nat)
    requires e.Callback?
  {
    StableCost(e.report, sampleRate) + e.frames <= SchedulingRoom(sampleRate, maxFrames)
  }

  ghost predicate AllKeepUp(events: seq<HostEvent>, sampleRate: nat, channels: nat, maxFrames: nat) {
    forall i :: 0 <= i < |events| && Accepted(events[i], channels, maxFrames) ==>
      KeepsUp(events[i], sampleRate, maxFrames)
  }

  function FramesIn(e: HostEvent): nat {
    if e.Callback? then e.frames else 0
  }

  function FramesOf(events: seq<HostEvent>): nat {
    if events == [] then 0 else FramesOf(events[..|events| - 1]) + FramesIn(events[|events| - 1])
  }

  lemma {:induction false} FramesGrow(events: seq<HostEvent>, k: nat)
    requires k <= |events|
    ensures FramesOf(events[..k]) <= FramesOf(events)
  {
    if k == |events| {
      assert events[..k] == events;
    } else {
      FramesGrow(events[..|events| - 1], k);
      assert events[..|events| - 1][..k] == events[..k];
    }
  }

  lemma OneMoreEvent(events: seq<HostEvent>, k: nat, sampleRate: nat, channels: nat, maxFrames: nat)
    requires k < |events|
    ensures AllKeepUp(events[..k + 1], sampleRate, channels, maxFrames)
       <==> AllKeepUp(events[..k], sampleRate, channels, maxFrames)
            && (Accepted(events[k], channels, maxFrames) ==> KeepsUp(events[k], sampleRate, maxFrames))
    ensures FramesOf(events[..k + 1]) == FramesOf(events[..k]) + FramesIn(events[k])
  {
    assert events[..k + 1] == events[..k] + [events[k]];
    assert events[..k + 1][..k] == events[..k];
  }

  /**
  After any events since `Prepare`, dry and wet line up if and only if the worker's stable cost plus the
  callback has stayed within the room at every accepted callback.
  */
  method RunHost(sampleRate: nat, channels: nat, maxFrames: nat, output: BlockQueue, events: seq<HostEvent>)
    returns (suppressor: HushNoiseSuppressor)
    requires sampleRate > 0 && 1 <= channels <= 2 && maxFrames > 0
    requires output.Valid() && output.capacity <= HUSH_QUEUE_CAPACITY
    requires forall e :: e in events && e.Callback? ==> SlotSized(e.arrivals, output.maxSamples)
    requires FramesOf(events) <= U64_MAX
    modifies output, output.slots
    ensures suppressor.Valid()
    ensures suppressor.Aligned() <==> AllKeepUp(events, sampleRate, channels, maxFrames)
  {
    suppressor := new HushNoiseSuppressor.Prepare(sampleRate, channels, maxFrames, output);
    for k := 0 to |events|
      invariant fresh(suppressor) && fresh(suppressor.dryDelay) && fresh(suppressor.dryDelay.samples)
      invariant fresh(suppressor.fallback) && fresh(suppressor.wet)
      invariant suppressor.Valid() && suppressor.output == output
      invariant suppressor.sampleRate == sampleRate && suppressor.channels == channels && suppressor.maxFrames == maxFrames
      invariant suppressor.inputFramePosition <= FramesOf(events[..k])
      invariant suppressor.Aligned() <==> AllKeepUp(events[..k], sampleRate, channels, maxFrames)
    {
      FramesGrow(events, k + 1);
      OneMoreEvent(events, k, sampleRate, channels, maxFrames);
      assert events[k] in events;
      suppressor.Handle(events[k]);
    }
    assert events[..|events|] == events;
  }

  /**
  No callback reports more windows than the frames of the callbacks before it fill: the worker only measures
  what has been submitted since `Prepare`.
  */
  ghost predicate Credible(events: seq<HostEvent>, sampleRate: nat) {
    forall i :: 0 <= i < |events| && events[i].Callback? ==>
      events[i].report.performanceWindows * WindowFrames(sampleRate) <= FramesOf(events[..i])
  }

  /** Until three windows of input have come in nothing can misalign the two signals. */
  lemma KeepsUpWhileWarmingUp(events: seq<HostEvent>, sampleRate: nat, channels: nat, maxFrames: nat)
    requires Credible(events, sampleRate) && FramesOf(events) < HUSH_OVERLOAD_OBSERVATIONS * WindowFrames(sampleRate)
    ensures AllKeepUp(events, sampleRate, channels, maxFrames)
  {
    forall i | 0 <= i < |events| && Accepted(events[i], channels, maxFrames)
      ensures KeepsUp(events[i], sampleRate, maxFrames)
    {
      FramesGrow(events, i);
      var windows := events[i].report.performanceWindows;
      if windows >= HUSH_OVERLOAD_OBSERVATIONS {
        Stride(HUSH_OVERLOAD_OBSERVATIONS, windows, WindowFrames(sampleRate));
        assert false;
      }
    }
  }

  // A run that ends up misaligned.

  /** Frames `from` to `to` of a mono stream that is silent but for sample `at`. */
  function Impulse(at: nat, from: nat, to: nat): (samples: seq<Sample>)
    requires from <= to
    ensures |samples| == to - from
  {
    seq(to - from, k requires 0 <= k < to - from => if from + k == at then 1.0 else 0.0)
  }

  /** A mono suppressor at 48 kHz that has been fed the impulse at `at` so far. */
  ghost predicate FedImpulse(s: HushNoiseSuppressor, at: nat)
    reads s, s.dryDelay, s.dryDelay.samples, s.fallback, s.wet, s.output, s.output.slots
  {
    var fed :=
      && s.Valid()
      && s.sampleRate == 48_000 && s.channels == 1 && s.maxFrames == 480 && s.synthesisDelayFrames == 480
      && s.channelMask == 1
      && s.dryDelay.history == Impulse(at, 0, s.inputFramePosition);
    fed
  }

  method ImpulseBlock(at: nat, position: nat) returns (buffer: array<Sample>)
    ensures fresh(buffer) && buffer.Length == 480
    ensures Impulse(at, 0, position) + buffer[..] == Impulse(at, 0, position + 480)
  {
    buffer := new Sample[480](k requires 0 <= k < 480 => if position + k == at then 1.0 else 0.0);
  }

  /** One callback of 480 frames; what it plays first if the worker has failed. */
  method FeedImpulse(s: HushNoiseSuppressor, at: nat, report: WorkerReport) returns (played: seq<Sample>)
    requires FedImpulse(s, at) && s.inputFramePosition + 480 <= U64_MAX
    modifies s`schedulingFrames, s`inputFramePosition, s.dryDelay, s.dryDelay.samples, s.fallback, s.wet, s.output,
             s.output.slots
    ensures FedImpulse(s, at) && s.inputFramePosition == old(s.inputFramePosition) + 480
    ensures s.schedulingFrames == ObserveQuantum(old(s.schedulingFrames), 480, 48_000, StableCost(report, 48_000))
    ensures |played| == 480
    ensures report.failed ==>
              PlaysDry(played[0], s.dryDelay.history, old(s.inputFramePosition) - s.DryLatency(), 0, 1)
  {
    var position := s.inputFramePosition;
    var buffer := ImpulseBlock(at, position);
    ghost var history, input := s.dryDelay.history, buffer[..];
    var result, reading := s.Process(buffer, 480, report, 0, false, 0.0, []);
    played := buffer[..];
    if report.failed {
      FirstSample(played, history, input, s.DryLatency(), s.schedulingFrames, reading, Key(s.generation, 0, 1),
                  s.channelMask, position);
    }
  }

  /** Before the cost is believed, and after a cost of 160 ms. */
  lemma SlowNumbers(scheduling: nat, failed: bool)
    ensures ObserveQuantum(1920, 480, 48_000, StableCost(WorkerReport(0, 0, false), 48_000)) == 1920
    ensures scheduling <= 8160 ==>
              ObserveQuantum(scheduling, 480, 48_000, StableCost(WorkerReport(3, 160_000_000, failed), 48_000)) == 8160
    ensures SchedulingRoom(48_000, 480) == 7680 && WindowFrames(48_000) == 2400
  {
    assert DivCeil(48_000 * HUSH_SCHEDULING_MS, 1000) == 1920;
  }

  /** The first sample of a dry mono callback. */
  lemma FirstSample(played: seq<Sample>, history: seq<Sample>, input: seq<Sample>, latency: nat, scheduling: nat,
                    reading: Reading, key: Key, mask: bv16, position: nat)
    requires key.channels == 1 && latency > 0 && mask == 1 && |history| == position && |played| > 0
    requires reading.looked <= |reading.seen|
    requires PlayedFrom(played, history, input, latency * key.channels, scheduling, reading, key, mask, false)
    ensures PlaysDry(played[0], history + input, position - latency, 0, 1)
  {
    var queue := reading.seen[..reading.looked];
    var source := PlayedFrame(played, history, input, latency, scheduling, queue, key, mask, false, position, 0);
    assert ChannelIsConnected(mask, 0);
    assert PlaysFrame(played[0], history + input, position, 0, latency, scheduling, queue, key, false, source);
  }

  /** Callbacks of silence while the worker has not measured anything. */
  method FeedSilence(s: HushNoiseSuppressor, at: nat, callbacks: nat)
    requires FedImpulse(s, at) && s.inputFramePosition + 480 * callbacks <= U64_MAX && s.schedulingFrames == 1920
    modifies s`schedulingFrames, s`inputFramePosition, s.dryDelay, s.dryDelay.samples, s.fallback, s.wet, s.output,
             s.output.slots
    ensures FedImpulse(s, at) && s.inputFramePosition == old(s.inputFramePosition) + 480 * callbacks
    ensures s.schedulingFrames == 1920
  {
    for k := 0 to callbacks
      invariant FedImpulse(s, at) && s.schedulingFrames == 1920
      invariant s.inputFramePosition == old(s.inputFramePosition) + 480 * k
    {
      SlowNumbers(1920, false);
      var _ := FeedImpulse(s, at, WorkerReport(0, 0, false));
    }
  }

  /** Callbacks while the worker reports three windows and a stable cost of 160 ms. */
  method FeedSlow(s: HushNoiseSuppressor, at: nat, callbacks: nat)
    requires FedImpulse(s, at) && s.inputFramePosition + 480 * callbacks <= U64_MAX && s.schedulingFrames <= 8160
    modifies s`schedulingFrames, s`inputFramePosition, s.dryDelay, s.dryDelay.samples, s.fallback, s.wet, s.output,
             s.output.slots
    ensures FedImpulse(s, at) && s.inputFramePosition == old(s.inputFramePosition) + 480 * callbacks
    ensures s.schedulingFrames <= 8160
  {
    for k := 0 to callbacks
      invariant FedImpulse(s, at) && s.schedulingFrames <= 8160
      invariant s.inputFramePosition == old(s.inputFramePosition) + 480 * k
    {
      SlowNumbers(s.schedulingFrames, false);
      var _ := FeedImpulse(s, at, WorkerReport(3, 160_000_000, false));
    }
  }

  /**
  A worker that is slow to process its first three windows and then fails.  The first sample after `quiet`
  silent callbacks is due 8640 frames later on the wet timeline, behind scheduling and synthesis; the dry
  signal, which is all the host hears, brings it after 8160.
  */
  method SlowWorkerMisalignsDry(output: BlockQueue, quiet: nat) returns (s: HushNoiseSuppressor, played: seq<Sample>)
    requires output.Valid() && output.capacity <= HUSH_QUEUE_CAPACITY
    requires HUSH_OVERLOAD_OBSERVATIONS * WindowFrames(48_000) <= 480 * quiet && 480 * (quiet + 18) <= U64_MAX
    modifies output, output.slots
    ensures FedImpulse(s, 480 * quiet) && s.inputFramePosition == 480 * (quiet + 18)
    ensures s.schedulingFrames + s.synthesisDelayFrames == 8640
    ensures |played| == 480 && played[0] == 1.0
  {
    s := new HushNoiseSuppressor.Prepare(48_000, 1, 480, output);
    FeedSilence(s, 480 * quiet, quiet);
    FeedSlow(s, 480 * quiet, 17);
    SlowNumbers(s.schedulingFrames, true);
    played := FeedImpulse(s, 480 * quiet, WorkerReport(3, 160_000_000, true));
  }
}
