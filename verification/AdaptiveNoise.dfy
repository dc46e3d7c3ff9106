/**
The frame assembly and lead buffering around the 480-sample denoiser, on the 48 kHz path.
The neural model is an arbitrary function of everything it has been fed.
*/
module AdaptiveNoise {
  import opened ModArith
  import opened AudioBlocks

  const MODEL_FRAME_SIZE: nat := 480
  const SAMPLE_SCALE: real := 32768.0
  const SCHEDULER_LEAD_FRAMES: nat := 1

  /** The longest delay the adapter ever adds, in samples. */
  const MAX_LATENCY: nat := 2 * MODEL_FRAME_SIZE - 1

  datatype EffectError =
    | InternalBufferOverflow
    | InvalidBufferLength(actual: nat, expected: nat)
    | FrameLimitExceeded(frames: nat, maxFrames: nat)

  datatype Outcome = Done | Failed(error: EffectError)

  /** Raw output sample `i` of the newest frame, given every scaled sample fed since the last reset. */
  type Model = (seq<Sample>, nat) -> Sample

  function Clamp(x: Sample): Sample {
    if x < -1.0 then -1.0 else if x > 1.0 then 1.0 else x
  }

  function Scaled(samples: seq<Sample>): (scaled: seq<Sample>)
    ensures |scaled| == |samples|
  {
    seq(|samples|, i requires 0 <= i < |samples| => samples[i] * SAMPLE_SCALE)
  }

  /** The cleaned output of the frame that completes `fed`. */
  function FrameOutput(model: Model, fed: seq<Sample>): (frame: seq<Sample>)
    ensures |frame| == MODEL_FRAME_SIZE
  {
    seq(MODEL_FRAME_SIZE, i requires 0 <= i < MODEL_FRAME_SIZE => Clamp(model(fed, i) / SAMPLE_SCALE))
  }

  /** The first `frames` denoised frames of a channel's sanitized input, concatenated. */
  function Denoised(model: Model, input: seq<Sample>, frames: nat): (output: seq<Sample>)
    requires frames * MODEL_FRAME_SIZE <= |input|
    ensures |output| == frames * MODEL_FRAME_SIZE
  {
    if frames == 0 then []
    else Denoised(model, input, frames - 1) + FrameOutput(model, Scaled(input[..frames * MODEL_FRAME_SIZE]))
  }

  /** Later input never changes frames that are already complete. */
  lemma {:induction false} DenoisedIsCausal(model: Model, input: seq<Sample>, more: seq<Sample>, frames: nat)
    requires frames * MODEL_FRAME_SIZE <= |input|
    ensures Denoised(model, input + more, frames) == Denoised(model, input, frames)
  {
    if frames > 0 {
      DenoisedIsCausal(model, input, more, frames - 1);
      assert (input + more)[..frames * MODEL_FRAME_SIZE] == input[..frames * MODEL_FRAME_SIZE];
    }
  }

  /** `contents` sits in consecutive slots of the ring, starting at `read`. */
  ghost predicate Queued(ring: seq<Sample>, read: nat, contents: seq<Sample>)
    requires |ring| > 0
  {
    forall i :: 0 <= i < |contents| ==> ring[(read + i) % |ring|] == contents[i]
  }

  lemma QueueGrows(ring: seq<Sample>, read: nat, contents: seq<Sample>, sample: Sample)
    requires |contents| < |ring| && Queued(ring, read, contents)
    ensures Queued(ring[(read + |contents|) % |ring| := sample], read, contents + [sample])
  {
    var next := (read + |contents|) % |ring|;
    forall i | 0 <= i < |contents|
      ensures ring[next := sample][(read + i) % |ring|] == contents[i]
    {
      SlotsDiffer(read + i, read + |contents|, |ring|);
    }
  }

  lemma ShiftedSlot(read: nat, take: nat, i: nat, m: nat)
    requires m > 0
    ensures ((read + take) % m + i) % m == (read + (take + i)) % m
  {
    var n := read + take;
    var q, r := (n % m + i) / m, (n % m + i) % m;
    assert n == (n / m) * m + n % m;
    assert n % m + i == q * m + r;
    assert n + i == (n / m + q) * m + r;
    ModUnique(n / m + q, r, m);
  }

  lemma QueueShrinks(ring: seq<Sample>, read: nat, contents: seq<Sample>, take: nat)
    requires |ring| > 0 && take <= |contents| && Queued(ring, read, contents)
    ensures Queued(ring, (read + take) % |ring|, contents[take..])
  {
    var rest, m := contents[take..], |ring|;
    forall i | 0 <= i < |rest|
      ensures ring[((read + take) % m + i) % m] == rest[i]
    {
      ShiftedSlot(read, take, i, m);
      assert rest[i] == contents[take + i];
    }
  }

  /** The fixed-capacity sample queue. */
  class SampleRing {
    const samples: array<Sample>
    var read: nat
    var len: nat
    ghost var contents: seq<Sample>

    ghost predicate Valid()
      reads this, samples
    {
      && samples.Length > 0
      && read < samples.Length
      && len == |contents| <= samples.Length
      && Queued(samples[..], read, contents)
    }

    constructor WithCapacity(capacity: nat)
      ensures Valid() && fresh(samples)
      ensures contents == [] && samples.Length == Max(capacity, 1)
    {
      samples := new Sample[Max(capacity, 1)](_ => 0.0);
      read, len := 0, 0;
      contents := [];
    }

    method Clear()
      requires Valid()
      modifies this
      ensures Valid() && contents == []
    {
      read, len := 0, 0;
      contents := [];
    }

    method Append(sample: Sample)
      requires Valid() && len < samples.Length
      modifies this`len, this`contents, samples
      ensures Valid() && contents == old(contents) + [sample]
    {
      QueueGrows(samples[..], read, contents, sample);
      ghost var ring := samples[..];
      samples[(read + len) % samples.Length] := sample;
      assert samples[..] == ring[(read + len) % samples.Length := sample];
      contents := contents + [sample];
      len := len + 1;
    }

    method PushSlice(input: seq<Sample>) returns (result: Outcome)
      requires Valid()
      modifies this`len, this`contents, samples
      ensures Valid()
      ensures result.Done? <==> |old(contents)| + |input| <= samples.Length
      ensures result == Done || result == Failed(InternalBufferOverflow)
      ensures contents == if result.Done? then old(contents) + input else old(contents)
    {
      if |input| > samples.Length - len {
        return Failed(InternalBufferOverflow);
      }
      for offset := 0 to |input|
        invariant Valid() && contents == old(contents) + input[..offset]
      {
        Append(input[offset]);
      }
      assert input[..|input|] == input;
      result := Done;
    }

    /** Fill `output` from the queue and pad it with silence. */
    method PopOrZero(output: array<Sample>)
      requires Valid() && output != samples
      modifies this, output
      ensures Valid()
      ensures var take := Min(output.Length, |old(contents)|);
        && contents == old(contents)[take..]
        && output[..take] == old(contents)[..take]
        && forall k :: take <= k < output.Length ==> output[k] == 0.0
    {
      var take := Min(output.Length, len);
      var capacity := samples.Length;
      QueueShrinks(samples[..], read, contents, take);
      forall offset | 0 <= offset < take {
        output[offset] := samples[(read + offset) % capacity];
      }
      forall offset | take <= offset < output.Length {
        output[offset] := 0.0;
      }
      read := (read + take) % capacity;
      len := len - take;
      contents := contents[take..];
    }

    /** Give out a sample only while more than one full frame stays queued. */
    method PopWithLead() returns (sample: Sample)
      requires Valid()
      modifies this
      ensures Valid()
      ensures if |old(contents)| <= SCHEDULER_LEAD_FRAMES * MODEL_FRAME_SIZE
        then sample == 0.0 && contents == old(contents)
        else sample == old(contents)[0] && contents == old(contents)[1..]
    {
      var lead := SCHEDULER_LEAD_FRAMES * MODEL_FRAME_SIZE;
      if len <= lead {
        return 0.0;
      }
      QueueShrinks(samples[..], read, contents, 1);
      assert samples[..][(read + 0) % samples.Length] == contents[0];
      ModUnique(0, read, samples.Length);
      sample := samples[read];
      read := (read + 1) % samples.Length;
      len := len - 1;
      contents := contents[1..];
    }
  }

  /** Denoising one more frame appends exactly the next frame of the denoised stream. */
  lemma FrameStep(model: Model, input: seq<Sample>, frames: nat, emitted: nat, fed: seq<Sample>, frame: seq<Sample>)
    requires |frame| == MODEL_FRAME_SIZE && frames * MODEL_FRAME_SIZE + MODEL_FRAME_SIZE <= |input|
    requires fed == Scaled(input[..frames * MODEL_FRAME_SIZE]) && emitted <= frames * MODEL_FRAME_SIZE
    requires frame == input[frames * MODEL_FRAME_SIZE..frames * MODEL_FRAME_SIZE + MODEL_FRAME_SIZE]
    ensures fed + Scaled(frame) == Scaled(input[..(frames + 1) * MODEL_FRAME_SIZE])
    ensures Denoised(model, input, frames)[emitted..] + FrameOutput(model, fed + Scaled(frame))
         == Denoised(model, input, frames + 1)[emitted..]
  {
    var done := frames * MODEL_FRAME_SIZE;
    assert input[..done] + frame == input[..done + MODEL_FRAME_SIZE];
    assert fed + Scaled(frame) == Scaled(input[..done + MODEL_FRAME_SIZE]);
  }

  function Sanitized(sample: Sample): Sample {
    Clamp(sample)
  }

  /** One channel: samples waiting to fill a frame, the denoiser's history, and samples ready to play. */
  class ChannelState {
    const model: Model
    /** `Vec::with_capacity` of `pending`; pushing never grows past it. */
    const pendingCapacity: nat
    const ready: SampleRing
    var pending: seq<Sample>
    /** Everything the denoiser has been fed; stands for its recurrent state. */
    var fed: seq<Sample>

    /** Sanitized input since the last reset, frames denoised so far and samples given out so far. */
    ghost var input: seq<Sample>
    ghost var frames: nat
    ghost var emitted: nat

    ghost predicate Valid()
      reads this, ready, ready.samples
    {
      && ready.Valid()
      && frames * MODEL_FRAME_SIZE <= |input|
      && pending == input[frames * MODEL_FRAME_SIZE..]
      && fed == Scaled(input[..frames * MODEL_FRAME_SIZE])
      && emitted <= frames * MODEL_FRAME_SIZE
      && ready.contents == Denoised(model, input, frames)[emitted..]
    }

    /** Valid, with this sanitized input taken in, frames denoised and samples given out. */
    ghost predicate Holds(samples: seq<Sample>, frames: nat, samplesOut: nat)
      reads this, ready, ready.samples
    {
      Valid() && input == samples && this.frames == frames && emitted == samplesOut
    }

    constructor (model: Model, maxModelFrames: nat)
      ensures Valid() && fresh(ready) && fresh(ready.samples)
      ensures input == [] && frames == emitted == 0
      ensures this.model == model && pendingCapacity == maxModelFrames + MODEL_FRAME_SIZE
      ensures ready.samples.Length == maxModelFrames + (SCHEDULER_LEAD_FRAMES + 2) * MODEL_FRAME_SIZE
    {
      this.model := model;
      pendingCapacity := maxModelFrames + MODEL_FRAME_SIZE;
      ready := new SampleRing.WithCapacity(maxModelFrames + (SCHEDULER_LEAD_FRAMES + 2) * MODEL_FRAME_SIZE);
      pending, fed := [], [];
      input, frames, emitted := [], 0, 0;
    }

    method Reset()
      requires Valid()
      modifies this, ready
      ensures Holds([], 0, 0)
    {
      ready.Clear();
      pending, fed := [], [];
      input, frames, emitted := [], 0, 0;
    }

    /** Push one sanitized sample. */
    method Feed(sample: Sample)
      requires Valid()
      modifies this`pending, this`input
      ensures Valid() && input == old(input) + [Sanitized(sample)]
      ensures Holds(old(input) + [Sanitized(sample)], frames, emitted)
    {
      DenoisedIsCausal(model, input, [Sanitized(sample)], frames);
      assert (input + [Sanitized(sample)])[..frames * MODEL_FRAME_SIZE] == input[..frames * MODEL_FRAME_SIZE];
      pending := pending + [Sanitized(sample)];
      input := input + [Sanitized(sample)];
    }

    /** Denoise the next complete frame, `frame`, which follows `done` samples of `pending`. */
    method ProcessFrame(frame: seq<Sample>)
      requires Valid()
      requires |frame| == MODEL_FRAME_SIZE && frame <= pending
      requires |ready.contents| + MODEL_FRAME_SIZE <= ready.samples.Length
      modifies this`pending, this`fed, this`frames, ready, ready.samples
      ensures Valid()
      ensures frames == old(frames) + 1
      ensures |ready.contents| == |old(ready.contents)| + MODEL_FRAME_SIZE
    {
      FrameStep(model, input, frames, emitted, fed, frame);
      fed := fed + Scaled(frame);
      var output := FrameOutput(model, fed);
      var _ := ready.PushSlice(output);
      pending := pending[MODEL_FRAME_SIZE..];
      frames := frames + 1;
    }

    /** Denoise every complete frame of `pending`; refuse up front if the result would not fit. */
    method ProcessPending() returns (result: Outcome)
      requires Valid()
      modifies this`pending, this`fed, this`frames, ready, ready.samples
      ensures Valid()
      ensures result.Done? <==> |old(ready.contents)| + |old(pending)| - |old(pending)| % MODEL_FRAME_SIZE
                                  <= ready.samples.Length
      ensures result.Done? ==> frames == |input| / MODEL_FRAME_SIZE
      ensures result.Failed? ==> result == Failed(InternalBufferOverflow) && frames == old(frames)
    {
      var frameCount := |pending| / MODEL_FRAME_SIZE;
      if ready.len + frameCount * MODEL_FRAME_SIZE > ready.samples.Length {
        return Failed(InternalBufferOverflow);
      }
      for k := 0 to frameCount
        invariant Valid() && frames == old(frames) + k
        invariant |ready.contents| == |old(ready.contents)| + k * MODEL_FRAME_SIZE
      {
        ProcessFrame(pending[..MODEL_FRAME_SIZE]);
      }
      result := Done;
    }

    /** `ProcessPending` on known contents: it succeeds exactly when the result fits. */
    method ProcessHolding(ghost samples: seq<Sample>, ghost done: nat, ghost samplesOut: nat) returns (result: Outcome)
      requires Holds(samples, done, samplesOut)
      modifies this`pending, this`fed, this`frames, ready, ready.samples
      ensures result.Done? <==>
                |samples| / MODEL_FRAME_SIZE * MODEL_FRAME_SIZE <= samplesOut + ready.samples.Length
      ensures result.Done? ==> Holds(samples, |samples| / MODEL_FRAME_SIZE, samplesOut)
      ensures result.Failed? ==> result == Failed(InternalBufferOverflow)
    {
      result := ProcessPending();
    }

    method PopWithLead() returns (sample: Sample)
      requires Valid()
      modifies this`emitted, ready
      ensures Valid()
      ensures emitted == old(emitted) || (emitted == old(emitted) + 1 && old(emitted) < frames * MODEL_FRAME_SIZE)
      ensures emitted == old(emitted) <==>
                frames * MODEL_FRAME_SIZE - old(emitted) <= SCHEDULER_LEAD_FRAMES * MODEL_FRAME_SIZE
      ensures sample == if emitted == old(emitted) then 0.0 else Denoised(model, input, frames)[old(emitted)]
    {
      sample := ready.PopWithLead();
      if frames * MODEL_FRAME_SIZE - emitted > SCHEDULER_LEAD_FRAMES * MODEL_FRAME_SIZE {
        emitted := emitted + 1;
      }
    }

    /** Pop `k` of a run of pops that began with `start` samples given out. */
    method PopEmission(ghost samples: seq<Sample>, ghost done: nat, ghost start: nat, ghost k: nat) returns (sample: Sample)
      requires start <= done * MODEL_FRAME_SIZE
      requires Holds(samples, done, start + Min(k, Releasable(done, start)))
      modifies this`emitted, ready
      ensures Holds(samples, done, start + Min(k + 1, Releasable(done, start)))
      ensures sample == Emission(model, samples, done, start, k)
    {
      sample := PopWithLead();
    }
  }

  /** Channel `i` of the first `n` interleaved frames, sanitized. */
  function Column(input: seq<Sample>, channels: nat, i: nat, n: nat): (column: seq<Sample>)
    requires i < channels && n * channels <= |input|
    ensures |column| == n
  {
    if n == 0 then []
    else
      Stride(n - 1, n, channels);
      Column(input, channels, i, n - 1) + [Sanitized(input[(n - 1) * channels + i])]
  }

  /** Denoised samples a channel may give out before only the lead stays queued. */
  function Releasable(frames: nat, emitted: nat): nat {
    Max(0, frames * MODEL_FRAME_SIZE - emitted - SCHEDULER_LEAD_FRAMES * MODEL_FRAME_SIZE)
  }

  /** Sample `k` of a channel's next output: the next denoised sample, or a placeholder once the lead is reached. */
  function Emission(model: Model, input: seq<Sample>, frames: nat, emitted: nat, k: nat): Sample
    requires emitted <= frames * MODEL_FRAME_SIZE <= |input|
  {
    if k < Releasable(frames, emitted) then Denoised(model, input, frames)[emitted + k] else 0.0
  }

  predicate Ready(inputs: seq<seq<Sample>>, frames: nat, emitted: nat) {
    emitted <= frames * MODEL_FRAME_SIZE
    && forall i :: 0 <= i < |inputs| ==> frames * MODEL_FRAME_SIZE <= |inputs[i]|
  }

  /** Interleaved output frame `k`, one emission per channel. */
  function EmissionFrame(model: Model, inputs: seq<seq<Sample>>, frames: nat, emitted: nat, k: nat): (frame: seq<Sample>)
    requires Ready(inputs, frames, emitted)
    ensures |frame| == |inputs|
  {
    seq(|inputs|, i requires 0 <= i < |inputs| => Emission(model, inputs[i], frames, emitted, k))
  }

  function EmissionFrames(model: Model, inputs: seq<seq<Sample>>, frames: nat, emitted: nat, n: nat): seq<Sample>
    requires Ready(inputs, frames, emitted)
  {
    if n == 0 then []
    else EmissionFrames(model, inputs, frames, emitted, n - 1) + EmissionFrame(model, inputs, frames, emitted, n - 1)
  }

  /** Interleaving: channel `i` of output frame `k` is that channel's own emission `k`. */
  lemma {:induction false} EmissionAt(model: Model, inputs: seq<seq<Sample>>, frames: nat, emitted: nat, n: nat, k: nat, i: nat)
    requires Ready(inputs, frames, emitted) && k < n && i < |inputs|
    ensures |EmissionFrames(model, inputs, frames, emitted, n)| == n * |inputs|
    ensures 0 <= k * |inputs| + i < n * |inputs|
    ensures EmissionFrames(model, inputs, frames, emitted, n)[k * |inputs| + i]
         == Emission(model, inputs[i], frames, emitted, k)
  {
    EmissionLength(model, inputs, frames, emitted, n);
    EmissionLength(model, inputs, frames, emitted, n - 1);
    Stride(k + 1, n, |inputs|);
    if k < n - 1 {
      EmissionAt(model, inputs, frames, emitted, n - 1, k, i);
    }
  }

  lemma {:induction false} EmissionLength(model: Model, inputs: seq<seq<Sample>>, frames: nat, emitted: nat, n: nat)
    requires Ready(inputs, frames, emitted)
    ensures |EmissionFrames(model, inputs, frames, emitted, n)| == n * |inputs|
  {
    if n > 0 {
      EmissionLength(model, inputs, frames, emitted, n - 1);
      Stride(n - 1, n, |inputs|);
    }
  }

  /** Every channel's input with one more interleaved frame appended. */
  ghost function Extended(inputs: seq<seq<Sample>>, frame: seq<Sample>): (extended: seq<seq<Sample>>)
    requires |inputs| == |frame|
    ensures |extended| == |inputs|
  {
    seq(|inputs|, i requires 0 <= i < |inputs| => inputs[i] + [Sanitized(frame[i])])
  }

  /** Every channel's input with its column of an interleaved block appended. */
  ghost function Taken(inputs: seq<seq<Sample>>, block: seq<Sample>, n: nat): (taken: seq<seq<Sample>>)
    requires n * |inputs| <= |block|
    ensures |taken| == |inputs|
  {
    seq(|inputs|, i requires 0 <= i < |inputs| => inputs[i] + Column(block, |inputs|, i, n))
  }

  lemma NothingTaken(inputs: seq<seq<Sample>>, block: seq<Sample>)
    ensures Taken(inputs, block, 0) == inputs
  {
    forall i | 0 <= i < |inputs|
      ensures Taken(inputs, block, 0)[i] == inputs[i]
    {
      assert inputs[i] + [] == inputs[i];
    }
  }

  lemma TakenGrows(inputs: seq<seq<Sample>>, block: seq<Sample>, f: nat)
    requires f * |inputs| <= f * |inputs| + |inputs| == (f + 1) * |inputs| <= |block|
    ensures Extended(Taken(inputs, block, f), block[f * |inputs|..f * |inputs| + |inputs|])
         == Taken(inputs, block, f + 1)
  {
    var frame := block[f * |inputs|..f * |inputs| + |inputs|];
    forall i | 0 <= i < |inputs|
      ensures Extended(Taken(inputs, block, f), frame)[i] == Taken(inputs, block, f + 1)[i]
    {
      var column := Column(block, |inputs|, i, f);
      assert frame[i] == block[f * |inputs| + i];
      assert inputs[i] + column + [Sanitized(frame[i])] == inputs[i] + (column + [Sanitized(frame[i])]);
    }
  }

  /** Channel objects share no storage. */
  ghost predicate Separate(channels: seq<ChannelState>) {
    forall i, j :: 0 <= i < |channels| && 0 <= j < |channels| && i != j ==>
      && channels[i] != channels[j]
      && channels[i].ready != channels[j].ready
      && channels[i].ready.samples != channels[j].ready.samples
  }

  lemma SeparateGrows(channels: seq<ChannelState>, channel: ChannelState)
    requires Separate(channels)
    requires forall i :: 0 <= i < |channels| ==>
      channels[i] != channel && channels[i].ready != channel.ready && channels[i].ready.samples != channel.ready.samples
    ensures Separate(channels + [channel])
  {
    var more := channels + [channel];
    assert forall i :: 0 <= i < |channels| ==> more[i] == channels[i];
    assert more[|channels|] == channel;
  }

  /** One fresh channel per audio channel. */
  method MakeChannels(count: nat, model: Model, maxModelFrames: nat)
    returns (channels: seq<ChannelState>, ghost footprint: set<object>)
    ensures |channels| == count && Separate(channels) && fresh(footprint)
    ensures forall i :: 0 <= i < count ==>
      && channels[i] in footprint && channels[i].ready in footprint && channels[i].ready.samples in footprint
      && channels[i].Holds([], 0, 0)
      && channels[i].model == model
      && channels[i].pendingCapacity == maxModelFrames + MODEL_FRAME_SIZE
      && channels[i].ready.samples.Length == maxModelFrames + (SCHEDULER_LEAD_FRAMES + 2) * MODEL_FRAME_SIZE
  {
    channels, footprint := [], {};
    for k := 0 to count
      invariant |channels| == k && Separate(channels) && fresh(footprint)
      invariant forall i :: 0 <= i < k ==>
        && channels[i] in footprint && channels[i].ready in footprint && channels[i].ready.samples in footprint
        && channels[i].Holds([], 0, 0)
        && channels[i].model == model
        && channels[i].pendingCapacity == maxModelFrames + MODEL_FRAME_SIZE
        && channels[i].ready.samples.Length == maxModelFrames + (SCHEDULER_LEAD_FRAMES + 2) * MODEL_FRAME_SIZE
    {
      var channel := new ChannelState(model, maxModelFrames);
      SeparateGrows(channels, channel);
      channels := channels + [channel];
      footprint := footprint + {channel, channel.ready, channel.ready.samples};
    }
  }

  /** All channels in lockstep: blocks of any size in, as many samples out, whole frames in between. */
  class NeuralCore {
    const channels: seq<ChannelState>
    const maxModelFrames: nat
    const model: Model
    /** Every object the channels are made of. */
    ghost const footprint: set<object>

    /** Sanitized input of every channel, and how many denoised samples each has given out. */
    ghost var inputs: seq<seq<Sample>>
    ghost var emitted: nat

    constructor (count: nat, maxModelFrames: nat, model: Model)
      requires count > 0
      ensures Valid() && fresh(footprint)
      ensures |channels| == count && this.maxModelFrames == maxModelFrames && this.model == model
      ensures Total() == emitted == 0
      ensures inputs == seq(count, _ => [])
    {
      var list, objects := MakeChannels(count, model, maxModelFrames);
      channels, footprint := list, objects;
      this.maxModelFrames, this.model := maxModelFrames, model;
      inputs, emitted := seq(count, _ => []), 0;
    }

    /** How the channels were built; none of this ever changes. */
    ghost predicate Shape() {
      && |channels| > 0
      && Separate(channels)
      && this !in footprint
      && forall i :: 0 <= i < |channels| ==>
           && channels[i] in footprint && channels[i].ready in footprint && channels[i].ready.samples in footprint
           && channels[i].model == model
           && channels[i].pendingCapacity == maxModelFrames + MODEL_FRAME_SIZE
           && channels[i].ready.samples.Length == maxModelFrames + (SCHEDULER_LEAD_FRAMES + 2) * MODEL_FRAME_SIZE
    }

    /** All channels are in the same position, each with its own input. */
    ghost predicate Lockstep(samples: seq<seq<Sample>>, frames: nat, samplesOut: nat)
      reads footprint
    {
      && Shape()
      && |samples| == |channels|
      && forall i :: 0 <= i < |channels| ==> channels[i].Holds(samples[i], frames, samplesOut)
    }

    /** Samples each channel has taken in since the last reset. */
    ghost function Total(): nat
      reads this
    {
      if inputs == [] then 0 else |inputs[0]|
    }

    /** Every channel has taken in `total` samples, denoised all whole frames and given out `out` samples. */
    ghost predicate InStep(samples: seq<seq<Sample>>, total: nat, out: nat)
      reads footprint
    {
      // Named, so that it is proved and used as one fact.
      var inStep :=
        && Lockstep(samples, total / MODEL_FRAME_SIZE, out)
        && forall i :: 0 <= i < |samples| ==> |samples[i]| == total;
      inStep
    }

    ghost predicate Valid()
      reads this, footprint
    {
      InStep(inputs, Total(), emitted)
    }

    method Reset()
      requires Valid()
      modifies this, footprint
      ensures Valid() && Total() == emitted == 0
      ensures inputs == seq(|channels|, _ => [])
    {
      ghost var before, frames, out := inputs, Total() / MODEL_FRAME_SIZE, emitted;
      for j := 0 to |channels|
        invariant forall i :: 0 <= i < j ==> channels[i].Holds([], 0, 0)
        invariant forall i :: j <= i < |channels| ==> channels[i].Holds(before[i], frames, out)
      {
        channels[j].Reset();
      }
      inputs, emitted := seq(|channels|, _ => []), 0;
    }

    /** `n` samples in and `out` out leave the denoised remainder within the ready ring. */
    ghost predicate HasRoom(n: nat, out: nat) {
      n / MODEL_FRAME_SIZE * MODEL_FRAME_SIZE <= out + maxModelFrames + (SCHEDULER_LEAD_FRAMES + 2) * MODEL_FRAME_SIZE
    }

    /** Feed one interleaved frame, one sample to each channel. */
    method FeedFrame(frame: seq<Sample>, ghost before: seq<seq<Sample>>, ghost frames: nat, ghost out: nat)
      requires Lockstep(before, frames, out) && |frame| == |channels|
      modifies footprint
      ensures Lockstep(Extended(before, frame), frames, out)
    {
      for j := 0 to |channels|
        invariant forall i :: 0 <= i < j ==> channels[i].Holds(before[i] + [Sanitized(frame[i])], frames, out)
        invariant forall i :: j <= i < |channels| ==> channels[i].Holds(before[i], frames, out)
      {
        channels[j].Feed(frame[j]);
      }
    }

    /** Denoise what has arrived on every channel. */
    method ProcessAll(ghost n: nat, ghost samples: seq<seq<Sample>>, ghost frames: nat, ghost out: nat)
      returns (result: Outcome)
      requires Lockstep(samples, frames, out)
      requires forall i :: 0 <= i < |samples| ==> |samples[i]| == n
      modifies footprint
      ensures result.Done? <==> HasRoom(n, out)
      ensures result.Done? ==> Lockstep(samples, n / MODEL_FRAME_SIZE, out)
      ensures result.Failed? ==> result == Failed(InternalBufferOverflow)
    {
      for j := 0 to |channels|
        invariant j > 0 ==> HasRoom(n, out)
        invariant forall i :: 0 <= i < j ==> channels[i].Holds(samples[i], n / MODEL_FRAME_SIZE, out)
        invariant forall i :: j <= i < |channels| ==> channels[i].Holds(samples[i], frames, out)
      {
        result := channels[j].ProcessHolding(samples[j], frames, out);
        if result.Failed? {
          return;
        }
      }
      result := Done;
    }

    /** Deinterleave and sanitize a whole block. */
    method FeedAll(input: seq<Sample>, n: nat, ghost before: seq<seq<Sample>>, ghost frames: nat, ghost out: nat)
      requires Lockstep(before, frames, out) && |input| == n * |channels|
      modifies footprint
      ensures Lockstep(Taken(before, input, n), frames, out)
    {
      NothingTaken(before, input);
      for f := 0 to n
        invariant f * |channels| <= |input|
        invariant Lockstep(Taken(before, input, f), frames, out)
      {
        Stride(f + 1, n, |channels|);
        Stride(f, f + 1, |channels|);
        var frame := input[f * |channels|..f * |channels| + |channels|];
        TakenGrows(before, input, f);
        FeedFrame(frame, Taken(before, input, f), frames, out);
      }
    }

    /** One interleaved output frame. */
    method PopFrame(ghost samples: seq<seq<Sample>>, ghost frames: nat, ghost start: nat, ghost k: nat)
      returns (frame: seq<Sample>)
      requires Ready(samples, frames, start)
      requires Lockstep(samples, frames, start + Min(k, Releasable(frames, start)))
      modifies footprint
      ensures Lockstep(samples, frames, start + Min(k + 1, Releasable(frames, start)))
      ensures frame == EmissionFrame(model, samples, frames, start, k)
    {
      frame := [];
      for j := 0 to |channels|
        invariant forall i :: 0 <= i < j ==>
          channels[i].Holds(samples[i], frames, start + Min(k + 1, Releasable(frames, start)))
        invariant forall i :: j <= i < |channels| ==>
          channels[i].Holds(samples[i], frames, start + Min(k, Releasable(frames, start)))
        invariant frame == EmissionFrame(model, samples, frames, start, k)[..j]
      {
        var sample := channels[j].PopEmission(samples[j], frames, start, k);
        frame := frame + [sample];
      }
    }

    method PopAll(n: nat, ghost samples: seq<seq<Sample>>, ghost frames: nat, ghost start: nat)
      returns (output: seq<Sample>)
      requires Ready(samples, frames, start)
      requires Lockstep(samples, frames, start)
      modifies footprint
      ensures Lockstep(samples, frames, start + Min(n, Releasable(frames, start)))
      ensures output == EmissionFrames(model, samples, frames, start, n)
    {
      output := [];
      for k := 0 to n
        invariant Lockstep(samples, frames, start + Min(k, Releasable(frames, start)))
        invariant output == EmissionFrames(model, samples, frames, start, k)
      {
        var frame := PopFrame(samples, frames, start, k);
        output := output + frame;
      }
    }
  
    /** The pending samples and `n` more frames fit their buffers. */
    ghost predicate PendingFits(n: nat)
      reads this
    {
      Total() % MODEL_FRAME_SIZE + n <= maxModelFrames + MODEL_FRAME_SIZE
    }

    /** There is room to take in `n` more frames. */
    ghost predicate Fits(n: nat)
      reads this
    {
      PendingFits(n) && HasRoom(Total() + n, emitted)
    }

    /** With everything fed: denoise complete frames, then give out `n` samples per channel. */
    method DenoiseAndPop(n: nat, ghost total: nat, ghost taken: seq<seq<Sample>>, ghost frames: nat)
      returns (result: Outcome, output: seq<Sample>)
      requires Lockstep(taken, frames, emitted)
      requires forall i :: 0 <= i < |taken| ==> |taken[i]| == total
      modifies this, footprint
      ensures result.Done? <==> HasRoom(total, old(emitted))
      ensures result.Failed? ==> result == Failed(InternalBufferOverflow)
      ensures result.Done? ==>
        && Valid() && inputs == taken && Total() == total
        && Ready(taken, total / MODEL_FRAME_SIZE, old(emitted))
        && emitted == old(emitted) + Min(n, Releasable(total / MODEL_FRAME_SIZE, old(emitted)))
        && output == EmissionFrames(model, taken, total / MODEL_FRAME_SIZE, old(emitted), n)
    {
      output := [];
      assert |taken| == |channels| > 0 && this !in footprint;
      result := ProcessAll(total, taken, frames, emitted);
      if result.Done? {
        assert channels[0].Holds(taken[0], total / MODEL_FRAME_SIZE, emitted);
        output := PopAll(n, taken, total / MODEL_FRAME_SIZE, emitted);
        inputs := taken;
        emitted := emitted + Min(n, Releasable(total / MODEL_FRAME_SIZE, emitted));
        assert Total() == total;
      }
    }

    /** A block of `n` frames whose pending samples fit. */
    method ProcessBlock(input: seq<Sample>, n: nat) returns (result: Outcome, output: seq<Sample>)
      requires Valid() && |input| == n * |channels|
      modifies this, footprint
      ensures |old(inputs)| == |channels|
      ensures result.Done? <==> HasRoom(old(Total()) + n, old(emitted))
      ensures result.Failed? ==> result == Failed(InternalBufferOverflow)
      ensures result.Done? ==>
        && Valid()
        && inputs == Taken(old(inputs), input, n)
        && Total() == old(Total()) + n
        && Ready(inputs, Total() / MODEL_FRAME_SIZE, old(emitted))
        && emitted == old(emitted) + Min(n, Releasable(Total() / MODEL_FRAME_SIZE, old(emitted)))
        && output == EmissionFrames(model, inputs, Total() / MODEL_FRAME_SIZE, old(emitted), n)
    {
      assert |inputs| == |channels| && this !in footprint;
      ghost var taken, total := Taken(inputs, input, n), Total() + n;
      FeedAll(input, n, inputs, Total() / MODEL_FRAME_SIZE, emitted);
      result, output := DenoiseAndPop(n, total, taken, Total() / MODEL_FRAME_SIZE);
    }

    /**
    One block through the core: take it in, denoise complete frames, give out one sample per sample.
    It fails exactly when the block is not whole frames or does not fit; found out before anything is fed,
    that changes nothing.
    */
    method Process(input: seq<Sample>) returns (result: Outcome, output: seq<Sample>)
      requires Valid()
      modifies this, footprint
      ensures |old(inputs)| == |channels| > 0
      ensures |input| % |channels| != 0 ==>
        && result == Failed(InvalidBufferLength(|input|, |input| - |input| % |channels|))
        && Valid() && inputs == old(inputs) && emitted == old(emitted)
      ensures |input| % |channels| == 0 && !old(Fits(|input| / |channels|)) ==> result == Failed(InternalBufferOverflow)
      ensures |input| % |channels| == 0 && !old(PendingFits(|input| / |channels|)) ==>
        Valid() && inputs == old(inputs) && emitted == old(emitted)
      ensures |input| % |channels| == 0 && old(Fits(|input| / |channels|)) ==>
        var n := |input| / |channels|;
        && result == Done
        && Valid()
        && n * |channels| <= |input|
        && inputs == Taken(old(inputs), input, n)
        && Total() == old(Total()) + n
        && Ready(inputs, Total() / MODEL_FRAME_SIZE, old(emitted))
        && emitted == old(emitted) + Min(n, Releasable(Total() / MODEL_FRAME_SIZE, old(emitted)))
        && output == EmissionFrames(model, inputs, Total() / MODEL_FRAME_SIZE, old(emitted), n)
    {
      output := [];
      if |input| % |channels| != 0 {
        return Failed(InvalidBufferLength(|input|, |input| - |input| % |channels|)), [];
      }
      var n := |input| / |channels|;
      assert n * |channels| == |input|;
      for i := 0 to |channels|
        invariant i > 0 ==> PendingFits(n)
      {
        assert channels[i].Holds(inputs[i], Total() / MODEL_FRAME_SIZE, emitted);
        if |channels[i].pending| + n > channels[i].pendingCapacity {
          return Failed(InternalBufferOverflow), [];
        }
      }
      result, output := ProcessBlock(input, n);
    }
  }

  // Whole runs of one channel.

  /** What one output position carries. */
  datatype Output = Denoise(sample: Sample) | Placeholder

  /** The audible value: a placeholder plays as silence. */
  function Audible(o: Output): Sample {
    match o case Denoise(sample) => sample case Placeholder => 0.0
  }

  /** The non-placeholder samples, in order. */
  function Denoises(outputs: seq<Output>): seq<Sample> {
    if outputs == [] then []
    else Denoises(outputs[..|outputs| - 1]) + match outputs[|outputs| - 1] {
      case Denoise(sample) => [sample]
      case Placeholder => []
    }
  }

  function PlaceholderCount(outputs: seq<Output>): nat {
    if outputs == [] then 0
    else PlaceholderCount(outputs[..|outputs| - 1]) + if outputs[|outputs| - 1].Placeholder? then 1 else 0
  }

  /** One callback's output for a channel that has now taken in `input` and had given out `emitted`. */
  function CallbackOutput(model: Model, input: seq<Sample>, emitted: nat, n: nat): (outputs: seq<Output>)
    requires emitted <= |input| / MODEL_FRAME_SIZE * MODEL_FRAME_SIZE
    ensures |outputs| == n
  {
    var frames := |input| / MODEL_FRAME_SIZE;
    seq(n, k requires 0 <= k < n =>
      if k < Releasable(frames, emitted) then Denoise(Denoised(model, input, frames)[emitted + k]) else Placeholder)
  }

  /**
  Nothing lost, repeated or reordered so far: the denoised samples given out are a prefix of the
  denoised input, one output per input, and the placeholders in between never exceed the latency bound.
  */
  ghost predicate Faithful(model: Model, input: seq<Sample>, emitted: nat, outputs: seq<Output>) {
    && emitted <= |input| / MODEL_FRAME_SIZE * MODEL_FRAME_SIZE
    && |outputs| == |input|
    && Denoises(outputs) == Denoised(model, input, |input| / MODEL_FRAME_SIZE)[..emitted]
    && PlaceholderCount(outputs) == |input| - emitted <= MAX_LATENCY
  }

  lemma {:induction false} DenoisesAppend(a: seq<Output>, b: seq<Output>)
    ensures Denoises(a + b) == Denoises(a) + Denoises(b)
    ensures PlaceholderCount(a + b) == PlaceholderCount(a) + PlaceholderCount(b)
  {
    if b == [] {
      assert a + b == a;
    } else {
      var c := b[..|b| - 1];
      DenoisesAppend(a, c);
      assert (a + b)[..|a + b| - 1] == a + c;
    }
  }

  lemma {:induction false} CallbackDenoises(model: Model, input: seq<Sample>, emitted: nat, n: nat)
    requires emitted <= |input| / MODEL_FRAME_SIZE * MODEL_FRAME_SIZE
    ensures var frames := |input| / MODEL_FRAME_SIZE;
      var released := Min(n, Releasable(frames, emitted));
      && emitted + released <= frames * MODEL_FRAME_SIZE
      && Denoises(CallbackOutput(model, input, emitted, n)) == Denoised(model, input, frames)[emitted..emitted + released]
      && PlaceholderCount(CallbackOutput(model, input, emitted, n)) == n - released
  {
    if n > 0 {
      CallbackDenoises(model, input, emitted, n - 1);
      var outputs := CallbackOutput(model, input, emitted, n);
      assert outputs[..n - 1] == CallbackOutput(model, input, emitted, n - 1);
    }
  }

  lemma {:induction false} DenoisedPrefix(model: Model, input: seq<Sample>, frames: nat, more: nat)
    requires frames <= more && more * MODEL_FRAME_SIZE <= |input|
    ensures Denoised(model, input, frames) == Denoised(model, input, more)[..frames * MODEL_FRAME_SIZE]
  {
    if frames < more {
      DenoisedPrefix(model, input, frames, more - 1);
    }
  }

  /** The latency arithmetic: whatever the callback size, placeholders stay within 959 and never shrink. */
  lemma LatencyBounded(total: nat, emitted: nat, n: nat)
    requires emitted <= total / MODEL_FRAME_SIZE * MODEL_FRAME_SIZE && total - emitted <= MAX_LATENCY
    ensures var frames := (total + n) / MODEL_FRAME_SIZE;
      var released := Min(n, Releasable(frames, emitted));
      && total - emitted <= total + n - (emitted + released) <= MAX_LATENCY
      && emitted + released <= frames * MODEL_FRAME_SIZE
      && frames * MODEL_FRAME_SIZE <= emitted + n + MAX_LATENCY
  {
  }

  /** One callback of any size keeps the channel faithful. */
  lemma CallbackKeepsFaithful(model: Model, input: seq<Sample>, emitted: nat, outputs: seq<Output>, block: seq<Sample>)
    requires Faithful(model, input, emitted, outputs)
    ensures var all := input + block;
      var frames := |all| / MODEL_FRAME_SIZE;
      && emitted <= frames * MODEL_FRAME_SIZE
      && Faithful(model, all, emitted + Min(|block|, Releasable(frames, emitted)),
                  outputs + CallbackOutput(model, all, emitted, |block|))
  {
    var all := input + block;
    var before, frames := |input| / MODEL_FRAME_SIZE, |all| / MODEL_FRAME_SIZE;
    LatencyBounded(|input|, emitted, |block|);
    DenoisesAppend(outputs, CallbackOutput(model, all, emitted, |block|));
    CallbackDenoises(model, all, emitted, |block|);
    SameStream(model, input, block, all, before, frames, emitted);
    var stream, released := Denoised(model, all, frames), Min(|block|, Releasable(frames, emitted));
    assert stream[..emitted] + stream[emitted..emitted + released] == stream[..emitted + released];
  }

  /** More input leaves what has been given out as it was. */
  lemma SameStream(model: Model, input: seq<Sample>, block: seq<Sample>, all: seq<Sample>, before: nat, frames: nat,
                   emitted: nat)
    requires all == input + block && before * MODEL_FRAME_SIZE <= |input| && frames * MODEL_FRAME_SIZE <= |all|
    requires emitted <= before * MODEL_FRAME_SIZE && before <= frames
    ensures emitted <= frames * MODEL_FRAME_SIZE
    ensures Denoised(model, input, before)[..emitted] == Denoised(model, all, frames)[..emitted]
  {
    DenoisedIsCausal(model, input, block, before);
    DenoisedPrefix(model, all, before, frames);
  }

  function Joined(callbacks: seq<seq<Sample>>): seq<Sample> {
    if callbacks == [] then [] else Joined(callbacks[..|callbacks| - 1]) + callbacks[|callbacks| - 1]
  }

  /** Outputs of, and samples given out by, a channel over a run of callbacks since a reset. */
  function ChannelRun(model: Model, callbacks: seq<seq<Sample>>): (run: (seq<Output>, nat))
    ensures run.1 <= |Joined(callbacks)| / MODEL_FRAME_SIZE * MODEL_FRAME_SIZE
  {
    if callbacks == [] then ([], 0)
    else
      var (outputs, emitted) := ChannelRun(model, callbacks[..|callbacks| - 1]);
      var all, n := Joined(callbacks), |callbacks[|callbacks| - 1]|;
      (outputs + CallbackOutput(model, all, emitted, n),
       emitted + Min(n, Releasable(|all| / MODEL_FRAME_SIZE, emitted)))
  }

  /**
  For every sequence of callback sizes: the denoised output is a prefix of the denoised input however
  the input was cut, and placeholders equal the samples still held back, at most 959 of them, forever.
  */
  lemma {:induction false} EveryRunIsFaithful(model: Model, callbacks: seq<seq<Sample>>)
    ensures Faithful(model, Joined(callbacks), ChannelRun(model, callbacks).1, ChannelRun(model, callbacks).0)
  {
    if callbacks == [] {
      assert Denoised(model, [], 0)[..0] == [];
    } else {
      var before := callbacks[..|callbacks| - 1];
      EveryRunIsFaithful(model, before);
      var (outputs, emitted) := ChannelRun(model, before);
      CallbackKeepsFaithful(model, Joined(before), emitted, outputs, callbacks[|callbacks| - 1]);
    }
  }

  /** Two ways of cutting the same input give the same denoised samples, as far as both have got. */
  lemma CutsAgree(model: Model, callbacks: seq<seq<Sample>>, other: seq<seq<Sample>>)
    requires Joined(callbacks) == Joined(other)
    ensures var a, b := Denoises(ChannelRun(model, callbacks).0), Denoises(ChannelRun(model, other).0);
      a <= b || b <= a
  {
    EveryRunIsFaithful(model, callbacks);
    EveryRunIsFaithful(model, other);
  }

  /** What the interleaved buffer holds for a channel is that channel's own callback output. */
  lemma PlaysItsOwnOutput(model: Model, inputs: seq<seq<Sample>>, total: nat, emitted: nat, n: nat, k: nat, i: nat)
    requires i < |inputs| && k < n && forall j :: 0 <= j < |inputs| ==> |inputs[j]| == total
    requires emitted <= total / MODEL_FRAME_SIZE * MODEL_FRAME_SIZE
    ensures Ready(inputs, total / MODEL_FRAME_SIZE, emitted)
    ensures 0 <= k * |inputs| + i < |EmissionFrames(model, inputs, total / MODEL_FRAME_SIZE, emitted, n)|
    ensures EmissionFrames(model, inputs, total / MODEL_FRAME_SIZE, emitted, n)[k * |inputs| + i]
         == Audible(CallbackOutput(model, inputs[i], emitted, n)[k])
  {
    EmissionAt(model, inputs, total / MODEL_FRAME_SIZE, emitted, n, k, i);
  }

  /** Every channel is faithful to its own input. */
  ghost predicate AllFaithful(model: Model, inputs: seq<seq<Sample>>, emitted: nat, played: seq<seq<Output>>) {
    var allFaithful :=
      && |played| == |inputs|
      && forall i :: 0 <= i < |inputs| ==> Faithful(model, inputs[i], emitted, played[i]);
    allFaithful
  }

  /** Every channel's history with one more callback appended. */
  ghost function Extend(played: seq<seq<Output>>, model: Model, inputs: seq<seq<Sample>>, emitted: nat, n: nat)
    : (extended: seq<seq<Output>>)
    requires |played| == |inputs|
    requires forall i :: 0 <= i < |inputs| ==> emitted <= |inputs[i]| / MODEL_FRAME_SIZE * MODEL_FRAME_SIZE
    ensures |extended| == |played|
  {
    seq(|played|, i requires 0 <= i < |played| => played[i] + CallbackOutput(model, inputs[i], emitted, n))
  }

  lemma StaysFaithful(model: Model, input: seq<Sample>, total: nat, emitted: nat, outputs: seq<Output>,
                      block: seq<Sample>, n: nat, all: seq<Sample>, after: nat)
    requires Faithful(model, input, emitted, outputs) && |input| == total && |block| == n && all == input + block
    requires after == emitted + Min(n, Releasable((total + n) / MODEL_FRAME_SIZE, emitted))
    ensures |all| == total + n && emitted <= |all| / MODEL_FRAME_SIZE * MODEL_FRAME_SIZE
    ensures Faithful(model, all, after, outputs + CallbackOutput(model, all, emitted, n))
  {
    CallbackKeepsFaithful(model, input, emitted, outputs, block);
  }

  /** Every channel's history has grown by this callback's output. */
  ghost predicate PlayedOn(before: seq<seq<Output>>, model: Model, inputs: seq<seq<Sample>>, emitted: nat, n: nat,
                           after: seq<seq<Output>>) {
    var playedOn :=
      && |before| == |inputs|
      && (forall i :: 0 <= i < |inputs| ==> emitted <= |inputs[i]| / MODEL_FRAME_SIZE * MODEL_FRAME_SIZE)
      && after == Extend(before, model, inputs, emitted, n);
    playedOn
  }

  lemma AllStayFaithful(model: Model, inputs: seq<seq<Sample>>, total: nat, emitted: nat, played: seq<seq<Output>>,
                        block: seq<Sample>, n: nat)
    requires AllFaithful(model, inputs, emitted, played) && n * |inputs| <= |block|
    requires forall i :: 0 <= i < |inputs| ==> |inputs[i]| == total
    ensures var taken := Taken(inputs, block, n);
      && (forall i :: 0 <= i < |inputs| ==>
            |taken[i]| == total + n && emitted <= |taken[i]| / MODEL_FRAME_SIZE * MODEL_FRAME_SIZE)
      && AllFaithful(model, taken, emitted + Min(n, Releasable((total + n) / MODEL_FRAME_SIZE, emitted)),
                     Extend(played, model, taken, emitted, n))
  {
    var taken := Taken(inputs, block, n);
    var after := emitted + Min(n, Releasable((total + n) / MODEL_FRAME_SIZE, emitted));
    forall i | 0 <= i < |inputs|
      ensures |taken[i]| == total + n && emitted <= |taken[i]| / MODEL_FRAME_SIZE * MODEL_FRAME_SIZE
      ensures Faithful(model, taken[i], after, played[i] + CallbackOutput(model, taken[i], emitted, n))
    {
      StaysFaithful(model, inputs[i], total, emitted, played[i], Column(block, |inputs|, i, n), n, taken[i], after);
    }
  }

  /** The extended histories, faithful again. */
  lemma StayFaithful(model: Model, inputs: seq<seq<Sample>>, total: nat, emitted: nat, played: seq<seq<Output>>,
                     block: seq<Sample>, n: nat, taken: seq<seq<Sample>>, after: nat)
    returns (extended: seq<seq<Output>>)
    requires AllFaithful(model, inputs, emitted, played) && n * |inputs| <= |block|
    requires forall i :: 0 <= i < |inputs| ==> |inputs[i]| == total
    requires taken == Taken(inputs, block, n)
    requires after == emitted + Min(n, Releasable((total + n) / MODEL_FRAME_SIZE, emitted))
    ensures forall i :: 0 <= i < |taken| ==> emitted <= |taken[i]| / MODEL_FRAME_SIZE * MODEL_FRAME_SIZE
    ensures extended == Extend(played, model, taken, emitted, n)
    ensures AllFaithful(model, taken, after, extended)
  {
    AllStayFaithful(model, inputs, total, emitted, played, block, n);
    extended := Extend(played, model, taken, emitted, n);
  }

  /** The complete 48 kHz stream adapter, where no resampler is configured. */
  class NeuralStream {
    const core: NeuralCore
    const output: SampleRing
    const channels: nat
    const maxFrames: nat
    /** Everything each channel has put out since the last reset. */
    ghost var played: seq<seq<Output>>

    ghost predicate Valid()
      reads this, core, core.footprint, output, output.samples
    {
      Wired() && AllFaithful(core.model, core.inputs, core.emitted, played)
    }

    ghost predicate Wired()
      reads core, core.footprint, output, output.samples
    {
      var wired :=
        && core.Valid() && output.Valid()
        && output !in core.footprint && output.samples !in core.footprint && this !in core.footprint
        && channels == |core.channels|
        && core.maxModelFrames == maxFrames + 2 * MODEL_FRAME_SIZE
        && output.samples.Length == (maxFrames + 4 * MODEL_FRAME_SIZE) * channels
        && output.contents == []
        && core.emitted <= core.Total() / MODEL_FRAME_SIZE * MODEL_FRAME_SIZE
        && core.Total() - core.emitted <= MAX_LATENCY;
      wired
    }

    /** `new` at 48 kHz: no resampler, and buffers sized from the largest callback. */
    constructor (channels: nat, maxFrames: nat, model: Model)
      requires channels > 0
      ensures Valid()
      ensures this.channels == channels && this.maxFrames == maxFrames && core.model == model
      ensures core.Total() == core.emitted == 0
      ensures fresh(core) && fresh(core.footprint) && fresh(output) && fresh(output.samples)
    {
      var modelFrames := maxFrames + 2 * MODEL_FRAME_SIZE;
      var c := new NeuralCore(channels, modelFrames, model);
      Stride(1, maxFrames + 4 * MODEL_FRAME_SIZE, channels);
      var ring := new SampleRing.WithCapacity((maxFrames + 4 * MODEL_FRAME_SIZE) * channels);
      core, output := c, ring;
      this.channels, this.maxFrames := channels, maxFrames;
      played := seq(channels, _ => []);
      EveryRunIsFaithful(model, []);
    }

    /** No callback of at most `maxFrames` frames can overflow a buffer. */
    lemma NeverOverflows(frames: nat)
      requires Wired() && frames <= maxFrames
      ensures core.Fits(frames)
    {
      LatencyBounded(core.Total(), core.emitted, frames);
    }

    method Reset()
      requires Valid()
      modifies this, core, core.footprint, output
      ensures Valid() && core.Total() == core.emitted == 0
      ensures played == seq(channels, _ => [])
    {
      core.Reset();
      output.Clear();
      played := seq(channels, _ => []);
      EveryRunIsFaithful(core.model, []);
    }

    /** Push the core's output into the ring and pop all of it into the callback buffer. */
    method ThroughRing(processed: seq<Sample>, buffer: array<Sample>)
      requires output.Valid() && output.contents == [] && buffer != output.samples
      requires |processed| == buffer.Length <= output.samples.Length
      modifies output, output.samples, buffer
      ensures output.Valid() && output.contents == []
      ensures buffer[..] == processed
    {
      var _ := output.PushSlice(processed);
      output.PopOrZero(buffer);
    }

    /** A whole buffer of at most `maxFrames` frames always goes through. */
    method ProcessWhole(buffer: array<Sample>, frames: nat)
      requires Wired() && frames <= maxFrames && buffer.Length == frames * channels
      requires buffer !in core.footprint && buffer != output.samples
      modifies core, core.footprint, output, output.samples, buffer
      ensures Wired() && |old(core.inputs)| == channels
      ensures core.inputs == Taken(old(core.inputs), old(buffer[..]), frames)
      ensures core.Total() == old(core.Total()) + frames
      ensures Ready(core.inputs, core.Total() / MODEL_FRAME_SIZE, old(core.emitted))
      ensures core.emitted
           == old(core.emitted) + Min(frames, Releasable(core.Total() / MODEL_FRAME_SIZE, old(core.emitted)))
      ensures buffer[..]
           == EmissionFrames(core.model, core.inputs, core.Total() / MODEL_FRAME_SIZE, old(core.emitted), frames)
    {
      NeverOverflows(frames);
      LatencyBounded(core.Total(), core.emitted, frames);
      WholeFrames(frames, channels);
      Stride(frames, maxFrames + 4 * MODEL_FRAME_SIZE, channels);
      ghost var emitted := core.emitted;
      var _, processed := core.Process(buffer[..]);
      EmissionLength(core.model, core.inputs, core.Total() / MODEL_FRAME_SIZE, emitted, frames);
      ThroughRing(processed, buffer);
    }

    /**
    One callback, up to the gain stage.  It fails exactly when there are more than `maxFrames` frames or
    the buffer does not hold that many, and then changes nothing; otherwise every channel plays exactly
    its own next denoised samples and placeholders.
    */
    method Process(buffer: array<Sample>, frames: nat) returns (result: Outcome)
      requires Valid()
      requires buffer !in core.footprint && buffer != output.samples
      modifies this, core, core.footprint, output, output.samples, buffer
      ensures Valid()
      ensures result == if frames > maxFrames then Failed(FrameLimitExceeded(frames, maxFrames))
                        else if buffer.Length != frames * channels
                        then Failed(InvalidBufferLength(buffer.Length, frames * channels))
                        else Done
      ensures result.Failed? ==>
        && buffer[..] == old(buffer[..]) && played == old(played) && core.inputs == old(core.inputs)
        && core.emitted == old(core.emitted)
      ensures result.Done? ==>
        && core.inputs == Taken(old(core.inputs), old(buffer[..]), frames)
        && Ready(core.inputs, core.Total() / MODEL_FRAME_SIZE, old(core.emitted))
        && buffer[..] == EmissionFrames(core.model, core.inputs, core.Total() / MODEL_FRAME_SIZE, old(core.emitted), frames)
        && PlayedOn(old(played), core.model, core.inputs, old(core.emitted), frames, played)
    {
      if frames > maxFrames {
        return Failed(FrameLimitExceeded(frames, maxFrames));
      }
      var expected := frames * channels;
      if buffer.Length != expected {
        return Failed(InvalidBufferLength(buffer.Length, expected));
      }
      Accept(buffer, frames);
      result := Done;
    }

    /** A callback that passed the checks. */
    method Accept(buffer: array<Sample>, frames: nat)
      requires Valid() && frames <= maxFrames && buffer.Length == frames * channels
      requires buffer !in core.footprint && buffer != output.samples
      modifies this, core, core.footprint, output, output.samples, buffer
      ensures Valid()
      ensures core.inputs == Taken(old(core.inputs), old(buffer[..]), frames)
      ensures Ready(core.inputs, core.Total() / MODEL_FRAME_SIZE, old(core.emitted))
      ensures buffer[..]
           == EmissionFrames(core.model, core.inputs, core.Total() / MODEL_FRAME_SIZE, old(core.emitted), frames)
      ensures PlayedOn(old(played), core.model, core.inputs, old(core.emitted), frames, played)
    {
      ghost var taken, after, extended := NextPlayed(buffer[..], frames);
      ProcessWhole(buffer, frames);
      assert core.inputs == taken && core.emitted == after;
      played := extended;
    }

    /** Where a callback takes every channel: its input, its samples given out and its outputs so far. */
    lemma NextPlayed(block: seq<Sample>, frames: nat)
      returns (taken: seq<seq<Sample>>, after: nat, extended: seq<seq<Output>>)
      requires Valid() && |block| == frames * channels
      ensures |core.inputs| == channels && taken == Taken(core.inputs, block, frames)
      ensures after == core.emitted + Min(frames, Releasable((core.Total() + frames) / MODEL_FRAME_SIZE, core.emitted))
      ensures PlayedOn(played, core.model, taken, core.emitted, frames, extended)
      ensures AllFaithful(core.model, taken, after, extended)
    {
      taken := Taken(core.inputs, block, frames);
      after := core.emitted + Min(frames, Releasable((core.Total() + frames) / MODEL_FRAME_SIZE, core.emitted));
      extended := StayFaithful(core.model, core.inputs, core.Total(), core.emitted, played, block, frames, taken, after);
    }
  }

  lemma WholeFrames(frames: nat, channels: nat)
    requires channels > 0
    ensures (frames * channels) % channels == 0 && frames * channels / channels == frames
  {
    ModUnique(frames, 0, channels);
    var n := frames * channels;
    assert n == (n / channels) * channels + n % channels;
    assert (n / channels - frames) * channels == 0;
    ZeroMultiple(n / channels - frames, channels);
  }
}
