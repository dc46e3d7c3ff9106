/**
Playback at a slightly adjusted speed.  Callback by callback, the output is the ideal linear interpolation
of everything pulled so far, taken as one stream.
*/
module DriftAdapters {
  import opened ModArith
  import opened AudioBlocks

  const DRIFT_RATE_STEP: real := 0.0002
  const DRIFT_RATE_LIMIT: real := 0.002
  const DRIFT_TICK_INTERVAL: nat := 128

  /** The rate after one observation of a backlog of `depth` against a trim depth of `target`. */
  function NudgedRate(rate: real, depth: nat, target: nat): (nudged: real)
    requires RateOk(rate)
    ensures RateOk(nudged)
    ensures depth > target / 2 + target / 4 ==> nudged == 1.0 + DRIFT_RATE_LIMIT || nudged == rate + DRIFT_RATE_STEP
    ensures nudged < rate ==> depth < target / 4
    ensures target / 4 <= depth <= target / 2 + target / 4 ==> nudged == rate
  {
    var ideal := target / 2;
    if depth > ideal + ideal / 2 then
      (if rate + DRIFT_RATE_STEP > 1.0 + DRIFT_RATE_LIMIT then 1.0 + DRIFT_RATE_LIMIT else rate + DRIFT_RATE_STEP)
    else if depth < ideal / 2 then
      (if rate - DRIFT_RATE_STEP < 1.0 - DRIFT_RATE_LIMIT then 1.0 - DRIFT_RATE_LIMIT else rate - DRIFT_RATE_STEP)
    else rate
  }

  /** One sample per channel. */
  type Frame = seq<Sample>

  predicate RateOk(rate: real) {
    1.0 - DRIFT_RATE_LIMIT <= rate <= 1.0 + DRIFT_RATE_LIMIT
  }

  function Ceil(x: real): int {
    -((-x).Floor)
  }

  function Fraction(x: real): real {
    x - x.Floor as real
  }

  /** The stream at a real-valued frame position, by linear interpolation of the two frames around it. */
  function Lerp(left: Sample, right: Sample, fraction: real): Sample {
    left + (right - left) * fraction
  }

  predicate Reachable(stream: seq<Frame>, channels: nat, at: real) {
    && at >= 0.0
    && at.Floor + 1 < |stream|
    && |stream[at.Floor]| == |stream[at.Floor + 1]| == channels
  }

  function FrameAt(stream: seq<Frame>, channels: nat, at: real): (frame: Frame)
    requires Reachable(stream, channels, at)
    ensures |frame| == channels
  {
    seq(channels, c requires 0 <= c < channels =>
      Lerp(stream[at.Floor][c], stream[at.Floor + 1][c], Fraction(at)))
  }

  ghost predicate IsFrameAt(stream: seq<Frame>, channels: nat, at: real, frame: Frame) {
    var isFrame := Reachable(stream, channels, at) && frame == FrameAt(stream, channels, at);
    isFrame
  }

  /** Grid position of the `k`-th produced frame: the sum of the rates of all frames produced before it. */
  ghost function GridPosition(rates: seq<real>, k: nat): real
    requires k <= |rates|
  {
    if k == 0 then 0.0 else GridPosition(rates, k - 1) + rates[k - 1]
  }

  /** Grid distance of `k` frames at one rate. */
  function Steps(rate: real, k: nat): real {
    if k == 0 then 0.0 else Steps(rate, k - 1) + rate
  }

  /** Frames to have on hand for an output of `outFrames`: one output's worth plus lookahead. */
  function Want(outFrames: nat, rate: real, capacity: nat): nat
    requires RateOk(rate)
  {
    TimesMonotonic(0.0, rate, outFrames as real);
    Min(Ceil(outFrames as real * rate) + 4, capacity)
  }

  function Repeated(rate: real, n: nat): seq<real> {
    seq(n, _ => rate)
  }

  /** Played frame `k` is the stream interpolated where the grid is after `k` steps. */
  ghost predicate OnGrid(stream: seq<Frame>, channels: nat, rates: seq<real>, played: seq<Frame>, k: nat)
    requires k < |played| && k <= |rates|
  {
    IsFrameAt(stream, channels, GridPosition(rates, k), played[k])
  }

  /** `played` is the ideal resampling of `stream` along the grid that `rates` spans. */
  ghost predicate IsResampled(stream: seq<Frame>, channels: nat, rates: seq<real>, played: seq<Frame>) {
    && |played| == |rates|
    && forall k: nat :: k < |played| ==> OnGrid(stream, channels, rates, played, k)
  }

  lemma FloorShift(n: int, x: real)
    ensures (n as real + x).Floor == n + x.Floor
    ensures Fraction(n as real + x) == Fraction(x)
  {
  }

  lemma {:induction false} GridPrefix(rates: seq<real>, more: seq<real>, k: nat)
    requires k <= |rates|
    ensures GridPosition(rates + more, k) == GridPosition(rates, k)
  {
    if k > 0 {
      GridPrefix(rates, more, k - 1);
      assert (rates + more)[k - 1] == rates[k - 1];
    }
  }

  /** Pulling more audio never changes what has been played. */
  lemma ResampledStreamGrows(stream: seq<Frame>, more: seq<Frame>, channels: nat, rates: seq<real>, played: seq<Frame>)
    requires IsResampled(stream, channels, rates, played)
    ensures IsResampled(stream + more, channels, rates, played)
  {
    forall k | 0 <= k < |played|
      ensures OnGrid(stream + more, channels, rates, played, k)
    {
      assert OnGrid(stream, channels, rates, played, k);
      var at := GridPosition(rates, k);
      assert (stream + more)[at.Floor] == stream[at.Floor] && (stream + more)[at.Floor + 1] == stream[at.Floor + 1];
    }
  }

  /** Producing one frame at the grid's end keeps the resampling ideal. */
  lemma ResampledStep(stream: seq<Frame>, channels: nat, rates: seq<real>, played: seq<Frame>, rate: real)
    requires IsResampled(stream, channels, rates, played)
    requires Reachable(stream, channels, GridPosition(rates, |rates|))
    ensures IsResampled(stream, channels, rates + [rate],
                        played + [FrameAt(stream, channels, GridPosition(rates, |rates|))])
    ensures GridPosition(rates + [rate], |rates| + 1) == GridPosition(rates, |rates|) + rate
  {
    var end := GridPosition(rates, |rates|);
    var next, frames := rates + [rate], played + [FrameAt(stream, channels, end)];
    GridPrefix(rates, [rate], |rates|);
    assert next[|rates|] == rate;
    forall k: nat | k < |frames|
      ensures OnGrid(stream, channels, next, frames, k)
    {
      GridPrefix(rates, [rate], k);
      assert k < |played| ==> OnGrid(stream, channels, rates, played, k) && frames[k] == played[k];
      assert k == |played| ==> frames[k] == FrameAt(stream, channels, end);
    }
  }

  lemma WholePosition(stream: seq<Frame>, channels: nat, k: nat)
    requires Reachable(stream, channels, k as real)
    ensures k < |stream| && FrameAt(stream, channels, k as real) == stream[k]
  {
    assert (k as real).Floor == k && Fraction(k as real) == 0.0;
    forall c | 0 <= c < channels
      ensures FrameAt(stream, channels, k as real)[c] == stream[k][c]
    {
      assert Lerp(stream[k][c], stream[k + 1][c], 0.0) == stream[k][c];
    }
  }

  /** As long as the rate stays at one, playback repeats the pulled stream from its start. */
  lemma {:induction false} IdentityRate(stream: seq<Frame>, channels: nat, rates: seq<real>, played: seq<Frame>)
    requires IsResampled(stream, channels, rates, played)
    requires forall k :: 0 <= k < |rates| ==> rates[k] == 1.0
    ensures played <= stream
  {
    forall k | 0 <= k < |played|
      ensures k < |stream| && played[k] == stream[k]
    {
      WholeGrid(rates, k);
      assert OnGrid(stream, channels, rates, played, k);
      WholePosition(stream, channels, k);
    }
    if played != [] {
      WholeGrid(rates, |played| - 1);
      assert OnGrid(stream, channels, rates, played, |played| - 1);
      WholePosition(stream, channels, |played| - 1);
    }
    assert played == stream[..|played|];
  }

  lemma {:induction false} WholeGrid(rates: seq<real>, k: nat)
    requires k <= |rates| && forall i :: 0 <= i < |rates| ==> rates[i] == 1.0
    ensures GridPosition(rates, k) == k as real
  {
    if k > 0 {
      WholeGrid(rates, k - 1);
    }
  }

  /**
  Consecutive outputs read frames at most two apart.  Squeezing never repeats: at a rate of at least 1.0 the
  next output starts at a later frame.  Stretching never discards: at a rate of at most 1.0 it skips no frame.
  */
  lemma {:induction false} GridAdvances(rates: seq<real>, k: nat)
    requires k < |rates| && forall i :: 0 <= i < |rates| ==> RateOk(rates[i])
    ensures 0.998 * k as real <= GridPosition(rates, k) <= 1.002 * k as real
    ensures GridPosition(rates, k).Floor <= GridPosition(rates, k + 1).Floor <= GridPosition(rates, k).Floor + 2
    ensures rates[k] >= 1.0 ==> GridPosition(rates, k + 1).Floor >= GridPosition(rates, k).Floor + 1
    ensures rates[k] <= 1.0 ==> GridPosition(rates, k + 1).Floor <= GridPosition(rates, k).Floor + 1
  {
    if k > 0 {
      GridAdvances(rates, k - 1);
    }
  }

  /** Interleaved frame `k` of a buffer, if it is there. */
  function Row(samples: seq<Sample>, channels: nat, k: nat): Frame {
    if |samples| < channels then []
    else if k == 0 then samples[..channels]
    else Row(samples[channels..], channels, k - 1)
  }

  lemma {:induction false} RowIsSlice(samples: seq<Sample>, channels: nat, n: nat, k: nat)
    requires k < n && n * channels <= |samples|
    ensures 0 <= k * channels && k * channels + channels <= n * channels
    ensures Row(samples, channels, k) == samples[k * channels..k * channels + channels]
  {
    Stride(k + 1, n, channels);
    if k > 0 {
      assert (n - 1) * channels == n * channels - channels;
      assert (k - 1) * channels == k * channels - channels;
      RowIsSlice(samples[channels..], channels, n - 1, k - 1);
    }
  }

  /** The first `n` interleaved frames. */
  function Framed(samples: seq<Sample>, channels: nat, n: nat): (frames: seq<Frame>)
    ensures |frames| == n
    ensures forall k :: 0 <= k < n ==> frames[k] == Row(samples, channels, k)
  {
    if n == 0 then [] else Framed(samples, channels, n - 1) + [Row(samples, channels, n - 1)]
  }

  function Interleaved(frames: seq<Frame>): seq<Sample> {
    if frames == [] then [] else frames[0] + Interleaved(frames[1..])
  }

  lemma FramedTail(samples: seq<Sample>, channels: nat, n: nat)
    requires n > 0 && |samples| >= channels
    ensures Framed(samples, channels, n)[0] == samples[..channels]
    ensures Framed(samples, channels, n)[1..] == Framed(samples[channels..], channels, n - 1)
  {
    var frames, rest := Framed(samples, channels, n), Framed(samples[channels..], channels, n - 1);
    assert frames[0] == Row(samples, channels, 0);
    forall k | 0 <= k < n - 1
      ensures frames[1..][k] == rest[k]
    {
      assert frames[k + 1] == Row(samples, channels, k + 1);
      assert rest[k] == Row(samples[channels..], channels, k);
    }
  }

  lemma {:induction false} InterleavedFrames(samples: seq<Sample>, channels: nat, n: nat, total: nat)
    requires total == n * channels <= |samples|
    ensures Interleaved(Framed(samples, channels, n)) == samples[..total]
  {
    if n > 0 {
      assert total - channels == (n - 1) * channels >= 0;
      var frames, rest := Framed(samples, channels, n), samples[channels..];
      FramedTail(samples, channels, n);
      InterleavedFrames(rest, channels, n - 1, total - channels);
      assert samples[..total] == samples[..channels] + rest[..total - channels];
    }
  }

  /** What a pull delivered enters the stream completely exactly when it delivered whole frames. */
  lemma PullIsLosslessIffWhole(samples: seq<Sample>, channels: nat)
    requires channels > 0
    ensures |samples| / channels >= 0
    ensures Interleaved(Framed(samples, channels, |samples| / channels)) == samples <==> |samples| % channels == 0
  {
    var whole, rest := WholeAndRest(|samples|, channels);
    InterleavedFrames(samples, channels, |samples| / channels, whole);
    if rest > 0 {
      assert |samples[..whole]| != |samples|;
    }
  }

  /** One sample on two channels is no frame: it is taken from the engine and never reaches the stream. */
  lemma HalfAFrameIsLost(sample: Sample)
    ensures Framed([sample], 2, |[sample]| / 2) == []
    ensures Interleaved(Framed([sample], 2, |[sample]| / 2)) != [sample]
  {
    PullIsLosslessIffWhole([sample], 2);
  }

  lemma WholeAndRest(length: nat, channels: nat) returns (whole: nat, rest: nat)
    requires channels > 0
    ensures length / channels >= 0
    ensures whole == length / channels * channels && rest == length % channels && length == whole + rest
  {
    whole, rest := length / channels * channels, length % channels;
  }

  /** Frames below `n` are kept when nothing before flat index `n * channels` changes. */
  lemma RowKept(before: seq<Sample>, after: seq<Sample>, channels: nat, n: nat, k: nat)
    requires k < n && n * channels <= |before| && n * channels <= |after|
    requires forall i :: 0 <= i < n * channels ==> after[i] == before[i]
    ensures Row(after, channels, k) == Row(before, channels, k)
  {
    RowIsSlice(before, channels, n, k);
    RowIsSlice(after, channels, n, k);
  }

  /** Frame `offset + k` of a buffer is the slice `start` samples behind frame `k`. */
  lemma RowAhead(samples: seq<Sample>, channels: nat, start: nat, offset: nat, n: nat, k: nat)
    requires k < n && start == offset * channels && start + n * channels <= |samples|
    ensures 0 <= k * channels && k * channels + channels <= n * channels
    ensures Row(samples, channels, offset + k) == samples[start + k * channels..start + k * channels + channels]
  {
    assert (offset + n) * channels == start + n * channels;
    assert (offset + k) * channels == start + k * channels;
    RowIsSlice(samples, channels, offset + n, offset + k);
    Stride(k + 1, n, channels);
  }

  lemma SliceOfSlice(s: seq<Sample>, start: nat, length: nat, row: int, width: nat)
    requires start + length <= |s| && 0 <= row && row + width <= length
    ensures s[start + row..start + row + width] == s[start..start + length][row..row + width]
  {
    var inner, left := s[start..start + length], s[start + row..start + row + width];
    forall i | 0 <= i < |left|
      ensures left[i] == inner[row..row + width][i]
    {
    }
  }

  /** A block copied in at frame `offset` contributes its own frames. */
  lemma RowCopied(block: seq<Sample>, after: seq<Sample>, channels: nat, start: nat, offset: nat, n: nat, k: nat)
    requires k < n && n * channels <= |block| && start == offset * channels && start + |block| <= |after|
    requires after[start..start + |block|] == block
    ensures Row(after, channels, offset + k) == Row(block, channels, k)
  {
    RowIsSlice(block, channels, n, k);
    RowAhead(after, channels, start, offset, n, k);
    SliceOfSlice(after, start, |block|, k * channels, channels);
  }

  /** Moving the buffer down by `offset` frames renumbers them. */
  lemma RowMoved(before: seq<Sample>, after: seq<Sample>, channels: nat, start: nat, offset: nat, n: nat, k: nat)
    requires k < n && n * channels <= |after| && start == offset * channels && start + n * channels <= |before|
    requires forall i :: 0 <= i < n * channels ==> after[i] == before[start + i]
    ensures Row(after, channels, k) == Row(before, channels, offset + k)
  {
    RowIsSlice(after, channels, n, k);
    RowAhead(before, channels, start, offset, n, k);
  }

  /** The first `filled` frames of the FIFO are the stream from `retired` on. */
  ghost predicate Buffered(fifo: seq<Sample>, filled: nat, stream: seq<Frame>, retired: nat, channels: nat) {
    && retired + filled <= |stream|
    && forall k :: 0 <= k < filled ==> Row(fifo, channels, k) == stream[retired + k]
  }

  /** Appending pulled samples behind the buffered frames extends both the FIFO and the stream. */
  lemma BufferedGrows(before: seq<Sample>, after: seq<Sample>, filled: nat, start: nat, stream: seq<Frame>, retired: nat,
                      channels: nat, pulled: seq<Sample>, n: nat)
    requires Buffered(before, filled, stream, retired, channels) && retired + filled == |stream|
    requires start == filled * channels && start <= |before| && n * channels <= |pulled| && start + |pulled| <= |after|
    requires forall i :: 0 <= i < start ==> after[i] == before[i]
    requires after[start..start + |pulled|] == pulled
    ensures Buffered(after, filled + n, stream + Framed(pulled, channels, n), retired, channels)
  {
    var frames := stream + Framed(pulled, channels, n);
    forall k | 0 <= k < filled + n
      ensures Row(after, channels, k) == frames[retired + k]
    {
      if k < filled {
        RowKept(before, after, channels, filled, k);
      } else {
        var j := k - filled;
        RowCopied(pulled, after, channels, start, filled, n, j);
        assert Row(after, channels, filled + j) == Row(pulled, channels, j) == frames[|stream| + j];
      }
    }
  }

  /** Changing what lies behind the first `n` frames keeps them. */
  lemma BufferedKept(before: seq<Sample>, after: seq<Sample>, n: nat, frames: seq<Frame>, channels: nat)
    requires Buffered(before, n, frames, 0, channels)
    requires n * channels <= |before| && |after| == |before|
    requires forall i :: 0 <= i < n * channels ==> after[i] == before[i]
    ensures Buffered(after, n, frames, 0, channels)
  {
    forall k | 0 <= k < n
      ensures Row(after, channels, k) == frames[k]
    {
      RowKept(before, after, channels, n, k);
      assert Row(before, channels, k) == frames[0 + k];
    }
  }

  /** Moving the FIFO down by `dropped` frames retires them. */
  lemma BufferedShrinks(before: seq<Sample>, after: seq<Sample>, filled: nat, stream: seq<Frame>, retired: nat,
                        channels: nat, start: nat, dropped: nat)
    requires Buffered(before, filled, stream, retired, channels) && dropped <= filled
    requires start == dropped * channels
    requires (filled - dropped) * channels <= |after| && start + (filled - dropped) * channels <= |before|
    requires forall i :: 0 <= i < (filled - dropped) * channels ==> after[i] == before[start + i]
    ensures Buffered(after, filled - dropped, stream, retired + dropped, channels)
  {
    forall k | 0 <= k < filled - dropped
      ensures Row(after, channels, k) == stream[retired + dropped + k]
    {
      RowMoved(before, after, channels, start, dropped, filled - dropped, k);
    }
  }

  class DriftAdapter {
    const channels: nat
    const maxOutputFrames: nat
    const capacity: nat
    const fifo: array<Sample>
    var rate: real
    var position: real
    var filled: nat
    var ticks: nat

    /** Every whole frame pulled so far, how many of them have left the FIFO, and what has been played at which rates. */
    ghost var stream: seq<Frame>
    ghost var retired: nat
    ghost var rates: seq<real>
    ghost var played: seq<Frame>

    ghost predicate Valid()
      reads this, fifo
    {
      && GridAt(position) && 0.0 <= position < 1.0
      && RateOk(rate)
      && filled <= capacity
      && ticks < DRIFT_TICK_INTERVAL
      && retired + filled == |stream|
      && Buffered(fifo[..], filled, stream, retired, channels)
    }

    /** Fixed when the adapter is built. */
    ghost predicate Sizes() {
      && channels > 0
      && capacity == (maxOutputFrames as real * (1.0 + DRIFT_RATE_LIMIT)).Floor + 4
      && fifo.Length == capacity * channels
    }

    /** What has been played is ideal, and the grid continues at FIFO position `at`. */
    ghost predicate GridAt(at: real)
      reads this`stream, this`rates, this`played, this`retired
    {
      && IsResampled(stream, channels, rates, played)
      && (forall i :: 0 <= i < |rates| ==> RateOk(rates[i]))
      && GridPosition(rates, |rates|) == retired as real + at
    }

    constructor (channels: nat, maxOutputFrames: nat)
      requires channels > 0
      ensures Sizes() && Valid() && fresh(fifo)
      ensures this.channels == channels && this.maxOutputFrames == maxOutputFrames
      ensures rate == 1.0 && stream == [] && rates == [] && played == []
    {
      var frames := (maxOutputFrames as real * (1.0 + DRIFT_RATE_LIMIT)).Floor + 4;
      this.channels, this.maxOutputFrames, capacity := channels, maxOutputFrames, frames;
      rate, position, filled, ticks := 1.0, 0.0, 0, 0;
      fifo := new Sample[frames * channels](_ => 0.0);
      stream, retired, rates, played := [], 0, [], [];
    }

    /** Sample the backlog every 128 calls and nudge the rate. */
    method Observe(depth: nat, target: nat)
      requires Sizes() && Valid()
      modifies this`rate, this`ticks
      ensures Valid()
      ensures ticks == (old(ticks) + 1) % DRIFT_TICK_INTERVAL
      ensures rate == if ticks == 0 && target != 0 then NudgedRate(old(rate), depth, target) else old(rate)
    {
      ticks := ticks + 1;
      if ticks < DRIFT_TICK_INTERVAL {
        return;
      }
      ticks := 0;
      if target == 0 {
        return;
      }
      rate := NudgedRate(rate, depth, target);
    }

    /** Pull until `want` frames are on hand, as far as `offered` reaches. */
    method Fill(want: nat, offered: seq<Sample>) returns (got: nat, n: nat)
      requires Sizes() && Valid() && want <= capacity
      modifies this`filled, this`stream, fifo
      ensures Valid()
      ensures got <= |offered| && n == got / channels
      ensures stream == old(stream) + Framed(offered[..got], channels, n)
      ensures |offered| >= fifo.Length ==> filled >= want
    {
      if filled < want {
        got, n := Pull(want - filled, offered);
      } else {
        got, n := 0, 0;
        assert Framed(offered[..0], channels, 0) == [];
      }
    }

    /** Where the pull starts writing and how many samples it delivers. */
    method PullRange(room: nat, available: nat) returns (start: nat, got: nat, n: nat)
      requires Sizes() && filled + room <= capacity
      ensures start == filled * channels && start + got <= fifo.Length
      ensures got <= available && n == got / channels <= room && n * channels <= got
      ensures available >= fifo.Length ==> n == room
    {
      RoomFits(filled, room, capacity, channels);
      var size: int := room * channels;
      start := filled * channels;
      got := Min(available, size);
      n := WholeFrames(got, room, channels, size);
    }

    method Pull(room: nat, offered: seq<Sample>) returns (got: nat, n: nat)
      requires Sizes() && Valid() && filled + room <= capacity
      modifies this`filled, this`stream, fifo
      ensures Valid()
      ensures got <= |offered| && n == got / channels
      ensures stream == old(stream) + Framed(offered[..got], channels, n)
      ensures |offered| >= fifo.Length ==> filled == old(filled) + room
    {
      var start;
      start, got, n := PullRange(room, |offered|);
      ghost var before := fifo[..];
      CopySlice(offered, 0, fifo, start, got);
      BufferedGrows(before, fifo[..], filled, start, stream, retired, channels, offered[..got], n);
      ResampledStreamGrows(stream, Framed(offered[..got], channels, n), channels, rates, played);
      stream := stream + Framed(offered[..got], channels, n);
      filled := filled + n;
    }

    /** One output frame, channel by channel, between FIFO frames `base` and `base + 1`. */
    method Interpolate(base: nat, fraction: real, ghost at: real) returns (frame: Frame)
      requires Sizes() && filled <= capacity && base + 1 < filled
      requires Buffered(fifo[..], filled, stream, retired, channels)
      requires at >= 0.0 && at.Floor == retired + base && Fraction(at) == fraction
      ensures IsFrameAt(stream, channels, at, frame)
    {
      Stride(filled, capacity, channels);
      RowIsSlice(fifo[..], channels, filled, base);
      RowIsSlice(fifo[..], channels, filled, base + 1);
      var left := base * channels;
      var right := left + channels;
      assert right == (base + 1) * channels;
      ghost var before, after := stream[retired + base], stream[retired + base + 1];
      assert before == fifo[left..left + channels] && after == fifo[right..right + channels];
      frame := [];
      for channel := 0 to channels
        invariant frame == FrameAt(stream, channels, at)[..channel]
      {
        assert before[channel] == fifo[left + channel] && after[channel] == fifo[right + channel];
        frame := frame + [Lerp(fifo[left + channel], fifo[right + channel], fraction)];
      }
    }

    /** Produce one frame at FIFO position `at` into output frame `produced`. */
    method ProduceFrame(output: array<Sample>, produced: nat, outFrames: nat, at: real, ghost frames: seq<Frame>)
      requires Sizes() && output != fifo && filled <= capacity && retired + filled == |stream|
      requires Buffered(fifo[..], filled, stream, retired, channels)
      requires at >= 0.0 && at.Floor + 1 < filled && GridAt(at) && RateOk(rate)
      requires produced < outFrames && outFrames * channels <= output.Length
      requires |frames| == produced && Buffered(output[..], produced, frames, 0, channels)
      modifies this`rates, this`played, output
      ensures GridAt(at + rate)
      ensures rates == old(rates) + [rate] && |played| == |old(played)| + 1 && played[..|old(played)|] == old(played)
      ensures Buffered(output[..], produced + 1, frames + [played[|old(played)|]], 0, channels)
    {
      var base := at.Floor;
      FloorShift(retired, at);
      var frame := Interpolate(base, Fraction(at), retired as real + at);
      ResampledStep(stream, channels, rates, played, rate);
      assert frame == FrameAt(stream, channels, GridPosition(rates, |rates|));
      WriteFrame(frame, output, produced, outFrames, frames);
      rates, played := rates + [rate], played + [frame];
    }

    /** Put one frame behind the `produced` frames already in the output. */
    method WriteFrame(frame: Frame, output: array<Sample>, produced: nat, outFrames: nat, ghost frames: seq<Frame>)
      requires |frame| == channels && channels > 0
      requires produced < outFrames && outFrames * channels <= output.Length
      requires |frames| == produced && Buffered(output[..], produced, frames, 0, channels)
      modifies output
      ensures Buffered(output[..], produced + 1, frames + [frame], 0, channels)
    {
      Stride(produced, produced + 1, channels);
      Stride(produced + 1, outFrames, channels);
      var row := produced * channels;
      ghost var before := output[..];
      CopySlice(frame, 0, output, row, channels);
      assert Framed(frame, channels, 0) == [] && Row(frame, channels, 0) == frame;
      assert Framed(frame, channels, 1) == [frame];
      BufferedGrows(before, output[..], produced, row, frames, 0, channels, frame, 1);
    }

    /** Produce frames until the output is full or the grid has run past the audio on hand. */
    method ProduceAll(output: array<Sample>, outFrames: nat) returns (produced: nat, at: real)
      requires Sizes() && Valid() && output != fifo
      requires outFrames * channels <= output.Length
      modifies this`rates, this`played, output
      ensures GridAt(at) && at >= 0.0 && at.Floor <= filled
      ensures at == position + Steps(rate, produced)
      ensures produced <= outFrames && (produced < outFrames ==> at.Floor + 1 >= filled)
      ensures rates == old(rates) + Repeated(rate, produced)
      ensures |played| == |old(played)| + produced && played[..|old(played)|] == old(played)
      ensures Buffered(output[..], produced, played[|old(played)|..], 0, channels)
    {
      produced, at := 0, position;
      while produced < outFrames && at.Floor + 1 < filled
        invariant produced <= outFrames
        invariant GridAt(at) && at >= 0.0 && at.Floor <= filled
        invariant at == position + Steps(rate, produced)
        invariant rates == old(rates) + Repeated(rate, produced)
        invariant |played| == |old(played)| + produced && played[..|old(played)|] == old(played)
        invariant Buffered(output[..], produced, played[|old(played)|..], 0, channels)
      {
        ghost var frames := played[|old(played)|..];
        ProduceFrame(output, produced, outFrames, at, frames);
        assert played[|old(played)|..] == frames + [played[|old(played)| + produced]];
        produced := produced + 1;
        at := at + rate;
      }
    }

    /** Forget the frames before the grid's position; what is left of the position is a fraction of a frame. */
    method Retire(at: real)
      requires Sizes() && filled <= capacity && retired + filled == |stream|
      requires Buffered(fifo[..], filled, stream, retired, channels)
      requires at >= 0.0 && at.Floor <= filled && GridAt(at)
      modifies this`position, this`filled, this`retired, fifo
      ensures filled <= capacity && retired + filled == |stream|
      ensures Buffered(fifo[..], filled, stream, retired, channels)
      ensures GridAt(position) && 0.0 <= position < 1.0
    {
      var dropped := Min(at.Floor, filled);
      position := at;
      if dropped > 0 {
        Stride(dropped, filled, channels);
        Stride(filled, capacity, channels);
        var start, length := dropped * channels, (filled - dropped) * channels;
        ghost var before := fifo[..];
        forall i | 0 <= i < length {
          fifo[i] := fifo[start + i];
        }
        BufferedShrinks(before, fifo[..], filled, stream, retired, channels, start, dropped);
        filled := filled - dropped;
        position := position - dropped as real;
        retired := retired + dropped;
      }
    }

    /** Whatever could not be produced plays as silence. */
    method Silence(output: array<Sample>, produced: nat, ghost outFrames: nat, ghost frames: seq<Frame>)
      requires produced <= outFrames && outFrames * channels <= output.Length
      requires Buffered(output[..], produced, frames, 0, channels)
      modifies output
      ensures Buffered(output[..], produced, frames, 0, channels)
      ensures forall i :: produced * channels <= i < output.Length ==> output[i] == 0.0
    {
      Stride(produced, outFrames, channels);
      var from := produced * channels;
      ghost var before := output[..];
      forall i | from <= i < output.Length {
        output[i] := 0.0;
      }
      BufferedKept(before, output[..], produced, frames, channels);
    }

    /** Everything after the pull: produce, pad with silence, retire. */
    method RenderFilled(output: array<Sample>, outFrames: nat) returns (produced: nat)
      requires Sizes() && Valid() && output != fifo
      requires outFrames * channels <= output.Length
      modifies this`position, this`filled, this`retired, this`rates, this`played, fifo, output
      ensures Valid()
      ensures rates == old(rates) + Repeated(rate, produced)
      ensures |played| == |old(played)| + produced && played[..|old(played)|] == old(played)
      ensures Buffered(output[..], produced, played[|old(played)|..], 0, channels)
      ensures produced <= outFrames
      ensures forall i :: produced * channels <= i < output.Length ==> output[i] == 0.0
      ensures produced < outFrames ==> GridPosition(rates, |rates|).Floor + 1 >= |stream|
      ensures old(filled) >= Want(outFrames, rate, capacity) && outFrames <= maxOutputFrames ==> produced == outFrames
    {
      ghost var start := position;
      var at;
      produced, at := ProduceAll(output, outFrames);
      if filled >= Want(outFrames, rate, capacity) && outFrames <= maxOutputFrames && produced < outFrames {
        NoStarvation(outFrames, maxOutputFrames, rate, start, produced, at, filled, capacity);
      }
      Silence(output, produced, outFrames, played[|old(played)|..]);
      FloorShift(retired, at);
      Retire(at);
    }

    /**
    Fill `output` at the adapted rate.  `offered` is what the engine could hand over; what it cannot
    supply plays as silence and does not advance the grid.
    */
    method Render(output: array<Sample>, offered: seq<Sample>) returns (got: nat, n: nat, produced: nat)
      requires Sizes() && Valid() && output != fifo
      modifies this`position, this`filled, this`stream, this`retired, this`rates, this`played, fifo, output
      ensures Valid()
      ensures got <= |offered| && n == got / channels
      ensures stream == old(stream) + Framed(offered[..got], channels, n)
      ensures rates == old(rates) + Repeated(rate, produced)
      ensures |played| == |old(played)| + produced && played[..|old(played)|] == old(played)
      ensures Buffered(output[..], produced, played[|old(played)|..], 0, channels)
      ensures var outFrames := output.Length / channels;
        && produced <= outFrames
        && (outFrames > 0 ==> forall i :: produced * channels <= i < output.Length ==> output[i] == 0.0)
        && (produced < outFrames ==> GridPosition(rates, |rates|).Floor + 1 >= |stream|)
        && (|offered| >= fifo.Length && outFrames <= maxOutputFrames ==> produced == outFrames)
    {
      var outFrames := output.Length / channels;
      produced := 0;
      if outFrames == 0 {
        assert Framed(offered[..0], channels, 0) == [];
        return 0, 0, 0;
      }
      WholeOutput(output.Length, channels);
      got, n := Fill(Want(outFrames, rate, capacity), offered);
      produced := RenderFilled(output, outFrames);
    }
  }

  /** The part of the FIFO a pull may fill lies inside it. */
  lemma RoomFits(filled: nat, room: nat, capacity: nat, channels: nat)
    requires channels > 0 && filled + room <= capacity
    ensures 0 <= filled * channels && 0 <= room * channels
    ensures filled * channels + room * channels <= capacity * channels
  {
    Stride(filled, filled + room, channels);
    Stride(filled + room, capacity, channels);
  }

  /** The whole frames among `got` samples. */
  function WholeFrames(got: nat, room: nat, channels: nat, size: int): (n: nat)
    requires channels > 0 && size == room * channels && got <= size
    ensures n == got / channels <= room && 0 <= n * channels <= got
    ensures got == size ==> n == room
  {
    WholePart(got, room, channels);
    got / channels
  }

  lemma WholePart(got: nat, room: nat, channels: nat)
    requires channels > 0 && got <= room * channels
    ensures got / channels * channels <= got
    ensures got / channels <= room
    ensures got == room * channels ==> got / channels == room
  {
    if got / channels > room {
      Stride(room + 1, got / channels, channels);
    }
    if got == room * channels && got / channels < room {
      Stride(got / channels + 1, room, channels);
    }
  }

  lemma WholeOutput(length: nat, channels: nat)
    requires channels > 0
    ensures length / channels >= 0 && length / channels * channels <= length
  {
  }

  lemma TimesMonotonic(a: real, b: real, c: real)
    requires a <= b && c >= 0.0
    ensures a * c <= b * c
    ensures c * a <= c * b
  {
    assert (b - a) * c >= 0.0;
  }

  lemma {:induction false} StepsBound(rate: real, k: nat)
    requires rate > 0.0
    ensures Steps(rate, k) == k as real * rate >= 0.0
  {
    if k > 0 {
      StepsBound(rate, k - 1);
    }
  }

  lemma BelowLimit(a: real, b: real, rate: real)
    requires RateOk(rate) && 0.0 <= a <= b
    ensures a * rate <= b * (1.0 + DRIFT_RATE_LIMIT)
  {
    var slack := 1.0 + DRIFT_RATE_LIMIT - rate;
    TimesMonotonic(0.0, slack, a);
    assert a * slack == a * (1.0 + DRIFT_RATE_LIMIT) - a * rate;
  }

  lemma {:induction false} StepsGrow(rate: real, j: nat, k: nat)
    requires rate > 0.0 && j <= k
    ensures Steps(rate, j) <= Steps(rate, k)
  {
    if j < k {
      StepsGrow(rate, j, k - 1);
    }
  }

  lemma EnoughOnHand(x: real, y: real, rate: real, position: real, steps: real, filled: nat, capacity: nat)
    requires RateOk(rate) && 0.0 <= position < 1.0 && 0.0 <= steps <= x - rate && x <= y
    requires capacity == y.Floor + 4 && filled >= Min(Ceil(x) + 4, capacity)
    ensures (position + steps).Floor + 1 < filled
  {
    assert Ceil(x) as real >= x;
    assert y.Floor as real + 1.0 > y;
  }

  /** With a full pull and an output that fits, the grid never runs past the audio on hand. */
  lemma NoStarvation(outFrames: nat, maxOutputFrames: nat, rate: real, position: real, produced: nat, at: real,
                     filled: nat, capacity: nat)
    requires RateOk(rate) && 0.0 <= position < 1.0
    requires produced < outFrames <= maxOutputFrames && at == position + Steps(rate, produced)
    requires capacity == (maxOutputFrames as real * (1.0 + DRIFT_RATE_LIMIT)).Floor + 4
    requires filled >= Want(outFrames, rate, capacity)
    ensures at.Floor + 1 < filled
  {
    StepsBound(rate, outFrames);
    StepsGrow(rate, 0, produced);
    StepsGrow(rate, produced, outFrames - 1);
    BelowLimit(outFrames as real, maxOutputFrames as real, rate);
    var x, y := outFrames as real * rate, maxOutputFrames as real * (1.0 + DRIFT_RATE_LIMIT);
    EnoughOnHand(x, y, rate, position, Steps(rate, produced), filled, capacity);
  }
}
