/** The preallocated dry-path delay, proved to be a pure delay line. */
module DryDelays {
  import opened ModArith
  import opened AudioBlocks

  /** Sample `n` of the input delayed by `delay`: silence before the stream starts. */
  function Delayed(input: seq<Sample>, n: nat, delay: nat): Sample
    requires n < |input|
  {
    if n < delay then 0.0 else input[n - delay]
  }

  /** What a pure delay line plays for `block` when `history` came before it. */
  function PureDelay(history: seq<Sample>, block: seq<Sample>, delay: nat): (output: seq<Sample>)
    ensures |output| == |block|
  {
    seq(|block|, i requires 0 <= i < |block| => Delayed(history + block, |history| + i, delay))
  }

  lemma ZeroDelay(history: seq<Sample>, block: seq<Sample>, delay: nat)
    requires delay == 0
    ensures PureDelay(history, block, delay) == block
  {
    forall i | 0 <= i < |block|
      ensures PureDelay(history, block, delay)[i] == block[i]
    {
      var all := history + block;
      assert PureDelay(history, block, delay)[i] == Delayed(all, |history| + i, delay);
      assert all[|history| + i] == block[i];
    }
  }

  /** A delay line never looks ahead. */
  lemma DelayedPrefix(history: seq<Sample>, block: seq<Sample>, i: nat, delay: nat)
    requires i < |block| && delay > 0
    ensures PureDelay(history, block, delay)[i] == Delayed(history + block[..i + 1], |history| + i, delay)
  {
    var all, known, n := history + block, history + block[..i + 1], |history| + i;
    assert PureDelay(history, block, delay)[i] == Delayed(all, n, delay);
    if n >= delay {
      assert known[n - delay] == all[n - delay];
    }
  }

  /** The ring holds the newest `|ring|` samples of `history`, each in its own slot, and zeros elsewhere. */
  ghost predicate Records(ring: seq<Sample>, history: seq<Sample>)
    requires |ring| > 0
  {
    && (forall n :: 0 <= n < |history| && |history| <= n + |ring| ==> ring[n % |ring|] == history[n])
    && (forall n :: |history| <= n < |ring| ==> ring[n] == 0.0)
  }

  lemma {:induction false} RecordStep(ring: seq<Sample>, history: seq<Sample>, sample: Sample)
    requires |ring| > 0 && Records(ring, history)
    ensures Records(ring[|history| % |ring| := sample], history + [sample])
  {
    var slot := |history| % |ring|;
    var next := history + [sample];
    forall n | 0 <= n < |next| && |next| <= n + |ring|
      ensures ring[slot := sample][n % |ring|] == next[n]
    {
      if n < |history| {
        SlotsDiffer(n, |history|, |ring|);
      }
    }
    if |history| < |ring| {
      ModUnique(0, |history|, |ring|);
    }
  }

  /** The slot the delay reads holds exactly the delayed sample, also when the delay fills the ring. */
  lemma {:induction false} DelayedSlot(ring: seq<Sample>, history: seq<Sample>, sample: Sample, delay: nat)
    requires 0 < delay <= |ring| && Records(ring, history)
    ensures var capacity := |ring|;
      ring[(|history| % capacity + capacity - delay % capacity) % capacity]
        == Delayed(history + [sample], |history|, delay)
  {
    var capacity := |ring|;
    var read := (|history| % capacity + capacity - delay % capacity) % capacity;
    var n := |history|;
    if delay <= n {
      ReadSlot(n, delay, capacity);
      assert ring[(n - delay) % capacity] == history[n - delay];
    } else {
      ModUnique(0, n, capacity);
      if delay == capacity {
        ModUnique(1, 0, capacity);
        ModUnique(1, n, capacity);
      } else {
        ModUnique(0, delay, capacity);
        ModUnique(0, n + capacity - delay, capacity);
      }
    }
  }

  lemma ReadSlot(n: nat, delay: nat, capacity: nat)
    requires 0 < delay <= capacity && delay <= n
    ensures (n % capacity + capacity - delay % capacity) % capacity == (n - delay) % capacity
  {
    var r := (n - delay) % capacity;
    assert n - delay == ((n - delay) / capacity) * capacity + r;
    assert n == (n / capacity) * capacity + n % capacity;
    assert delay == (delay / capacity) * capacity + delay % capacity;
    var q := (n - delay) / capacity - n / capacity + delay / capacity + 1;
    assert n % capacity + capacity - delay % capacity == q * capacity + r;
    ModUnique(q, r, capacity);
  }

  class DryDelay {
    const samples: array<Sample>
    var position: nat
    var delay: nat

    /** Every sample written since the last reset, oldest first. */
    ghost var history: seq<Sample>

    ghost predicate Valid()
      reads this, samples
    {
      && samples.Length > 0
      && position == |history| % samples.Length
      && delay <= samples.Length
      && Records(samples[..], history)
    }

    constructor (size: nat)
      ensures Valid() && fresh(samples)
      ensures history == [] && delay == 0 && samples.Length == Max(size, 1)
    {
      samples := new Sample[Max(size, 1)](_ => 0.0);
      position, delay := 0, 0;
      history := [];
    }

    method Reset()
      requires Valid()
      modifies this, samples
      ensures Valid()
      ensures history == [] && delay == old(delay)
    {
      forall i | 0 <= i < samples.Length {
        samples[i] := 0.0;
      }
      position := 0;
      history := [];
    }

    method SetDelay(delay: nat)
      requires Valid()
      modifies this, samples
      ensures Valid()
      ensures this.delay == Min(delay, samples.Length)
      ensures history == if this.delay == old(this.delay) then old(history) else []
    {
      var limited := Min(delay, samples.Length);
      if this.delay != limited {
        Reset();
        this.delay := limited;
      }
    }

    /**
    Change the delay and keep the history.  A zero delay rewinds the write position instead, so that
    later delays read the ring in storage order; `ZeroDelayRewinds` says when that can be heard.
    */
    method SetDelayPreserve(delay: nat)
      requires Valid()
      modifies this
      ensures Valid()
      ensures this.delay == Min(delay, samples.Length)
      ensures delay > 0 ==> history == old(history)
      ensures delay == 0 ==> history == samples[..]
    {
      this.delay := Min(delay, samples.Length);
      if this.delay > 0 {
        ModUnique(0, position, samples.Length);
        position := position % samples.Length;
      } else {
        position := 0;
        history := samples[..];
        ModUnique(1, 0, samples.Length);
        StorageOrder(samples[..]);
      }
    }

    /** One turn of the loop: read the delayed sample, then store the new one. */
    method Exchange(sample: Sample) returns (delayed: Sample)
      requires Valid() && delay > 0
      modifies this`position, this`history, samples
      ensures Valid()
      ensures history == old(history) + [sample]
      ensures delayed == Delayed(history, |old(history)|, delay)
    {
      var capacity := samples.Length;
      DelayedSlot(samples[..], history, sample, delay);
      RecordStep(samples[..], history, sample);
      NextPosition(|history|, capacity);
      ghost var ring := samples[..];
      delayed := samples[(position + capacity - delay % capacity) % capacity];
      samples[position] := sample;
      assert samples[..] == ring[position := sample];
      position := (position + 1) % capacity;
      history := history + [sample];
    }

    /** Play `input` through the delay into `output[..|input|]`. */
    method Process(input: seq<Sample>, output: array<Sample>)
      requires Valid()
      requires output != samples
      requires |input| <= output.Length
      modifies this, samples, output
      ensures Valid() && delay == old(delay)
      ensures history == if delay == 0 then old(history) else old(history) + input
      ensures output[..|input|] == PureDelay(old(history), input, delay)
      ensures forall k :: |input| <= k < output.Length ==> output[k] == old(output[k])
    {
      if delay == 0 {
        forall i | 0 <= i < |input| {
          output[i] := input[i];
        }
        ZeroDelay(history, input, delay);
        assert output[..|input|] == input;
        return;
      }
      ghost var past := history;
      for i := 0 to |input|
        invariant Valid() && delay == old(delay)
        invariant history == past + input[..i]
        invariant forall k :: 0 <= k < i ==> output[k] == PureDelay(past, input, delay)[k]
        invariant forall k :: |input| <= k < output.Length ==> output[k] == old(output[k])
      {
        var delayed := Exchange(input[i]);
        output[i] := delayed;
        assert history == past + input[..i + 1];
        DelayedPrefix(past, input, i, delay);
      }
      assert input[..|input|] == input;
    }
  }

  lemma NextPosition(n: nat, capacity: nat)
    requires capacity > 0
    ensures (n % capacity + 1) % capacity == (n + 1) % capacity
  {
    assert n == (n / capacity) * capacity + n % capacity;
    if n % capacity + 1 == capacity {
      assert n + 1 == (n / capacity + 1) * capacity + 0;
      ModUnique(n / capacity + 1, 0, capacity);
      ModUnique(1, 0, capacity);
    } else {
      ModUnique(n / capacity, n % capacity + 1, capacity);
      ModUnique(0, n % capacity + 1, capacity);
    }
  }

  lemma StorageOrder(ring: seq<Sample>)
    requires |ring| > 0
    ensures Records(ring, ring)
  {
    forall n | 0 <= n < |ring|
      ensures ring[n % |ring|] == ring[n]
    {
      ModUnique(0, n, |ring|);
    }
  }

  /** The slot that is read for a sample `delay` back when `position` is written next. */
  function ReadIndex(position: nat, delay: nat, capacity: nat): (slot: nat)
    requires capacity > 0
    ensures slot < capacity
  {
    (position + capacity - delay % capacity) % capacity
  }

  lemma RingSample(ring: seq<Sample>, history: seq<Sample>, block: seq<Sample>, delay: nat, i: nat)
    requires i < delay <= |ring| && i < |block| && Records(ring, history)
    ensures PureDelay(history, block, delay)[i] == ring[ReadIndex(|history| % |ring|, delay - i, |ring|)]
  {
    DelayedSlot(ring, history, block[i], delay - i);
    var all := history + block;
    assert PureDelay(history, block, delay)[i] == Delayed(all, |history| + i, delay);
    if |history| + i >= delay {
      assert all[|history| + i - delay] == (history + [block[i]])[|history| - (delay - i)];
    }
  }

  lemma OwnSample(history: seq<Sample>, block: seq<Sample>, delay: nat, i: nat)
    requires delay <= i < |block|
    ensures PureDelay(history, block, delay)[i] == block[i - delay]
  {
    var all := history + block;
    assert PureDelay(history, block, delay)[i] == Delayed(all, |history| + i, delay);
    assert all[|history| + i - delay] == block[i - delay];
  }

  /**
  A zero delay followed by delay `delay` plays the next block as if nothing had happened if and only if the
  ring holds the same samples behind the write position as behind its start.
  */
  lemma ZeroDelayRewinds(ring: seq<Sample>, history: seq<Sample>, block: seq<Sample>, delay: nat)
    requires 0 < delay <= |ring| && Records(ring, history)
    ensures PureDelay(ring, block, delay) == PureDelay(history, block, delay)
       <==> forall back :: 0 < back <= delay < back + |block| ==>
              ring[ReadIndex(0, back, |ring|)] == ring[ReadIndex(|history| % |ring|, back, |ring|)]
  {
    StorageOrder(ring);
    ModUnique(1, 0, |ring|);
    var rewound, plain := PureDelay(ring, block, delay), PureDelay(history, block, delay);
    forall i | 0 <= i < |block| && i < delay
      ensures rewound[i] == ring[ReadIndex(0, delay - i, |ring|)]
      ensures plain[i] == ring[ReadIndex(|history| % |ring|, delay - i, |ring|)]
    {
      RingSample(ring, ring, block, delay, i);
      RingSample(ring, history, block, delay, i);
    }
    forall i | delay <= i < |block|
      ensures rewound[i] == plain[i]
    {
      OwnSample(ring, block, delay, i);
      OwnSample(history, block, delay, i);
    }
    if rewound == plain {
      forall back | 0 < back <= delay < back + |block|
        ensures ring[ReadIndex(0, back, |ring|)] == ring[ReadIndex(|history| % |ring|, back, |ring|)]
      {
        assert rewound[delay - back] == plain[delay - back];
      }
    } else {
      assert exists i :: 0 <= i < |block| && rewound[i] != plain[i];
      var i :| 0 <= i < |block| && rewound[i] != plain[i];
      var back := delay - i;
      assert 0 < back <= delay < back + |block|;
    }
  }

  lemma NextSample(history: seq<Sample>, sample: Sample, delay: nat, output: seq<Sample>)
    requires output == PureDelay(history, [sample], delay) && 0 < delay <= |history|
    ensures output[0] == history[|history| - delay]
  {
    assert PureDelay(history, [sample], delay)[0] == Delayed(history + [sample], |history| + 0, delay);
  }

  /** A ring of two holds one sample; a zero delay in between makes the next sample come out silent. */
  method ZeroDelaySilences(interrupted: bool) returns (played: Sample)
    ensures played == if interrupted then 0.0 else 1.0
  {
    var line := new DryDelay(2);
    line.SetDelay(1);
    var buffer := new Sample[1](_ => 0.0);
    line.Process([1.0], buffer);
    assert line.samples[0 % 2] == line.history[0] == 1.0 && line.samples[1] == 0.0;
    if interrupted {
      line.SetDelayPreserve(0);
      line.SetDelayPreserve(1);
    }
    ghost var history := line.history;
    line.Process([0.0], buffer);
    played := buffer[0];
    NextSample(history, 0.0, 1, buffer[..1]);
  }

  // Whole runs.

  datatype Operation = Play(block: seq<Sample>) | SetDelayTo(delay: nat)

  /** Everything played in. */
  function Input(run: seq<Operation>): seq<Sample> {
    if run == [] then []
    else Input(run[..|run| - 1]) + match run[|run| - 1] { case Play(block) => block case SetDelayTo(_) => [] }
  }

  /** The delay in force after a run. */
  function DelayAfter(run: seq<Operation>, initial: nat): nat {
    if run == [] then initial
    else match run[|run| - 1]
      case Play(_) => DelayAfter(run[..|run| - 1], initial)
      case SetDelayTo(delay) => delay
  }

  /** Everything played out, block by block as `Process` does it. */
  function Output(run: seq<Operation>, initial: nat): seq<Sample> {
    if run == [] then []
    else
      var before := run[..|run| - 1];
      Output(before, initial) + match run[|run| - 1]
        case Play(block) => PureDelay(Input(before), block, DelayAfter(before, initial))
        case SetDelayTo(_) => []
  }

  /** Every change keeps the delay inside the ring and above zero. */
  predicate DelaysFit(run: seq<Operation>, capacity: nat) {
    forall i :: 0 <= i < |run| && run[i].SetDelayTo? ==> 0 < run[i].delay <= capacity
  }

  /** Any sequence of calls on a freshly built delay line plays exactly `Output`. */
  method PlayRun(run: seq<Operation>, size: nat, initial: nat) returns (output: seq<Sample>)
    requires 0 < initial <= size && DelaysFit(run, size)
    ensures output == Output(run, initial)
  {
    var line := new DryDelay(size);
    line.SetDelay(initial);
    output := [];
    for k := 0 to |run|
      invariant line.Valid() && fresh(line) && fresh(line.samples) && line.samples.Length == size
      invariant line.history == Input(run[..k])
      invariant line.delay == DelayAfter(run[..k], initial) > 0
      invariant output == Output(run[..k], initial)
    {
      assert run[..k + 1][..k] == run[..k];
      match run[k] {
        case Play(block) =>
          var buffer := new Sample[|block|](_ => 0.0);
          line.Process(block, buffer);
          output := output + buffer[..|block|];
        case SetDelayTo(delay) =>
          line.SetDelayPreserve(delay);
      }
    }
    assert run[..|run|] == run;
  }

  /** The delay in force when sample `n` was played. */
  function DelayAt(run: seq<Operation>, initial: nat, n: nat): nat
    requires n < |Input(run)|
  {
    var before := run[..|run| - 1];
    if n < |Input(before)| then DelayAt(before, initial, n) else DelayAfter(before, initial)
  }

  /**
  However the stream is cut into blocks and however the delay changes, output sample `n` is input
  sample `n - d` for the delay `d` in force at that moment, and silence before the start.
  */
  lemma {:induction false} DelayLineRefined(run: seq<Operation>, initial: nat, n: nat)
    requires n < |Input(run)|
    ensures |Output(run, initial)| == |Input(run)|
    ensures Output(run, initial)[n] == Delayed(Input(run), n, DelayAt(run, initial, n))
  {
    OutputLength(run, initial);
    var before := run[..|run| - 1];
    OutputLength(before, initial);
    if n < |Input(before)| {
      DelayLineRefined(before, initial, n);
    }
  }

  lemma {:induction false} OutputLength(run: seq<Operation>, initial: nat)
    ensures |Output(run, initial)| == |Input(run)|
  {
    if run == [] {
    } else {
      OutputLength(run[..|run| - 1], initial);
    }
  }

  /** With one fixed delay, two runs over the same stream play the same samples. */
  lemma {:induction false} CutsDoNotMatter(run: seq<Operation>, other: seq<Operation>, delay: nat)
    requires Input(run) == Input(other)
    requires forall i :: 0 <= i < |run| ==> run[i].Play?
    requires forall i :: 0 <= i < |other| ==> other[i].Play?
    ensures Output(run, delay) == Output(other, delay)
  {
    OutputLength(run, delay);
    OutputLength(other, delay);
    forall n | 0 <= n < |Input(run)|
      ensures Output(run, delay)[n] == Output(other, delay)[n]
    {
      DelayLineRefined(run, delay, n);
      DelayLineRefined(other, delay, n);
      ConstantDelay(run, delay, n);
      ConstantDelay(other, delay, n);
    }
  }

  lemma {:induction false} ConstantDelay(run: seq<Operation>, delay: nat, n: nat)
    requires forall i :: 0 <= i < |run| ==> run[i].Play?
    requires n < |Input(run)|
    ensures DelayAt(run, delay, n) == delay
  {
    var before := run[..|run| - 1];
    if n < |Input(before)| {
      ConstantDelay(before, delay, n);
    } else {
      NoChange(before, delay);
    }
  }

  lemma {:induction false} NoChange(run: seq<Operation>, delay: nat)
    requires forall i :: 0 <= i < |run| ==> run[i].Play?
    ensures DelayAfter(run, delay) == delay
  {
    if run != [] {
      NoChange(run[..|run| - 1], delay);
    }
  }
}
