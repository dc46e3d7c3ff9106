/** The block record that travels through the Hush queues. */
module AudioBlocks {
  import opened ModArith

  /** One audio sample.  Rounding and NaN are not part of the model. */
  type Sample = real

  datatype AudioBlock = AudioBlock(
    generation: nat,
    wetEpoch: nat,
    startFrame: U64,
    frames: nat,
    channels: nat,
    channelMask: nat,
    samples: seq<Sample>)

  function EmptyBlock(maxSamples: nat): AudioBlock {
    AudioBlock(0, 0, 0, 0, 0, 0, seq(maxSamples, _ => 0.0))
  }

  /** `destination[dst..dst + len].copy_from_slice(&source[src..src + len])`. */
  method CopySlice(source: seq<Sample>, src: nat, destination: array<Sample>, dst: nat, len: nat)
    requires src + len <= |source| && dst + len <= destination.Length
    modifies destination
    ensures destination[..] == old(destination[..dst]) + source[src..src + len] + old(destination[dst + len..])
  {
    forall i | 0 <= i < len {
      destination[dst + i] := source[src + i];
    }
  }
}
