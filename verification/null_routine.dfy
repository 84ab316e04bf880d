/**
  `processNull`, the routine dispatched when no effect is on: interleaved
  16-bit stereo is copied from the source buffer to the destination buffer,
  or left alone when both are the same buffer.
 */
module NullRoutine {
  import opened Ints

  /**
    How many 16-bit samples `memcpy(dst, src, sizeInFrames << 2)` copies. A
    frame is four bytes (two samples); the byte count is a `uint32_t`, so the
    shift loses the top two bits of `sizeInFrames`.
   */
  function CopiedSamples(sizeInFrames: uint32): (k: nat)
    ensures sizeInFrames < 0x4000_0000 ==> k == 2 * sizeInFrames
    ensures k == 2 * (sizeInFrames % 0x4000_0000)
  {
    Shl2(sizeInFrames) / 2
  }

  /**
    `processNull`. `sameBuffer` says whether `srcBuffer` and `dstBuffer` are
    the same pointer, in which case the two sequences are the same contents.
    The result is the destination buffer after the call.
   */
  method ProcessNull(src: seq<int16>, sizeInFrames: uint32, dst: seq<int16>, sameBuffer: bool)
    returns (out: seq<int16>)
    requires sameBuffer ==> src == dst
    requires CopiedSamples(sizeInFrames) <= |src| && CopiedSamples(sizeInFrames) <= |dst|
    ensures |out| == |dst|
    ensures forall i :: 0 <= i < CopiedSamples(sizeInFrames) ==> out[i] == src[i]
    ensures forall i :: CopiedSamples(sizeInFrames) <= i < |dst| ==> out[i] == dst[i]
    ensures sameBuffer ==> out == dst
    ensures CopiedSamples(sizeInFrames) == |src| == |dst| ==> out == src
  {
    if sameBuffer {
      return dst;
    }
    var k := CopiedSamples(sizeInFrames);
    out := dst;
    var i := 0;
    while i < k
      invariant 0 <= i <= k
      invariant |out| == |dst|
      invariant forall j :: 0 <= j < i ==> out[j] == src[j]
      invariant forall j :: i <= j < |dst| ==> out[j] == dst[j]
    {
      out := out[i := src[i]];
      i := i + 1;
    }
  }
}
