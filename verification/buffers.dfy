/** Raw byte buffers and their reinterpretation as 32-bit floats
    (ContentView.swift, the `Array<Float>.init?(unsafeData:)` extension). */
module Buffers {

  /** An unsigned 8-bit value (`UInt8`). */
  type byte = b: int | 0 <= b < 256

  /** `MemoryLayout<Float>.size`. */
  const FloatSize: nat := 4

  /** Reads `data` as consecutive 4-byte floats. The bit-level decoding of one
      float (`bindMemory(to: Float.self)`) is the parameter `float32`; what is
      modelled is which bytes make up which element: the element count is the
      byte count divided by four, rounded down, and trailing bytes that do not
      fill a whole float are dropped. */
  function FloatsFromData(data: seq<byte>, float32: seq<byte> -> real): (r: seq<real>)
    ensures |r| == |data| / FloatSize
    ensures forall i :: 0 <= i < |r| ==> r[i] == float32(data[FloatSize * i .. FloatSize * i + FloatSize])
    decreases |data|
  {
    if |data| < FloatSize then []
    else
      var rest := FloatsFromData(data[FloatSize..], float32);
      assert forall i :: 1 <= i < |rest| + 1 ==>
        data[FloatSize..][FloatSize * (i - 1) .. FloatSize * (i - 1) + FloatSize] == data[FloatSize * i .. FloatSize * i + FloatSize];
      [float32(data[..FloatSize])] + rest
  }

  /** Bytes past the last whole float never reach the result: appending fewer
      than four bytes to a buffer whose length is a multiple of four leaves the
      decoded floats unchanged. */
  lemma {:induction false} TrailingBytesIgnored(data: seq<byte>, tail: seq<byte>, float32: seq<byte> -> real)
    requires |data| % FloatSize == 0
    requires |tail| < FloatSize
    ensures FloatsFromData(data + tail, float32) == FloatsFromData(data, float32)
    decreases |data|
  {
    if |data| == 0 {
      assert data + tail == tail;
    } else {
      assert (data + tail)[FloatSize..] == data[FloatSize..] + tail;
      assert (data + tail)[..FloatSize] == data[..FloatSize];
      TrailingBytesIgnored(data[FloatSize..], tail, float32);
    }
  }
}
