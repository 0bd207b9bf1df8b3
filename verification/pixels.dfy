/** Conversion of a rendered RGBA bitmap into the model's float input
    (ContentView.swift, `UIImage.rgbData`). The bitmap's bytes are taken as
    given: how the platform draws and premultiplies the source image is not
    part of this model. */
module Pixels {
  import opened Buffers

  /** Bytes per pixel of the bitmap context: red, green, blue, alpha. */
  const BytesPerPixel: nat := 4
  /** Values emitted per pixel: red, green, blue. */
  const ChannelsPerPixel: nat := 3
  /** Side of the square image every model takes. */
  const InputSide: nat := 128

  /** A bitmap of `width` by `height` pixels, row-major, four bytes a pixel. */
  datatype Bitmap = Bitmap(width: nat, height: nat, rgba: seq<byte>)

  /** The buffer has exactly one four-byte group per pixel, as allocated by
      `[UInt8](repeating: 0, count: height * width * bytesPerPixel)`. */
  predicate WellFormed(b: Bitmap) {
    |b.rgba| == b.height * b.width * BytesPerPixel
  }

  type RgbaBitmap = b: Bitmap | WellFormed(b) witness Bitmap(0, 0, [])

  /** Byte `c` of pixel `p` (0 red, 1 green, 2 blue, 3 alpha). */
  function Channel(rgba: seq<byte>, p: nat, c: nat): byte
    requires c < BytesPerPixel && BytesPerPixel * p + c < |rgba|
  {
    rgba[BytesPerPixel * p + c]
  }

  /** `Float(byte) / 255.0`: a byte scaled into the unit interval. */
  function Normalize(b: byte): (v: real)
    ensures 0.0 <= v <= 1.0
    ensures v == 0.0 <==> b == 0
    ensures v == 1.0 <==> b == 255
  {
    b as real / 255.0
  }

  /** Reference definition: the first `n` pixels of `rgba`, each as its three
      normalised colour channels in the order red, green, blue. */
  function PackPixels(rgba: seq<byte>, n: nat): (floats: seq<real>)
    requires BytesPerPixel * n <= |rgba|
    ensures |floats| == ChannelsPerPixel * n
    decreases n
  {
    if n == 0 then []
    else
      var p := n - 1;
      PackPixels(rgba, p) + [Normalize(Channel(rgba, p, 0)), Normalize(Channel(rgba, p, 1)), Normalize(Channel(rgba, p, 2))]
  }

  /** The whole bitmap as model input. */
  function PackRgb(b: RgbaBitmap): seq<real> {
    PackPixels(b.rgba, b.width * b.height)
  }

  /** Position `3p + c` of the packed vector holds channel `c` of pixel `p`. */
  lemma {:induction false} PackPixelsAt(rgba: seq<byte>, n: nat, p: nat, c: nat)
    requires BytesPerPixel * n <= |rgba|
    requires p < n && c < ChannelsPerPixel
    ensures PackPixels(rgba, n)[ChannelsPerPixel * p + c] == Normalize(Channel(rgba, p, c))
    decreases n
  {
    if p < n - 1 {
      PackPixelsAt(rgba, n - 1, p, c);
    }
  }

  /** Every packed value lies in [0, 1]. */
  lemma {:induction false} PackPixelsInUnitRange(rgba: seq<byte>, n: nat)
    requires BytesPerPixel * n <= |rgba|
    ensures forall k :: 0 <= k < |PackPixels(rgba, n)| ==> 0.0 <= PackPixels(rgba, n)[k] <= 1.0
    decreases n
  {
    if n > 0 {
      PackPixelsInUnitRange(rgba, n - 1);
    }
  }

  /** The alpha byte of a pixel is never read: two buffers that agree on every
      red, green and blue byte pack to the same vector. */
  lemma {:induction false} AlphaNeverRead(a: seq<byte>, b: seq<byte>, n: nat)
    requires BytesPerPixel * n <= |a| && BytesPerPixel * n <= |b|
    requires forall p, c :: 0 <= p < n && 0 <= c < ChannelsPerPixel ==> Channel(a, p, c) == Channel(b, p, c)
    ensures PackPixels(a, n) == PackPixels(b, n)
    decreases n
  {
    if n > 0 {
      AlphaNeverRead(a, b, n - 1);
      assert Channel(a, n - 1, 0) == Channel(b, n - 1, 0);
      assert Channel(a, n - 1, 1) == Channel(b, n - 1, 1);
      assert Channel(a, n - 1, 2) == Channel(b, n - 1, 2);
    }
  }

  /** Row-major pixel numbering stays inside the image. */
  lemma RowMajorBound(width: nat, height: nat, x: nat, y: nat)
    requires y < height && x <= width
    ensures y * width + x <= height * width
  {
    assert y * width + x <= y * width + width == (y + 1) * width;
    assert (y + 1) * width <= height * width by {
      var d := height - (y + 1);
      assert height * width == (y + 1) * width + d * width;
    }
  }

  /** Moving down one row stays within the image. */
  lemma NextRow(width: nat, height: nat, y: nat)
    requires y < height
    ensures y * width + width == (y + 1) * width <= height * width
  {
    RowMajorBound(width, height, width, y);
  }

  /** In terms of coordinates: the output value for channel `c` of pixel
      `(x, y)` sits at `3 * (y * width + x) + c` and comes from input byte
      `4 * (y * width + x) + c`. */
  lemma PackRgbPixel(b: RgbaBitmap, x: nat, y: nat, c: nat)
    requires x < b.width && y < b.height && c < ChannelsPerPixel
    ensures ChannelsPerPixel * (y * b.width + x) + c < |PackRgb(b)|
    ensures PackRgb(b)[ChannelsPerPixel * (y * b.width + x) + c]
         == Normalize(b.rgba[BytesPerPixel * (y * b.width + x) + c])
  {
    RowMajorBound(b.width, b.height, x + 1, y);
    PackPixelsAt(b.rgba, b.width * b.height, y * b.width + x, c);
  }

  /** The model input for a 128 by 128 bitmap: 49152 values, all in [0, 1]. */
  lemma ModelInputShape(b: RgbaBitmap)
    requires b.width == InputSide && b.height == InputSide
    ensures |PackRgb(b)| == 49152
    ensures forall k :: 0 <= k < |PackRgb(b)| ==> 0.0 <= PackRgb(b)[k] <= 1.0
  {
    PackPixelsInUnitRange(b.rgba, b.width * b.height);
  }

  /** The nested loop of `rgbData`: rows outer, columns inner, three values
      appended per pixel from the pixel's first three bytes. `row` holds
      `y * width`, so `row + x` is the source's `y * width + x`. */
  method RgbData(width: nat, height: nat, rawData: seq<byte>) returns (floatArray: seq<real>)
    requires |rawData| == height * width * BytesPerPixel
    ensures |floatArray| == width * height * ChannelsPerPixel
    ensures floatArray == PackPixels(rawData, width * height)
  {
    floatArray := [];
    var y := 0;
    var row := 0;
    while y < height
      invariant 0 <= y <= height
      invariant row == y * width
      invariant row <= height * width
      invariant floatArray == PackPixels(rawData, row)
    {
      NextRow(width, height, y);
      var x := 0;
      while x < width
        invariant 0 <= x <= width
        invariant row + width <= height * width
        invariant floatArray == PackPixels(rawData, row + x)
      {
        var index := (row + x) * BytesPerPixel;
        assert index + 2 < |rawData|;
        var r := Normalize(rawData[index]);
        var g := Normalize(rawData[index + 1]);
        var b := Normalize(rawData[index + 2]);
        floatArray := floatArray + [r, g, b];
        x := x + 1;
      }
      y := y + 1;
      row := row + width;
    }
  }
}
