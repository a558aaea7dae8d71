/** `FrameBuffer` of FrameBuffer.swift: a row-major array of 24-bit colours,
    `width * height` long, written one pixel at a time. */
module PixelBuffer {
  import opened GraphicsTypes
  import opened IntArith

  /** `index(for:_:)`: row-major, with no check of either axis on its own. */
  function PixelIndex(width: int, x: int, y: int): (i: int)
    ensures width >= 1 && 0 <= x < width && y >= 0 ==> i / width == y && i % width == x
  {
    var i := width * y + x;
    if width >= 1 && 0 <= x < width && y >= 0 then
      DivModUnique(i, width, y, x);
      i
    else i
  }

  /** Every in-grid coordinate lands inside the buffer. */
  lemma InGridIndexInRange(width: int, height: int, x: int, y: int)
    requires 0 <= x < width && 0 <= y < height
    ensures 0 <= PixelIndex(width, x, y) < width * height
  {
    MulMonotone(y + 1, height, width);
    assert width * (y + 1) == width * y + width;
  }

  /** Distinct in-grid coordinates address distinct pixels. */
  lemma InGridIndexInjective(width: int, x1: int, y1: int, x2: int, y2: int)
    requires 0 <= x1 < width && 0 <= x2 < width && y1 >= 0 && y2 >= 0
    requires PixelIndex(width, x1, y1) == PixelIndex(width, x2, y2)
    ensures x1 == x2 && y1 == y2
  {
  }

  /** Because only the combined index is bounded, an `x` one row too far
      addresses the first pixels of the next row. */
  lemma IndexSpillsIntoNextRow(width: int, x: int, y: int)
    ensures PixelIndex(width, x + width, y) == PixelIndex(width, x, y + 1)
  {
    assert width * (y + 1) == width * y + width;
  }

  /** For a positive width, every buffer position is addressed by an in-grid
      coordinate (and by only one, by `InGridIndexInjective`). */
  lemma IndexCoversBuffer(width: int, height: int, i: int)
    requires width >= 1 && 0 <= i < width * height
    ensures 0 <= i % width < width && 0 <= i / width < height
    ensures PixelIndex(width, i % width, i / width) == i
  {
    var q, r := i / width, i % width;
    assert i == width * q + r;
  }

  class FrameBuffer {
    const width: int
    const height: int
    const pixelCount: int
    const pixels: array<Color24>

    ghost predicate Valid()
    {
      pixelCount == width * height && pixels.Length == pixelCount
    }

    /** `init(width:height:)`: `Array(repeating: .black, count:)` traps on a
        negative count, so the product must not be negative. */
    constructor(width: int, height: int)
      requires width * height >= 0
      ensures Valid() && fresh(pixels)
      ensures this.width == width && this.height == height
      ensures forall i :: 0 <= i < pixels.Length ==> pixels[i] == Black
    {
      this.width := width;
      this.height := height;
      this.pixelCount := width * height;
      this.pixels := new Color24[width * height](_ => Black);
    }

    function Index(x: int, y: int): (i: int)
      ensures 0 <= x < width && 0 <= y < height ==> 0 <= i < width * height
      ensures 0 <= x < width && y >= 0 ==> i / width == y && i % width == x
    {
      if 0 <= x < width && 0 <= y < height then
        InGridIndexInRange(width, height, x, y);
        PixelIndex(width, x, y)
      else PixelIndex(width, x, y)
    }

    /** `plotPixel(_:_:color:)`: the one pixel at `index(for: x, y)` takes
        the colour; every other pixel and the length stay as they were. The
        Swift subscript traps outside the buffer, hence the precondition. */
    method PlotPixel(x: int, y: int, color: Color24)
      requires Valid()
      requires 0 <= Index(x, y) < pixelCount
      modifies pixels
      ensures pixels[Index(x, y)] == color
      ensures forall i :: 0 <= i < pixels.Length && i != Index(x, y) ==> pixels[i] == old(pixels[i])
      ensures pixels[..] == old(pixels[..])[Index(x, y) := color]
    {
      pixels[Index(x, y)] := color;
    }

    /** `pixel(at:_:)`: reads without changing anything. */
    function PixelAt(x: int, y: int): (c: Color24)
      reads pixels
      requires Valid()
      requires 0 <= Index(x, y) < pixelCount
      ensures c in pixels[..]
      ensures c == pixels[..][Index(x, y)]
    {
      pixels[Index(x, y)]
    }
  }

  /** Plotting then reading the same coordinate gives back the colour; a
      second coordinate at a different index keeps its colour. */
  method PlotThenRead(fb: FrameBuffer, x: int, y: int, color: Color24, x2: int, y2: int)
    returns (got: Color24, other: Color24)
    requires fb.Valid()
    requires 0 <= fb.Index(x, y) < fb.pixelCount
    requires 0 <= fb.Index(x2, y2) < fb.pixelCount
    modifies fb.pixels
    ensures got == color
    ensures fb.Index(x2, y2) != fb.Index(x, y) ==> other == old(fb.PixelAt(x2, y2))
  {
    fb.PlotPixel(x, y, color);
    got := fb.PixelAt(x, y);
    other := fb.PixelAt(x2, y2);
  }

  /** A fresh buffer of any size reads black at every in-grid coordinate. */
  method FreshBufferIsBlack(width: int, height: int, x: int, y: int) returns (c: Color24)
    requires 0 <= x < width && 0 <= y < height
    ensures c == Black
  {
    MulMonotone(1, height, width);
    var fb := new FrameBuffer(width, height);
    InGridIndexInRange(width, height, x, y);
    c := fb.PixelAt(x, y);
  }
}
