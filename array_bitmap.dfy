/**
 * ArrayBitmap (arrayBitmap.hpp / arrayBitmap.cpp): a width x height grid
 * of 32-bit pixels stored row by row in one buffer.  The image decoder
 * that `load` calls is not modelled: its result is a parameter.
 */
module Bitmaps {
  type int32 = x: int | -0x8000_0000 <= x < 0x8000_0000

  const INT32_MAX: int := 0x7fff_ffff
  /** sizeof(int32) */
  const PIXEL_BYTES: int := 4

  /** The buffer position of pixel (x, y). */
  function Index(x: int, y: int, width: int): int
  {
    x + y * width
  }

  /** In-range coordinates land inside the buffer. */
  lemma IndexInRange(x: int, y: int, width: int, height: int)
    requires 0 <= x < width && 0 <= y < height
    ensures 0 <= Index(x, y, width) < width * height
  {
    assert y * width <= (height - 1) * width;
  }

  /** Distinct in-range coordinates land on distinct cells. */
  lemma IndexInjective(x0: int, y0: int, x1: int, y1: int, width: int)
    requires 0 <= x0 < width && 0 <= x1 < width && 0 <= y0 && 0 <= y1
    requires Index(x0, y0, width) == Index(x1, y1, width)
    ensures x0 == x1 && y0 == y1
  {
    if y0 < y1 {
      RowGap(y0, y1, width);
    } else if y1 < y0 {
      RowGap(y1, y0, width);
    }
  }

  /** Rows lo < hi start at least a full row apart. */
  lemma RowGap(lo: int, hi: int, width: int)
    requires lo < hi && width > 0
    ensures hi * width - lo * width >= width
  {
    var k := hi - lo - 1;
    assert hi * width - lo * width == k * width + width;
    assert k * width >= 0;
  }

  /**
   * After set(x, y, p), get(x, y) reads p and every other in-range pixel
   * reads what it read before.
   */
  lemma SetThenGet(cells: seq<int32>, width: int, height: int, x: int, y: int, p: int32, u: int, v: int)
    requires |cells| == width * height
    requires 0 <= x < width && 0 <= y < height && 0 <= u < width && 0 <= v < height
    ensures 0 <= Index(x, y, width) < |cells| && 0 <= Index(u, v, width) < |cells|
    ensures cells[Index(x, y, width) := p][Index(u, v, width)] == if u == x && v == y then p else cells[Index(u, v, width)]
  {
    IndexInRange(x, y, width, height);
    IndexInRange(u, v, width, height);
    if Index(x, y, width) == Index(u, v, width) {
      IndexInjective(x, y, u, v, width);
    }
  }

  /** What the decoder produced: its size and its pixels, row by row. */
  datatype Image = Image(width: int32, height: int32, data: seq<int32>)

  class ArrayBitmap {
    var width: int32
    var height: int32
    var pixels: array<int32>

    /** The buffer holds width * height pixels, a count that fits an int32. */
    ghost predicate Valid()
      reads this
    {
      width > 0 && height > 0 && width * height <= INT32_MAX && pixels.Length == width * height
    }

    /** getPixelsSize: the buffer's size in bytes. */
    function PixelsSize(): (n: int)
      reads this
      requires Valid()
      ensures n == pixels.Length * PIXEL_BYTES
    {
      width * height * PIXEL_BYTES
    }

    /** ArrayBitmap(width, height): a fresh buffer of unspecified pixels. */
    constructor (widthIn: int32, heightIn: int32)
      requires widthIn > 0 && heightIn > 0 && widthIn * heightIn <= INT32_MAX
      ensures Valid() && fresh(pixels)
      ensures width == widthIn && height == heightIn
    {
      width, height := widthIn, heightIn;
      pixels := new int32[widthIn * heightIn];
    }

    /** ArrayBitmap(width, height, pixelsIn): a fresh buffer holding a copy of pixelsIn. */
    constructor Copy(widthIn: int32, heightIn: int32, pixelsIn: array<int32>)
      requires widthIn > 0 && heightIn > 0 && widthIn * heightIn <= INT32_MAX
      requires widthIn * heightIn <= pixelsIn.Length
      ensures Valid() && fresh(pixels)
      ensures width == widthIn && height == heightIn
      ensures pixels[..] == pixelsIn[..widthIn * heightIn]
    {
      width, height := widthIn, heightIn;
      var n := widthIn * heightIn;
      var buffer := new int32[n];
      for k := 0 to n
        invariant forall j | 0 <= j < k :: buffer[j] == pixelsIn[j]
      {
        buffer[k] := pixelsIn[k];
      }
      pixels := buffer;
    }

    /** get(x, y): the pixel at x + y * width. */
    method Get(x: int32, y: int32) returns (p: int32)
      requires Valid() && 0 <= x < width && 0 <= y < height
      ensures 0 <= Index(x, y, width) < pixels.Length
      ensures p == pixels[Index(x, y, width)]
    {
      IndexInRange(x, y, width, height);
      p := pixels[x + y * width];
    }

    /** set(x, y, p): only the pixel at x + y * width changes. */
    method Set(x: int32, y: int32, p: int32)
      requires Valid() && 0 <= x < width && 0 <= y < height
      modifies pixels
      ensures Valid()
      ensures 0 <= Index(x, y, width) < pixels.Length
      ensures pixels[..] == old(pixels[..])[Index(x, y, width) := p]
    {
      IndexInRange(x, y, width, height);
      pixels[x + y * width] := p;
    }

    /**
     * clear(color): memset<int32> over getPixelsSize() bytes writes `color`
     * into every pixel (the byte count is a whole number of pixels).
     */
    method Clear(color: int32)
      requires Valid()
      modifies pixels
      ensures Valid()
      ensures forall k | 0 <= k < pixels.Length :: pixels[k] == color
    {
      for k := 0 to pixels.Length
        invariant forall j | 0 <= j < k :: pixels[j] == color
      {
        pixels[k] := color;
      }
    }

    /**
     * load: `decoded` is what the decoder returned; None stands for its
     * null result.  A same-sized image is copied into the existing buffer;
     * otherwise the size changes and a fresh buffer of the new size
     * receives the image.
     */
    method Load(decoded: Option<Image>) returns (ok: bool)
      requires Valid()
      requires decoded.Some? ==> DecodedFits(decoded.value)
      modifies this, pixels
      ensures Valid()
      ensures ok == decoded.Some?
      ensures !ok ==> (width == old(width) && height == old(height) && pixels == old(pixels)
        && pixels[..] == old(pixels[..]))
      ensures ok ==> (width == decoded.value.width && height == decoded.value.height
        && pixels[..] == decoded.value.data)
      ensures ok && decoded.value.width == old(width) && decoded.value.height == old(height) ==> pixels == old(pixels)
      ensures ok && (decoded.value.width != old(width) || decoded.value.height != old(height)) ==> fresh(pixels)
    {
      if decoded.None? {
        return false;
      }
      var img := decoded.value;
      if img.width == width && img.height == height {
        CopyIn(pixels, img.data);
      } else {
        width := img.width;
        height := img.height;
        pixels := new int32[img.width * img.height];
        CopyIn(pixels, img.data);
      }
      return true;
    }
  }

  /** An image the bitmap can hold: positive size, int32 pixel count, one value per pixel. */
  predicate DecodedFits(img: Image)
  {
    img.width > 0 && img.height > 0 && img.width * img.height <= INT32_MAX
    && |img.data| == img.width * img.height
  }

  /** memcpy of a whole buffer's worth of pixels. */
  method CopyIn(dest: array<int32>, data: seq<int32>)
    requires |data| == dest.Length
    modifies dest
    ensures dest[..] == data
  {
    for k := 0 to dest.Length
      invariant forall j | 0 <= j < k :: dest[j] == data[j]
    {
      dest[k] := data[k];
    }
    assert dest[..] == data;
  }

  datatype Option<T> = None | Some(value: T)
}
