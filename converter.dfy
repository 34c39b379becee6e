/** The two raw-image converters. The full converter walks the whole image row by
    row and writes every pixel as an RGB565 word, low byte first; the cropping
    converter first cuts a centred 240 x 320 window out of the image and then does
    the same over the window. The output file is the byte sequence returned. */
module Converter {
  import opened Rgb565

  /** Size of the display the cropping converter prepares images for. */
  const CropWidth: nat := 240
  const CropHeight: nat := 320

  // An image is an `array2<Rgb>` indexed like `getpixel((x, y))`:
  // `img[x, y]`, with `img.Length0` the width and `img.Length1` the height.
  // Each pixel becomes one RGB565 word; the output is the words' bytes.

  /** The words of row y of the image, left to right. */
  function RowWords(img: array2<Rgb>, y: nat): seq<Word>
    requires y < img.Length1
    reads img
  {
    seq(img.Length0, x requires 0 <= x < img.Length0 reads img => Encode(img[x, y]))
  }

  /** The words of the first n rows, one row after another (row-major order). */
  function ScanWords(img: array2<Rgb>, n: nat): seq<Word>
    requires n <= img.Length1
    reads img
    decreases n
  {
    if n == 0 then [] else ScanWords(img, n - 1) + RowWords(img, n - 1)
  }

  lemma {:induction false} ScanLength(img: array2<Rgb>, n: nat)
    requires n <= img.Length1
    ensures |ScanWords(img, n)| == n * img.Length0
    decreases n
  {
    if n > 0 {
      ScanLength(img, n - 1);
      assert n * img.Length0 == (n - 1) * img.Length0 + img.Length0;
    }
  }

  /** The position of pixel (x, y) in row-major order. */
  function ScanIndex(width: nat, x: nat, y: nat): nat
  {
    y * width + x
  }

  /** Pixel (x, y) is word number y * width + x of the scan. */
  lemma {:induction false} ScanAt(img: array2<Rgb>, n: nat, x: nat, y: nat)
    requires n <= img.Length1 && y < n && x < img.Length0
    ensures |ScanWords(img, n)| == n * img.Length0
    ensures ScanIndex(img.Length0, x, y) < n * img.Length0
    ensures ScanWords(img, n)[ScanIndex(img.Length0, x, y)] == Encode(img[x, y])
    decreases n
  {
    var w := img.Length0;
    var i := ScanIndex(w, x, y);
    var prev, row := ScanWords(img, n - 1), RowWords(img, n - 1);
    ScanLength(img, n - 1);
    assert ScanWords(img, n) == prev + row;
    assert n * w == (n - 1) * w + w;
    if y < n - 1 {
      ScanAt(img, n - 1, x, y);
      assert ScanWords(img, n)[i] == prev[i];
    } else {
      assert i == (n - 1) * w + x;
      assert ScanWords(img, n)[i] == row[x];
    }
  }

  /** Byte offset of pixel (x, y) in the output of an image `width` pixels wide. */
  function PixelOffset(width: nat, x: nat, y: nat): nat
  {
    2 * ScanIndex(width, x, y)
  }

  /** The bytes written for a run of words: each one little-endian, in order. */
  function LeBytes(ws: seq<Word>): (out: seq<Byte>)
    ensures |out| == 2 * |ws|
  {
    if ws == [] then [] else LeBytes(ws[..|ws| - 1]) + WordBytes(ws[|ws| - 1])
  }

  lemma LeBytesAppend(ws: seq<Word>, w: Word)
    ensures LeBytes(ws + [w]) == LeBytes(ws) + WordBytes(w)
  {
    assert (ws + [w])[..|ws|] == ws;
  }

  /** One more word of the current row appends its two bytes to the output so far. */
  lemma LeBytesNext(done: seq<Word>, row: seq<Word>, x: nat)
    requires x < |row|
    ensures LeBytes(done + row[..x + 1]) == LeBytes(done + row[..x]) + WordBytes(row[x])
  {
    LeBytesAppend(done + row[..x], row[x]);
    assert done + row[..x + 1] == (done + row[..x]) + [row[x]];
  }

  /** Word i of the run occupies bytes 2i and 2i+1 of the output. */
  lemma {:induction false} LeBytesAt(ws: seq<Word>, i: nat)
    requires i < |ws|
    ensures LeBytes(ws)[2 * i .. 2 * i + 2] == WordBytes(ws[i])
  {
    var n := |ws| - 1;
    if i < n {
      LeBytesAt(ws[..n], i);
      assert LeBytes(ws)[..2 * n] == LeBytes(ws[..n]);
    }
  }

  /** The output holds 2 * width * height bytes. */
  lemma ScanSize(img: array2<Rgb>)
    ensures |LeBytes(ScanWords(img, img.Length1))| == 2 * img.Length0 * img.Length1
  {
    var w, h := img.Length0, img.Length1;
    ScanLength(img, h);
    assert 2 * (h * w) == 2 * w * h;
  }

  /** Where each pixel lands in the output: pixel (x, y) is the word at byte offset
      2 * (y * width + x). */
  lemma ScanLayout(img: array2<Rgb>)
    ensures forall x: nat, y: nat :: x < img.Length0 && y < img.Length1 ==>
              PixelOffset(img.Length0, x, y) + 2 <= |LeBytes(ScanWords(img, img.Length1))| &&
              LeBytes(ScanWords(img, img.Length1))[PixelOffset(img.Length0, x, y) .. PixelOffset(img.Length0, x, y) + 2]
                == WordBytes(Encode(img[x, y]))
  {
    forall x: nat, y: nat | x < img.Length0 && y < img.Length1
      ensures PixelOffset(img.Length0, x, y) + 2 <= |LeBytes(ScanWords(img, img.Length1))|
      ensures LeBytes(ScanWords(img, img.Length1))[PixelOffset(img.Length0, x, y) .. PixelOffset(img.Length0, x, y) + 2]
                == WordBytes(Encode(img[x, y]))
    {
      PixelLayout(img, x, y);
    }
  }

  /** The two bytes of one pixel in the output. */
  lemma PixelLayout(img: array2<Rgb>, x: nat, y: nat)
    requires x < img.Length0 && y < img.Length1
    ensures PixelOffset(img.Length0, x, y) + 2 <= |LeBytes(ScanWords(img, img.Length1))|
    ensures LeBytes(ScanWords(img, img.Length1))[PixelOffset(img.Length0, x, y) .. PixelOffset(img.Length0, x, y) + 2]
              == WordBytes(Encode(img[x, y]))
  {
    var ws := ScanWords(img, img.Length1);
    var i := ScanIndex(img.Length0, x, y);
    ScanAt(img, img.Length1, x, y);
    LeBytesAt(ws, i);
  }

  /** The nested `for y` / `for x` loops of the full converter: every pixel of the
      image, row by row, written as an unsigned 16-bit little-endian RGB565 word. */
  method Serialise(img: array2<Rgb>) returns (out: seq<Byte>)
    ensures out == LeBytes(ScanWords(img, img.Length1))
    ensures |out| == 2 * img.Length0 * img.Length1
    ensures forall x: nat, y: nat :: x < img.Length0 && y < img.Length1 ==>
              PixelOffset(img.Length0, x, y) + 2 <= |out| &&
              out[PixelOffset(img.Length0, x, y) .. PixelOffset(img.Length0, x, y) + 2] == WordBytes(Encode(img[x, y]))
  {
    out := [];
    var y := 0;
    while y < img.Length1
      invariant y <= img.Length1
      invariant out == LeBytes(ScanWords(img, y))
    {
      out := WriteRow(img, y, ScanWords(img, y), out);
      y := y + 1;
    }
    ScanSize(img);
    ScanLayout(img);
  }

  /** The inner `for x` loop: row y, pixel by pixel, appended to the output written
      so far for the words `done`. */
  method WriteRow(img: array2<Rgb>, y: nat, ghost done: seq<Word>, out: seq<Byte>) returns (next: seq<Byte>)
    requires y < img.Length1 && out == LeBytes(done)
    ensures next == LeBytes(done + RowWords(img, y))
  {
    ghost var row := RowWords(img, y);
    assert done + row[..0] == done;
    next := out;
    var x := 0;
    while x < img.Length0
      invariant x <= img.Length0
      invariant next == LeBytes(done + row[..x])
    {
      var px := img[x, y];
      var word := Encode(px);
      LeBytesNext(done, row, x);
      next := next + WordBytes(word);
      x := x + 1;
    }
    assert row[..img.Length0] == row;
  }

  /** A crop rectangle: left and top inclusive, right and bottom exclusive. */
  datatype Box = Box(left: int, top: int, right: int, bottom: int)

  /** The centred crop box `((W - 240) // 2, (H - 320) // 2, left + 240, top + 320)`.
      Python's `//` floors; for the positive divisor 2 that is Dafny's `/`. */
  function CropBox(width: nat, height: nat): (box: Box)
    ensures box.right - box.left == CropWidth && box.bottom - box.top == CropHeight
    ensures (width - box.right) - box.left in {0, 1}
    ensures (height - box.bottom) - box.top in {0, 1}
    ensures width >= CropWidth ==> 0 <= box.left && box.right <= width
    ensures height >= CropHeight ==> 0 <= box.top && box.bottom <= height
  {
    var left := (width as int - CropWidth as int) / 2;
    var top := (height as int - CropHeight as int) / 2;
    Box(left, top, left + CropWidth, top + CropHeight)
  }

  /** Pixel (x, y) of the cropped image: the source pixel under the box, or the
      fill value the imaging library supplies where the box extends past the image. */
  function CropPixel(img: array2<Rgb>, box: Box, pad: Rgb, x: nat, y: nat): Rgb
    reads img
  {
    var sx, sy := box.left + x, box.top + y;
    if 0 <= sx < img.Length0 && 0 <= sy < img.Length1 then img[sx, sy] else pad
  }

  /** An image at least as large as the display in both directions is cut without
      padding: every pixel of the window is the source pixel under the centred box. */
  lemma CentredCropInside(img: array2<Rgb>, pad: Rgb, x: nat, y: nat)
    requires img.Length0 >= CropWidth && img.Length1 >= CropHeight
    requires x < CropWidth && y < CropHeight
    ensures var box := CropBox(img.Length0, img.Length1);
      && 0 <= box.left + x < img.Length0 && 0 <= box.top + y < img.Length1
      && CropPixel(img, box, pad, x, y) == img[box.left + x, box.top + y]
  {
  }

  /** An image narrower than the display gets the fill value down the window's left
      column: the centred box then starts left of the image. */
  lemma NarrowCropPadded(img: array2<Rgb>, pad: Rgb, y: nat)
    requires img.Length0 < CropWidth
    ensures CropBox(img.Length0, img.Length1).left < 0
    ensures CropPixel(img, CropBox(img.Length0, img.Length1), pad, 0, y) == pad
  {
  }

  /** `img.crop(box)` for a box of the display's size. */
  method Crop(img: array2<Rgb>, box: Box, pad: Rgb) returns (c: array2<Rgb>)
    requires box.right - box.left == CropWidth && box.bottom - box.top == CropHeight
    ensures fresh(c) && c.Length0 == CropWidth && c.Length1 == CropHeight
    ensures forall x, y :: 0 <= x < CropWidth && 0 <= y < CropHeight ==> c[x, y] == CropPixel(img, box, pad, x, y)
  {
    c := new Rgb[CropWidth, CropHeight]((x: nat, y: nat) reads img => CropPixel(img, box, pad, x, y));
  }

  /** The cropping converter: cut the centred 240 x 320 window, then write it row by
      row exactly as the full converter does. The output is the full converter's
      output for the window: 153600 bytes, with the window's pixel (x, y) at byte
      offset 2 * (240 * y + x). */
  method ConvertCropped(img: array2<Rgb>, pad: Rgb) returns (window: array2<Rgb>, out: seq<Byte>)
    ensures window.Length0 == CropWidth && window.Length1 == CropHeight
    ensures forall x, y :: 0 <= x < CropWidth && 0 <= y < CropHeight ==>
              window[x, y] == CropPixel(img, CropBox(img.Length0, img.Length1), pad, x, y)
    ensures out == LeBytes(ScanWords(window, window.Length1))
    ensures |out| == 2 * CropWidth * CropHeight == 153600
    ensures forall x, y :: 0 <= x < CropWidth && 0 <= y < CropHeight ==>
              out[PixelOffset(CropWidth, x, y) .. PixelOffset(CropWidth, x, y) + 2]
                == WordBytes(Encode(CropPixel(img, CropBox(img.Length0, img.Length1), pad, x, y)))
  {
    var box := CropBox(img.Length0, img.Length1);
    window := Crop(img, box, pad);
    out := Serialise(window);
  }
}
