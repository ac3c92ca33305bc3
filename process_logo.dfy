/** The crop-box arithmetic of the parameterised logo processor: a square of
    `crop_percent` percent of the shorter side, centred, shifted by percentage
    offsets, each coordinate clamped on its own, then truncated to pixels.
    Floats are exact reals; nothing is validated, so every input is accepted. */
module ProcessLogo {
  import opened Numerics
  import opened Raster

  /** The three numeric parameters: a size percentage and two offset percentages. */
  datatype CropParams = CropParams(cropPercent: real, xOffset: real, yOffset: real)

  /** The defaults of both the function signature and the command line. */
  const Defaults := CropParams(100.0, 0.0, 0.0)

  /** A crop box before truncation to whole pixels. */
  datatype RealBox = RealBox(left: real, top: real, right: real, bottom: real)

  /** The parameters the command line yields, given the values already parsed
      from the arguments after the image path; a missing one takes its default. */
  function ParamsFromArgs(parsed: seq<real>): (p: CropParams)
    ensures |parsed| == 0 ==> p == Defaults
    ensures p.cropPercent == (if |parsed| > 0 then parsed[0] else 100.0)
    ensures p.xOffset == (if |parsed| > 1 then parsed[1] else 0.0)
    ensures p.yOffset == (if |parsed| > 2 then parsed[2] else 0.0)
  {
    CropParams(
      if |parsed| > 0 then parsed[0] else Defaults.cropPercent,
      if |parsed| > 1 then parsed[1] else Defaults.xOffset,
      if |parsed| > 2 then parsed[2] else Defaults.yOffset)
  }

  /** `min(width, height) * (crop_percent / 100)`: the shorter side at 100%,
      nothing at 0%, never negative for a non-negative percentage. */
  function CropSize(width: nat, height: nat, p: CropParams): (c: real)
    ensures p.cropPercent == 100.0 ==> c == Min(width, height) as real
    ensures p.cropPercent == 0.0 ==> c == 0.0
    ensures 0.0 <= p.cropPercent ==> 0.0 <= c
  {
    Min(width, height) as real * (p.cropPercent / 100.0)
  }

  /** The box centred on the image and shifted by the offsets, before clamping. */
  function UnclampedBox(width: nat, height: nat, p: CropParams): (b: RealBox)
    ensures b.right - b.left == CropSize(width, height, p)
    ensures b.bottom - b.top == CropSize(width, height, p)
    ensures p.xOffset == 0.0 ==> b.left == width as real - b.right
    ensures p.yOffset == 0.0 ==> b.top == height as real - b.bottom
  {
    var cropSize := CropSize(width, height, p);
    var left := (width as real - cropSize) / 2.0 + p.xOffset * width as real / 100.0;
    var top := (height as real - cropSize) / 2.0 + p.yOffset * height as real / 100.0;
    RealBox(left, top, left + cropSize, top + cropSize)
  }

  /** The offsets translate the centred box: x_offset percent of the width
      to the right and y_offset percent of the height down. */
  lemma OffsetsTranslateBox(width: nat, height: nat, p: CropParams)
    ensures var b, c := UnclampedBox(width, height, p), UnclampedBox(width, height, p.(xOffset := 0.0, yOffset := 0.0));
      var dx, dy := p.xOffset * width as real / 100.0, p.yOffset * height as real / 100.0;
      b.left == c.left + dx && b.right == c.right + dx &&
      b.top == c.top + dy && b.bottom == c.bottom + dy
  {
  }

  /** The usage example "100 -10 5": a full-size crop shifted left 10% and down
      5%. On a 200x100 image the box moves 20 pixels left and 5 down; the
      bottom then passes the image and is clamped back to 100. */
  lemma ShiftLeftDownExample()
    ensures UnclampedBox(200, 100, CropParams(100.0, -10.0, 5.0)) == RealBox(30.0, 5.0, 130.0, 105.0)
    ensures CropBox(200, 100, CropParams(100.0, -10.0, 5.0)) == PixelBox(30, 5, 130, 100)
  {
    var p := CropParams(100.0, -10.0, 5.0);
    assert CropSize(200, 100, p) == 100.0;
    assert ClampedBox(200, 100, p) == RealBox(30.0, 5.0, 130.0, 100.0);
    TruncOfNonNegative(30.0, 30);
    TruncOfNonNegative(5.0, 5);
    TruncOfNonNegative(130.0, 130);
    TruncOfNonNegative(100.0, 100);
  }

  /** `max(lo, min(x, hi))`: x itself when it lies in [lo, hi], lo when it
      lies below, hi when it lies above, and lo whenever hi < lo. */
  function Clamp(lo: real, x: real, hi: real): (c: real)
    ensures lo <= c && (lo <= hi ==> c <= hi)
    ensures lo <= x <= hi ==> c == x
    ensures x <= lo ==> c == lo
    ensures lo <= hi <= x ==> c == hi
    ensures hi < lo ==> c == lo
  {
    var m := if x <= hi then x else hi;
    if lo >= m then lo else m
  }

  /** Each coordinate clamped on its own: left and top into [0, side],
      right and bottom into [crop_size, side] (or to crop_size when it exceeds the side). */
  function ClampedBox(width: nat, height: nat, p: CropParams): (b: RealBox)
    ensures 0.0 <= b.left <= width as real && 0.0 <= b.top <= height as real
    ensures var cs := CropSize(width, height, p);
      cs <= b.right && (b.right <= width as real || b.right == cs) &&
      cs <= b.bottom && (b.bottom <= height as real || b.bottom == cs)
    ensures var u := UnclampedBox(width, height, p);
      (u.left <= 0.0 ==> b.left == 0.0) && (u.top <= 0.0 ==> b.top == 0.0) &&
      (0.0 <= u.left <= width as real ==> b.left == u.left) &&
      (0.0 <= u.top <= height as real ==> b.top == u.top) &&
      (u.left >= width as real ==> b.left == width as real) &&
      (u.top >= height as real ==> b.top == height as real)
    ensures var u, cs := UnclampedBox(width, height, p), CropSize(width, height, p);
      (cs <= width as real <= u.right ==> b.right == width as real) &&
      (cs <= height as real <= u.bottom ==> b.bottom == height as real) &&
      (cs <= u.right <= width as real ==> b.right == u.right) &&
      (cs <= u.bottom <= height as real ==> b.bottom == u.bottom) &&
      (u.right <= cs || width as real < cs ==> b.right == cs) &&
      (u.bottom <= cs || height as real < cs ==> b.bottom == cs)
  {
    var cropSize := CropSize(width, height, p);
    var u := UnclampedBox(width, height, p);
    RealBox(
      Clamp(0.0, u.left, width as real),
      Clamp(0.0, u.top, height as real),
      Clamp(cropSize, u.right, width as real),
      Clamp(cropSize, u.bottom, height as real))
  }

  /** The integer box passed to `crop`: each clamped coordinate truncated toward zero. */
  function CropBox(width: nat, height: nat, p: CropParams): (b: PixelBox)
    ensures 0 <= b.left <= width && 0 <= b.top <= height
    ensures Trunc(CropSize(width, height, p)) <= b.right <= Max(Trunc(CropSize(width, height, p)), width)
    ensures Trunc(CropSize(width, height, p)) <= b.bottom <= Max(Trunc(CropSize(width, height, p)), height)
  {
    var c := ClampedBox(width, height, p);
    var cropSize := CropSize(width, height, p);
    TruncAxis(width, cropSize, c.left, c.right);
    TruncAxis(height, cropSize, c.top, c.bottom);
    PixelBox(Trunc(c.left), Trunc(c.top), Trunc(c.right), Trunc(c.bottom))
  }

  /** Truncation keeps one axis's clamped bounds: the near edge stays in
      [0, side] and the far edge between int(crop_size) and the larger of it
      and the side. */
  lemma TruncAxis(side: nat, cropSize: real, near: real, far: real)
    requires 0.0 <= near <= side as real
    requires cropSize <= far && (far <= side as real || far == cropSize)
    ensures 0 <= Trunc(near) <= side
    ensures Trunc(cropSize) <= Trunc(far) <= Max(Trunc(cropSize), side)
  {
    TruncMonotone(0.0, near);
    TruncMonotone(near, side as real);
    TruncMonotone(cropSize, far);
    TruncMonotone(far, if far <= side as real then side as real else cropSize);
    TruncOfNonNegative(side as real, side);
  }

  /** A crop of at most the shorter side, without offsets, is already inside
      the image: clamping changes nothing and the box is the centred square. */
  lemma CentredCropUnclamped(width: nat, height: nat, p: CropParams)
    requires 0.0 <= p.cropPercent <= 100.0 && p.xOffset == 0.0 && p.yOffset == 0.0
    ensures ClampedBox(width, height, p) == UnclampedBox(width, height, p)
    ensures var b := ClampedBox(width, height, p);
      b.right - b.left == CropSize(width, height, p) && b.bottom - b.top == CropSize(width, height, p) &&
      b.left == width as real - b.right && b.top == height as real - b.bottom
  {
    CropSizeWithinShorterSide(width, height, p);
    var cropSize := CropSize(width, height, p);
    assert p.xOffset * width as real / 100.0 == 0.0 && p.yOffset * height as real / 100.0 == 0.0;
    CentredClampFree(width as real, cropSize);
    CentredClampFree(height as real, cropSize);
  }

  lemma CropSizeWithinShorterSide(width: nat, height: nat, p: CropParams)
    requires 0.0 <= p.cropPercent <= 100.0
    ensures 0.0 <= CropSize(width, height, p) <= Min(width, height) as real
  {
    var m := Min(width, height) as real;
    var f := p.cropPercent / 100.0;
    var g := 1.0 - f;
    assert 0.0 <= m && 0.0 <= f && 0.0 <= g;
    assert 0.0 <= m * g;
    assert m * g == m - m * f;
    assert 0.0 <= m * f;
  }

  /** On one axis: a centred segment no longer than the side needs no clamping. */
  lemma CentredClampFree(side: real, cropSize: real)
    requires 0.0 <= cropSize <= side
    ensures var left := (side - cropSize) / 2.0;
      Clamp(0.0, left, side) == left && Clamp(cropSize, left + cropSize, side) == left + cropSize
  {
  }

  /** The documented example: a 2000x1000 image at 50% without offsets. */
  lemma HalfCropExample()
    ensures CropSize(2000, 1000, CropParams(50.0, 0.0, 0.0)) == 500.0
    ensures CropBox(2000, 1000, CropParams(50.0, 0.0, 0.0)) == PixelBox(750, 250, 1250, 750)
  {
    var p := CropParams(50.0, 0.0, 0.0);
    assert CropSize(2000, 1000, p) == 500.0;
    var c := ClampedBox(2000, 1000, p);
    assert c == RealBox(750.0, 250.0, 1250.0, 750.0);
    TruncOfNonNegative(750.0, 750);
    TruncOfNonNegative(250.0, 250);
    TruncOfNonNegative(1250.0, 1250);
    TruncOfNonNegative(750.0, 750);
  }

  /** Clamping each coordinate on its own does not keep the box square: a
      100x100 image at 100% shifted right by 30% gives a box 70 wide, 100 tall. */
  lemma OffsetClampNotSquare()
    ensures CropBox(100, 100, CropParams(100.0, 30.0, 0.0)) == PixelBox(30, 0, 100, 100)
  {
    var p := CropParams(100.0, 30.0, 0.0);
    assert CropSize(100, 100, p) == 100.0;
    var u := UnclampedBox(100, 100, p);
    assert u == RealBox(30.0, 0.0, 130.0, 100.0);
    var c := ClampedBox(100, 100, p);
    assert c == RealBox(30.0, 0.0, 100.0, 100.0);
    TruncOfNonNegative(30.0, 30);
    TruncOfNonNegative(0.0, 0);
    TruncOfNonNegative(100.0, 100);
  }

  /** The box computation does not reject an out-of-range percentage; it yields a degenerate box,
      its right edge left of its left edge; truncation toward zero decides it:
      at -201% a 100x100 image gives a right edge of -50.5 before truncation,
      which `int()` turns into -50, not the floor -51. */
  lemma NegativePercentTruncatesTowardZero()
    ensures ClampedBox(100, 100, CropParams(-201.0, 0.0, 0.0)).right == -50.5
    ensures CropBox(100, 100, CropParams(-201.0, 0.0, 0.0)) == PixelBox(100, 100, -50, -50)
    ensures (-50.5).Floor == -51
  {
    var p := CropParams(-201.0, 0.0, 0.0);
    assert CropSize(100, 100, p) == -201.0;
    var u := UnclampedBox(100, 100, p);
    assert u == RealBox(150.5, 150.5, -50.5, -50.5);
    var c := ClampedBox(100, 100, p);
    assert c == RealBox(100.0, 100.0, -50.5, -50.5);
    TruncOfNonNegative(100.0, 100);
    assert Trunc(-50.5) == -50;
  }
}
