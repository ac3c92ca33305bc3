/** The quick logo updater's crop: the largest square that fits, centred with
    integer floor division, without parameters. */
module UpdateLogo {
  import opened Numerics
  import opened Raster

  /** `size = min(width, height)`, `left = (width - size) // 2`,
      `top = (height - size) // 2`, box `(left, top, left + size, top + size)`. */
  function CentredSquare(width: nat, height: nat): (b: PixelBox)
    ensures b.right - b.left == Min(width, height) && b.bottom - b.top == Min(width, height)
    ensures 0 <= b.left && b.right <= width && 0 <= b.top && b.bottom <= height
    ensures b.left == 0 || b.top == 0
    ensures 0 <= (width - b.right) - b.left <= 1
    ensures 0 <= (height - b.bottom) - b.top <= 1
  {
    var size := Min(width, height);
    var left := (width - size) / 2;
    var top := (height - size) / 2;
    PixelBox(left, top, left + size, top + size)
  }

  /** The properties above leave no freedom: any box that is a square of the
      shorter side, inside the image, with the far margin equal to the near one
      or one pixel wider, is the centred square. */
  lemma CentredSquareUnique(width: nat, height: nat, b: PixelBox)
    requires b.right - b.left == Min(width, height) && b.bottom - b.top == Min(width, height)
    requires 0 <= b.left && 0 <= b.top
    requires 0 <= (width - b.right) - b.left <= 1
    requires 0 <= (height - b.bottom) - b.top <= 1
    ensures b == CentredSquare(width, height)
  {
    var size := Min(width, height);
    assert width - size == 2 * b.left + ((width - b.right) - b.left);
    assert height - size == 2 * b.top + ((height - b.bottom) - b.top);
  }

  /** An image that is already square is kept whole. */
  lemma SquareImageKeptWhole(side: nat)
    ensures CentredSquare(side, side) == PixelBox(0, 0, side, side)
  {
  }
}
