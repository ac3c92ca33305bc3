/** How the two croppers relate: the parameterised one, at its defaults, picks
    the same pixels as the quick one. */
module CropAgreement {
  import opened Numerics
  import opened Raster
  import ProcessLogo
  import UpdateLogo

  /** With crop 100% and no offsets (which is also what the command line gives
      when only the image is named), the truncated box is exactly the centred
      square of the shorter side; with exact arithmetic the two truncation
      orders do not differ by even one pixel. */
  lemma DefaultsGiveCentredSquare(width: nat, height: nat)
    ensures ProcessLogo.CropBox(width, height, ProcessLogo.ParamsFromArgs([])) == UpdateLogo.CentredSquare(width, height)
    ensures ProcessLogo.CropBox(width, height, ProcessLogo.Defaults) == UpdateLogo.CentredSquare(width, height)
  {
    var p := ProcessLogo.Defaults;
    var m := Min(width, height);
    assert ProcessLogo.CropSize(width, height, p) == m as real;
    ProcessLogo.CentredCropUnclamped(width, height, p);
    var c := ProcessLogo.ClampedBox(width, height, p);
    assert c.left == (width - m) as real / 2.0;
    assert c.top == (height - m) as real / 2.0;
    TruncQuotient(width - m, 2);
    TruncQuotient(height - m, 2);
    var q, q' := (width - m) / 2, (height - m) / 2;
    assert (width - m) as real / 2.0 + m as real >= 0.0;
    TruncOfNonNegative(c.right, q + m) by {
      assert q as real <= c.left < q as real + 1.0;
    }
    TruncOfNonNegative(c.bottom, q' + m) by {
      assert q' as real <= c.top < q' as real + 1.0;
    }
  }
}
