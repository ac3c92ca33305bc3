/** The synthetic logo: a row-by-row gradient, three nested-square position
    markers and sixteen data modules on a 7x7 module grid, all derived from the
    image size alone. Float multipliers are exact rationals, and `int()` of a
    non-negative product is floor division. */
module GenerateLogo {
  import opened Numerics
  import opened Raster

  // ---------------------------------------------------------------- gradient

  /** `i / size` as an exact fraction. */
  function Ratio(size: nat, i: nat): (q: real)
    requires i < size
    ensures 0.0 <= q < 1.0
  {
    i as real / size as real
  }

  lemma RatioMonotone(size: nat, i: nat, j: nat)
    requires i <= j < size
    ensures Ratio(size, i) <= Ratio(size, j)
  {
    var s := size as real;
    assert Ratio(size, j) - Ratio(size, i) == (j - i) as real / s;
    assert 0.0 <= (j - i) as real / s;
  }

  /** The colour of gradient row `i`: each channel moves linearly from
      (102, 16, 242) at the top toward (10, 88, 202), truncated by `int()`. */
  function GradientColor(size: nat, i: nat): (c: Rgb)
    requires i < size
    ensures 10 <= c.r <= 102 && 16 <= c.g <= 88 && 202 <= c.b <= 242
    ensures i == 0 ==> c == Rgb(102, 16, 242)
  {
    var ratio := Ratio(size, i);
    var r := 10.0 + (102.0 - 10.0) * (1.0 - ratio);
    var g := 88.0 + (16.0 - 88.0) * (1.0 - ratio);
    var b := 202.0 + (242.0 - 202.0) * (1.0 - ratio);
    TruncMonotone(10.0, r);
    TruncMonotone(r, 102.0);
    TruncMonotone(16.0, g);
    TruncMonotone(g, 88.0);
    TruncMonotone(202.0, b);
    TruncMonotone(b, 242.0);
    TruncOfNonNegative(102.0, 102);
    TruncOfNonNegative(88.0, 88);
    TruncOfNonNegative(242.0, 242);
    TruncOfNonNegative(10.0, 10);
    TruncOfNonNegative(16.0, 16);
    TruncOfNonNegative(202.0, 202);
    Rgb(Trunc(r), Trunc(g), Trunc(b))
  }

  /** The blend in integers: row i of `size` rows is
      (10 + 92(size-i)/size, 16 + 72i/size, 202 + 40(size-i)/size), each
      quotient taken with floor division. */
  lemma GradientClosedForm(size: nat, i: nat)
    requires i < size
    ensures GradientColor(size, i) ==
      Rgb(10 + 92 * (size - i) / size, 16 + 72 * i / size, 202 + 40 * (size - i) / size)
  {
    FadingChannel(10, 92, size, i);
    RisingGreen(size, i);
    FadingChannel(202, 40, size, i);
  }

  /** Green `88 + (16 - 88) * (1 - ratio)` in integers. */
  lemma RisingGreen(size: nat, i: nat)
    requires i < size
    ensures Trunc(88.0 + (16.0 - 88.0) * (1.0 - Ratio(size, i))) == 16 + 72 * i / size
  {
    var ratio := Ratio(size, i);
    assert 88.0 + (16.0 - 88.0) * (1.0 - ratio) == 16.0 + 72.0 * ratio;
    ScaleFraction(72, i, size);
    TruncQuotient(72 * i, size);
    TruncShift(16, 72.0 * ratio);
  }

  /** A channel `lo + span * (1 - ratio)` in integers. */
  lemma FadingChannel(lo: nat, span: nat, size: nat, i: nat)
    requires i < size
    ensures Trunc(lo as real + span as real * (1.0 - Ratio(size, i))) == lo + span * (size - i) / size
  {
    var rest := (size - i) as real / size as real;
    ComplementRatio(size, i);
    ScaleFraction(span, size - i, size);
    TruncQuotient(span * (size - i), size);
    TruncShift(lo, span as real * rest);
  }

  /** One minus row i's ratio is the share of rows from i on. */
  lemma ComplementRatio(size: nat, i: nat)
    requires i < size
    ensures 1.0 - Ratio(size, i) == (size - i) as real / size as real
  {
    var s := size as real;
    calc {
      (size - i) as real / s;
      (s - i as real) / s;
      s / s - i as real / s;
      1.0 - i as real / s;
      1.0 - Ratio(size, i);
    }
  }

  /** A whole factor moves into the numerator of a fraction. */
  lemma ScaleFraction(k: nat, n: nat, d: nat)
    requires d > 0
    ensures k as real * (n as real / d as real) == (k * n) as real / d as real
  {
    var q := n as real / d as real;
    assert q * d as real == n as real;
    assert (k * n) as real == (k as real * q) * d as real;
  }

  /** Down the image red and blue never increase and green never decreases. */
  lemma GradientMonotone(size: nat, i: nat, j: nat)
    requires i <= j < size
    ensures GradientColor(size, j).r <= GradientColor(size, i).r
    ensures GradientColor(size, i).g <= GradientColor(size, j).g
    ensures GradientColor(size, j).b <= GradientColor(size, i).b
  {
    RatioMonotone(size, i, j);
    var ri, rj := Ratio(size, i), Ratio(size, j);
    TruncMonotone(10.0 + 92.0 * (1.0 - rj), 10.0 + 92.0 * (1.0 - ri));
    TruncMonotone(88.0 - 72.0 * (1.0 - ri), 88.0 - 72.0 * (1.0 - rj));
    TruncMonotone(202.0 + 40.0 * (1.0 - rj), 202.0 + 40.0 * (1.0 - ri));
  }

  /** `draw.rectangle([(0, i), (size, i+1)], ...)`: two rows tall, corners inclusive. */
  function GradientRow(size: nat, i: nat): (r: Rect)
    ensures r.WellFormed()
    ensures forall x, y :: r.Covers(x, y) <==> 0 <= x <= size && (y == i || y == i + 1)
  {
    Rect(0, i, size, i + 1)
  }

  /** The gradient loop's draw operations, row 0 first. */
  function GradientOps(size: nat): (ops: seq<Op>)
    ensures |ops| == size
    ensures forall i :: 0 <= i < size ==> ops[i] == Op(GradientRow(size, i), GradientColor(size, i))
  {
    seq(size, i requires 0 <= i < size => Op(GradientRow(size, i), GradientColor(size, i)))
  }

  /** Each row rectangle overlaps the next, but the next is drawn later, so
      after the loop every pixel of row y has row y's colour. */
  lemma GradientPaintsRows(size: nat, x: int, y: int)
    requires 0 <= x <= size && 0 <= y < size
    ensures ColorAt(GradientOps(size), Accent, x, y) == GradientColor(size, y)
  {
    var ops := GradientOps(size);
    var upTo, rest := ops[..y + 1], ops[y + 1..];
    assert ops == upTo + rest;
    assert upTo == upTo[..y] + [ops[y]];
    ColorAtSnoc(upTo[..y], ops[y], Accent, x, y);
    forall k | 0 <= k < |rest| ensures !rest[k].rect.Covers(x, y) {
      assert rest[k] == ops[y + 1 + k];
    }
    ColorAtUncovered(upTo, rest, Accent, x, y);
  }

  // ------------------------------------------------------------------ layout

  /** The layout numbers derived from the size. */
  datatype Layout = Layout(padding: nat, qrSize: nat, moduleSize: nat) {
    /** `int(module_size * 2.5)`. */
    function MarkerSize(): nat { 5 * moduleSize / 2 }
    /** `int(module_size * 0.5)`, both the inner pad and the centre size. */
    function Half(): nat { moduleSize / 2 }
    /** `int(module_size * 1.5)`. */
    function InnerSize(): nat { 3 * moduleSize / 2 }
    /** `int(module_size * 0.1)`. */
    function DataInset(): nat { moduleSize / 10 }
    /** `int(module_size * 0.8)`. */
    function DataSize(): nat { 8 * moduleSize / 10 }

    /** The square the 7x7 module grid occupies. */
    function Grid(): Rect { Rect(padding, padding, padding + 7 * moduleSize, padding + 7 * moduleSize) }
  }

  /** `padding = int(size * 0.12)`, `qr_size = size - padding*2`,
      `module_size = qr_size // 7`. */
  function LayoutFor(size: nat): (l: Layout)
    ensures 100 * l.padding <= 12 * size < 100 * l.padding + 100
    ensures l.qrSize + 2 * l.padding == size
    ensures 7 * l.moduleSize <= l.qrSize < 7 * l.moduleSize + 7
  {
    var padding := 12 * size / 100;
    Layout(padding, size - 2 * padding, (size - 2 * padding) / 7)
  }

  /** The exact integer divisions are what `int()` makes of the float products. */
  lemma LayoutIsTruncation(size: nat, l: Layout)
    ensures LayoutFor(size).padding == Trunc(size as real * 0.12)
    ensures l.MarkerSize() == Trunc(l.moduleSize as real * 2.5)
    ensures l.Half() == Trunc(l.moduleSize as real * 0.5)
    ensures l.InnerSize() == Trunc(l.moduleSize as real * 1.5)
    ensures l.DataInset() == Trunc(l.moduleSize as real * 0.1)
    ensures l.DataSize() == Trunc(l.moduleSize as real * 0.8)
  {
    var m := l.moduleSize;
    TruncQuotient(12 * size, 100);
    TruncQuotient(5 * m, 2);
    TruncQuotient(m, 2);
    TruncQuotient(3 * m, 2);
    TruncQuotient(m, 10);
    TruncQuotient(8 * m, 10);
  }

  /** The layouts of the three icons the script writes. */
  lemma IconLayouts()
    ensures LayoutFor(16) == Layout(1, 14, 2) && LayoutFor(16).MarkerSize() == 5
    ensures LayoutFor(48) == Layout(5, 38, 5) && LayoutFor(48).MarkerSize() == 12
    ensures LayoutFor(128) == Layout(15, 98, 14) && LayoutFor(128).MarkerSize() == 35
  {
  }

  /** The marker is narrower than the area it is placed in. */
  lemma MarkerFitsGrid(size: nat)
    ensures LayoutFor(size).MarkerSize() <= LayoutFor(size).qrSize
  {
  }

  // ---------------------------------------------------------- position markers

  /** `draw_position_marker(x, y)`: outer white square, inner accent square,
      centre white square, drawn in that order. */
  function MarkerOps(l: Layout, x: int, y: int): (ops: seq<Op>)
    ensures |ops| == 3
  {
    var ms, ip, sz, cp, cs := l.MarkerSize(), l.Half(), l.InnerSize(), l.moduleSize, l.Half();
    [ Op(Rect(x, y, x + ms, y + ms), White),
      Op(Rect(x + ip, y + ip, x + ip + sz, y + ip + sz), Accent),
      Op(Rect(x + cp, y + cp, x + cp + cs, y + cp + cs), White) ]
  }

  /** The three squares of a marker are well formed and nested: the centre
      lies within the inner square, which lies within the outer one. */
  lemma MarkerNested(l: Layout, x: int, y: int)
    ensures var ops := MarkerOps(l, x, y);
      ops[0].rect.WellFormed() && ops[1].rect.WellFormed() && ops[2].rect.WellFormed() &&
      ops[1].rect.Within(ops[0].rect) && ops[2].rect.Within(ops[1].rect)
  {
    var m := l.moduleSize;
    assert 3 * m / 2 == m + m / 2;
    assert m / 2 + 3 * m / 2 <= 5 * m / 2;
  }

  /** A marker's colours: white centre, accent ring, white border, and
      whatever was drawn before outside its outer square. */
  lemma {:induction false} MarkerPaint(done: seq<Op>, l: Layout, x: int, y: int, bg: Rgb, px: int, py: int)
    ensures var ops := MarkerOps(l, x, y);
      ColorAt(done + ops, bg, px, py) ==
        if ops[2].rect.Covers(px, py) then White
        else if ops[1].rect.Covers(px, py) then Accent
        else if ops[0].rect.Covers(px, py) then White
        else ColorAt(done, bg, px, py)
  {
    var ops := MarkerOps(l, x, y);
    assert done + ops == ((done + [ops[0]]) + [ops[1]]) + [ops[2]];
    ColorAtSnoc((done + [ops[0]]) + [ops[1]], ops[2], bg, px, py);
    ColorAtSnoc(done + [ops[0]], ops[1], bg, px, py);
    ColorAtSnoc(done, ops[0], bg, px, py);
  }

  /** The top-left, top-right and bottom-left marker origins: the first at the
      padded corner, the second a marker's width left of the right edge of the
      QR area, the third a marker's height above its bottom edge. */
  function MarkerOrigins(l: Layout): (o: seq<(int, int)>)
    ensures |o| == 3
    ensures o[0] == (l.padding, l.padding) && o[1].1 == l.padding && o[2].0 == l.padding
    ensures o[1].0 + l.MarkerSize() == l.padding + l.qrSize && o[2].1 + l.MarkerSize() == l.padding + l.qrSize
  {
    [ (l.padding, l.padding),
      (l.padding + l.qrSize - l.MarkerSize(), l.padding),
      (l.padding, l.padding + l.qrSize - l.MarkerSize()) ]
  }

  /** The markers sit in the corners of the padded area: the top-left one at
      its corner, the top-right one's outer square ending exactly at its right
      edge, the bottom-left one's exactly at its bottom edge; all three lie
      inside it. */
  lemma MarkersAlignWithCorners(size: nat)
    ensures var l := LayoutFor(size); var o := MarkerOrigins(l);
      var area := Rect(l.padding, l.padding, l.padding + l.qrSize, l.padding + l.qrSize);
      MarkerOps(l, o[0].0, o[0].1)[0].rect.x0 == l.padding &&
      MarkerOps(l, o[0].0, o[0].1)[0].rect.y0 == l.padding &&
      MarkerOps(l, o[1].0, o[1].1)[0].rect.x1 == l.padding + l.qrSize &&
      MarkerOps(l, o[1].0, o[1].1)[0].rect.y0 == l.padding &&
      MarkerOps(l, o[2].0, o[2].1)[0].rect.x0 == l.padding &&
      MarkerOps(l, o[2].0, o[2].1)[0].rect.y1 == l.padding + l.qrSize &&
      forall k :: 0 <= k < 3 ==> MarkerOps(l, o[k].0, o[k].1)[0].rect.Within(area)
  {
    MarkerFitsGrid(size);
  }

  // ------------------------------------------------------------ data modules

  /** The constant (column, row) cells of the data modules. */
  const DataPattern: seq<(nat, nat)> := [
    (3, 0), (4, 0), (5, 0),
    (0, 3), (0, 4), (0, 5),
    (6, 3), (6, 4), (6, 5),
    (3, 6), (4, 6), (5, 6),
    (2, 2), (4, 2), (2, 4), (4, 4)
  ]

  /** Sixteen distinct cells, all on the 7x7 grid. */
  lemma DataPatternCells()
    ensures |DataPattern| == 16
    ensures forall k :: 0 <= k < |DataPattern| ==> DataPattern[k].0 <= 6 && DataPattern[k].1 <= 6
    ensures forall j, k :: 0 <= j < k < |DataPattern| ==> DataPattern[j] != DataPattern[k]
  {
  }

  /** The square of module cell (column, row) of the 7x7 grid. */
  function Cell(l: Layout, cell: (nat, nat)): Rect
  {
    var m := l.moduleSize;
    Rect(l.padding + cell.0 * m, l.padding + cell.1 * m, l.padding + cell.0 * m + m, l.padding + cell.1 * m + m)
  }

  /** The square of one data module: a well-formed square of side
      `int(m * 0.8)` whose corner lies `int(m * 0.1)` inside its cell's
      corner, so that it stays inside its cell. */
  function DataRect(l: Layout, cell: (nat, nat)): (r: Rect)
    ensures r.WellFormed()
    ensures r.x1 - r.x0 == l.DataSize() && r.y1 - r.y0 == l.DataSize()
    ensures r.x0 - Cell(l, cell).x0 == l.DataInset() && r.y0 - Cell(l, cell).y0 == l.DataInset()
    ensures r.Within(Cell(l, cell))
  {
    var c := Cell(l, cell);
    InsetFitsModule(l.moduleSize);
    Rect(c.x0 + l.DataInset(), c.y0 + l.DataInset(), c.x0 + l.DataInset() + l.DataSize(), c.y0 + l.DataInset() + l.DataSize())
  }

  /** A data module stays inside its own cell, hence inside the module grid. */
  lemma DataRectInCell(l: Layout, cell: (nat, nat))
    requires cell.0 <= 6 && cell.1 <= 6
    ensures DataRect(l, cell).Within(Cell(l, cell)) && Cell(l, cell).Within(l.Grid())
    ensures DataRect(l, cell).Within(l.Grid())
  {
    CellEndsOnGrid(cell.0, l.moduleSize);
    CellEndsOnGrid(cell.1, l.moduleSize);
  }

  /** A tenth of a module plus eight tenths, each rounded down, fit in one module. */
  lemma InsetFitsModule(m: nat)
    ensures m / 10 + 8 * m / 10 <= m
  {
  }

  /** Cell c of the seven ends at or before the grid's edge. */
  lemma {:induction false} CellEndsOnGrid(c: nat, m: nat)
    requires c <= 6
    ensures 0 <= c * m && c * m + m <= 7 * m
  {
    if c > 0 {
      CellEndsOnGrid(c - 1, m);
      assert c * m == (c - 1) * m + m;
    }
  }

  /** The data loop's draw operations, in pattern order. */
  function DataOps(l: Layout): (ops: seq<Op>)
    ensures |ops| == |DataPattern|
    ensures forall k :: 0 <= k < |ops| ==> ops[k] == Op(DataRect(l, DataPattern[k]), White)
  {
    seq(|DataPattern|, k requires 0 <= k < |DataPattern| => Op(DataRect(l, DataPattern[k]), White))
  }

  /** Drawing only white operations, a pixel any of them covers ends white. */
  lemma {:induction false} WhiteOnTop(ops: seq<Op>, tail: seq<Op>, bg: Rgb, x: int, y: int, k: nat)
    requires forall j :: 0 <= j < |tail| ==> tail[j].color == White
    requires k < |tail| && tail[k].rect.Covers(x, y)
    ensures ColorAt(ops + tail, bg, x, y) == White
  {
    var init := tail[..|tail| - 1];
    assert (ops + tail)[..|ops + tail| - 1] == ops + init;
    assert (ops + tail)[|ops + tail| - 1] == tail[|tail| - 1];
    if k < |tail| - 1 && !tail[|tail| - 1].rect.Covers(x, y) {
      WhiteOnTop(ops, init, bg, x, y, k);
    }
  }

  // ------------------------------------------------------------ whole logo

  /** The three position markers' operations: top-left, top-right, bottom-left. */
  function AllMarkerOps(l: Layout): (ops: seq<Op>)
    ensures |ops| == 9
  {
    var o := MarkerOrigins(l);
    MarkerOps(l, o[0].0, o[0].1) + MarkerOps(l, o[1].0, o[1].1) + MarkerOps(l, o[2].0, o[2].1)
  }

  /** Every draw operation of the logo, in the order the script issues them. */
  function LogoOps(size: nat): (ops: seq<Op>)
    ensures |ops| == size + 9 + |DataPattern|
  {
    var l := LayoutFor(size);
    GradientOps(size) + AllMarkerOps(l) + DataOps(l)
  }

  /** The logo's fills come in three runs: one per gradient row, nine for
      the markers, then sixteen white data modules. */
  lemma LogoOpsInOrder(size: nat)
    ensures var ops, l := LogoOps(size), LayoutFor(size);
      ops[..size] == GradientOps(size) && ops[size..size + 9] == AllMarkerOps(l) &&
      ops[size + 9..] == DataOps(l) &&
      forall k :: size + 9 <= k < |ops| ==> ops[k].color == White
  {
    var ops, l := LogoOps(size), LayoutFor(size);
    assert ops[size + 9..] == DataOps(l);
    forall k | size + 9 <= k < |ops| ensures ops[k].color == White {
      assert ops[k] == DataOps(l)[k - size - 9];
    }
  }

  /** The data modules are drawn last and are all white, so every pixel a
      data module covers is white in the finished picture. */
  lemma DataModulesWhite(size: nat, k: nat, x: int, y: int)
    requires k < |DataPattern| && DataRect(LayoutFor(size), DataPattern[k]).Covers(x, y)
    ensures ColorAt(LogoOps(size), Accent, x, y) == White
  {
    var l := LayoutFor(size);
    var before := GradientOps(size) + AllMarkerOps(l);
    assert LogoOps(size) == before + DataOps(l);
    WhiteOnTop(before, DataOps(l), Accent, x, y, k);
  }

  /** Wherever no marker square and no data module lies, the finished picture
      shows the gradient colour of the pixel's row. */
  lemma BackgroundShowsGradient(size: nat, x: int, y: int)
    requires 0 <= x < size && 0 <= y < size
    requires forall k :: 0 <= k < 9 ==> !AllMarkerOps(LayoutFor(size))[k].rect.Covers(x, y)
    requires forall k :: 0 <= k < |DataPattern| ==> !DataRect(LayoutFor(size), DataPattern[k]).Covers(x, y)
    ensures ColorAt(LogoOps(size), Accent, x, y) == GradientColor(size, y)
  {
    var l := LayoutFor(size);
    var top := AllMarkerOps(l) + DataOps(l);
    forall k | 0 <= k < |top| ensures !top[k].rect.Covers(x, y) {
      if k >= 9 {
        assert top[k] == DataOps(l)[k - 9];
      }
    }
    assert LogoOps(size) == GradientOps(size) + top;
    ColorAtUncovered(GradientOps(size), top, Accent, x, y);
    GradientPaintsRows(size, x, y);
  }

  /** `draw_position_marker`, drawing into the closure's canvas. */
  method DrawPositionMarker(canvas: Canvas, l: Layout, x: int, y: int, ghost done: seq<Op>)
    requires canvas.Valid() && canvas.Shows(done, Accent)
    modifies canvas.pixels
    ensures canvas.Shows(done + MarkerOps(l, x, y), Accent)
  {
    var markerSize := l.MarkerSize();
    var innerPad, innerSize := l.Half(), l.InnerSize();
    var centerPad, centerSize := l.moduleSize, l.Half();
    MarkerNested(l, x, y);
    var ops := MarkerOps(l, x, y);
    canvas.Draw(Op(Rect(x, y, x + markerSize, y + markerSize), White), done, Accent);
    canvas.Draw(Op(Rect(x + innerPad, y + innerPad, x + innerPad + innerSize, y + innerPad + innerSize), Accent),
                done + [ops[0]], Accent);
    canvas.Draw(Op(Rect(x + centerPad, y + centerPad, x + centerPad + centerSize, y + centerPad + centerSize), White),
                done + [ops[0]] + [ops[1]], Accent);
    assert done + [ops[0]] + [ops[1]] + [ops[2]] == done + ops;
  }

  /** The gradient loop: one two-row rectangle per row, top to bottom. */
  method DrawGradient(canvas: Canvas, size: nat)
    requires canvas.Valid() && canvas.Shows([], Accent)
    modifies canvas.pixels
    ensures canvas.Shows(GradientOps(size), Accent)
  {
    ghost var gradient := GradientOps(size);
    for i := 0 to size
      invariant canvas.Shows(gradient[..i], Accent)
    {
      canvas.Draw(Op(GradientRow(size, i), GradientColor(size, i)), gradient[..i], Accent);
      assert gradient[..i + 1] == gradient[..i] + [gradient[i]];
    }
    assert gradient[..size] == gradient;
  }

  /** The data loop: one inset white square per cell of the pattern. */
  method DrawDataModules(canvas: Canvas, l: Layout, ghost done: seq<Op>)
    requires canvas.Valid() && canvas.Shows(done, Accent)
    modifies canvas.pixels
    ensures canvas.Shows(done + DataOps(l), Accent)
  {
    ghost var data := DataOps(l);
    DataPatternCells();
    assert done + data[..0] == done;
    for k := 0 to |DataPattern|
      invariant canvas.Shows(done + data[..k], Accent)
    {
      var (x, y) := DataPattern[k];
      var xPos := l.padding + x * l.moduleSize + l.DataInset();
      var yPos := l.padding + y * l.moduleSize + l.DataInset();
      var moduleDrawSize := l.DataSize();
      assert Rect(xPos, yPos, xPos + moduleDrawSize, yPos + moduleDrawSize) == DataRect(l, DataPattern[k]);
      canvas.Draw(Op(Rect(xPos, yPos, xPos + moduleDrawSize, yPos + moduleDrawSize), White), done + data[..k], Accent);
      assert done + data[..k + 1] == done + data[..k] + [data[k]];
    }
    assert data[..|DataPattern|] == data;
  }

  /** The three `draw_position_marker` calls. */
  method DrawPositionMarkers(canvas: Canvas, l: Layout, ghost done: seq<Op>)
    requires canvas.Valid() && canvas.Shows(done, Accent)
    modifies canvas.pixels
    ensures canvas.Shows(done + AllMarkerOps(l), Accent)
  {
    var markerSize: int := l.MarkerSize();
    var padding: int, qrSize: int := l.padding, l.qrSize;
    ghost var o := MarkerOrigins(l);
    assert o[1] == (padding + qrSize - markerSize, padding) && o[2] == (padding, padding + qrSize - markerSize);
    DrawPositionMarker(canvas, l, padding, padding, done);
    DrawPositionMarker(canvas, l, padding + qrSize - markerSize, padding, done + MarkerOps(l, o[0].0, o[0].1));
    DrawPositionMarker(canvas, l, padding, padding + qrSize - markerSize,
                       done + MarkerOps(l, o[0].0, o[0].1) + MarkerOps(l, o[1].0, o[1].1));
    assert done + MarkerOps(l, o[0].0, o[0].1) + MarkerOps(l, o[1].0, o[1].1) + MarkerOps(l, o[2].0, o[2].1)
      == done + AllMarkerOps(l);
  }

  /** `generate_logo(size)` up to the rounded-corner mask: a size x size
      canvas showing exactly the logo's draw operations over the accent fill. */
  method Generate(size: nat) returns (canvas: Canvas)
    ensures canvas.Valid() && canvas.width == size && canvas.height == size
    ensures canvas.Shows(LogoOps(size), Accent)
  {
    canvas := new Canvas(size, size, Accent);
    DrawGradient(canvas, size);
    var l := LayoutFor(size);
    DrawPositionMarkers(canvas, l, GradientOps(size));
    DrawDataModules(canvas, l, GradientOps(size) + AllMarkerOps(l));
    assert GradientOps(size) + AllMarkerOps(l) + DataOps(l) == LogoOps(size);
  }
}
