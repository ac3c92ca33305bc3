/** The small part of the raster library the scripts rely on: colours, the
    inclusive rectangles `ImageDraw.rectangle` fills, the integer box
    `Image.crop` takes, and an RGB pixel buffer that rectangles are drawn into. */
module Raster {

  /** An RGB colour; each script only ever builds channels in 0..255. */
  datatype Rgb = Rgb(r: int, g: int, b: int)

  const White := Rgb(255, 255, 255)
  /** The accent colour '#0a58ca'. */
  const Accent := Rgb(10, 88, 202)

  /** A rectangle as `draw.rectangle` receives it: both corners are inclusive. */
  datatype Rect = Rect(x0: int, y0: int, x1: int, y1: int) {
    /** The library rejects a rectangle whose second corner precedes the first. */
    predicate WellFormed() { x0 <= x1 && y0 <= y1 }

    predicate Covers(x: int, y: int) { x0 <= x <= x1 && y0 <= y <= y1 }

    /** Every point of this rectangle is a point of `outer`. */
    predicate Within(outer: Rect) {
      outer.x0 <= x0 && x1 <= outer.x1 && outer.y0 <= y0 && y1 <= outer.y1
    }
  }

  /** A crop box (left, top, right, bottom) in whole pixels; right and bottom are exclusive. */
  datatype PixelBox = PixelBox(left: int, top: int, right: int, bottom: int)

  /** One fill operation: a rectangle and its colour. */
  datatype Op = Op(rect: Rect, color: Rgb)

  /** The colour of pixel (x, y) after drawing `ops` in order over a buffer
      filled with `bg`: the colour of the last operation covering the pixel. */
  function ColorAt(ops: seq<Op>, bg: Rgb, x: int, y: int): (c: Rgb)
  {
    if ops == [] then bg
    else if ops[|ops| - 1].rect.Covers(x, y) then ops[|ops| - 1].color
    else ColorAt(ops[..|ops| - 1], bg, x, y)
  }

  /** `ColorAt` means what it says: a pixel no operation covers keeps the
      background, and otherwise it has the colour of a covering operation
      after which no operation covers it. */
  lemma {:induction false} ColorAtIsLastCover(ops: seq<Op>, bg: Rgb, x: int, y: int)
    ensures (forall k :: 0 <= k < |ops| ==> !ops[k].rect.Covers(x, y)) ==> ColorAt(ops, bg, x, y) == bg
    ensures (exists k :: 0 <= k < |ops| && ops[k].rect.Covers(x, y)) ==>
      exists k :: 0 <= k < |ops| && ops[k].rect.Covers(x, y) && ColorAt(ops, bg, x, y) == ops[k].color &&
        forall j :: k < j < |ops| ==> !ops[j].rect.Covers(x, y)
  {
    if ops != [] {
      var n := |ops| - 1;
      var init := ops[..n];
      ColorAtIsLastCover(init, bg, x, y);
      assert forall k :: 0 <= k < n ==> init[k] == ops[k];
      if !ops[n].rect.Covers(x, y) && exists k :: 0 <= k < |ops| && ops[k].rect.Covers(x, y) {
        var k :| 0 <= k < |ops| && ops[k].rect.Covers(x, y);
        assert init[k].rect.Covers(x, y);
      }
    }
  }

  /** Drawing one more operation changes exactly the pixels it covers. */
  lemma ColorAtSnoc(ops: seq<Op>, op: Op, bg: Rgb, x: int, y: int)
    ensures ColorAt(ops + [op], bg, x, y) == if op.rect.Covers(x, y) then op.color else ColorAt(ops, bg, x, y)
  {
    assert (ops + [op])[..|ops|] == ops;
  }

  /** If the last operation to cover a pixel comes from `tail`, prior operations do not matter. */
  lemma {:induction false} ColorAtUncovered(ops: seq<Op>, tail: seq<Op>, bg: Rgb, x: int, y: int)
    requires forall k :: 0 <= k < |tail| ==> !tail[k].rect.Covers(x, y)
    ensures ColorAt(ops + tail, bg, x, y) == ColorAt(ops, bg, x, y)
  {
    if tail == [] {
      assert ops + tail == ops;
    } else {
      var init := tail[..|tail| - 1];
      assert (ops + tail)[..|ops + tail| - 1] == ops + init;
      assert (ops + tail)[|ops + tail| - 1] == tail[|tail| - 1];
      ColorAtUncovered(ops, init, bg, x, y);
    }
  }

  /** An RGB pixel buffer of fixed size, indexed `pixels[x, y]`. */
  class Canvas {
    const width: nat
    const height: nat
    const pixels: array2<Rgb>

    ghost predicate Valid()
      reads this
    {
      pixels.Length0 == width && pixels.Length1 == height
    }

    /** Every pixel in bounds has the colour `ops` leave over background `bg`. */
    ghost predicate Shows(ops: seq<Op>, bg: Rgb)
      reads this, pixels
      requires Valid()
    {
      forall x, y :: 0 <= x < width && 0 <= y < height ==> pixels[x, y] == ColorAt(ops, bg, x, y)
    }

    /** `Image.new('RGB', (w, h), color=fill)`. */
    constructor (w: nat, h: nat, fill: Rgb)
      ensures Valid() && width == w && height == h && fresh(pixels)
      ensures Shows([], fill)
    {
      width, height := w, h;
      pixels := new Rgb[w, h]((x, y) => fill);
    }

    /** `draw.rectangle(r, fill=c)`: colours the pixels of `r` that lie on the
        canvas, corners included, and nothing else. */
    method FillRect(r: Rect, c: Rgb)
      requires Valid() && r.WellFormed()
      modifies pixels
      ensures forall x, y :: 0 <= x < width && 0 <= y < height ==>
        pixels[x, y] == if r.Covers(x, y) then c else old(pixels[x, y])
    {
      var xLo := if r.x0 < 0 then 0 else r.x0;
      var xHi := if r.x1 + 1 > width then width else r.x1 + 1;
      var yLo := if r.y0 < 0 then 0 else r.y0;
      var yHi := if r.y1 + 1 > height then height else r.y1 + 1;
      var x := xLo;
      while x < xHi
        invariant xLo <= x && (xLo <= xHi ==> x <= xHi)
        invariant forall i, j :: 0 <= i < width && 0 <= j < height ==>
          pixels[i, j] == if r.Covers(i, j) && i < x then c else old(pixels[i, j])
      {
        var y := yLo;
        while y < yHi
          invariant yLo <= y && (yLo <= yHi ==> y <= yHi)
          invariant forall i, j :: 0 <= i < width && 0 <= j < height ==>
            pixels[i, j] == if r.Covers(i, j) && (i < x || (i == x && j < y)) then c else old(pixels[i, j])
        {
          pixels[x, y] := c;
          y := y + 1;
        }
        x := x + 1;
      }
    }

    /** Drawing `op` on a canvas that shows `done` makes it show `done + [op]`. */
    method Draw(op: Op, ghost done: seq<Op>, ghost bg: Rgb)
      requires Valid() && Shows(done, bg) && op.rect.WellFormed()
      modifies pixels
      ensures Shows(done + [op], bg)
    {
      FillRect(op.rect, op.color);
      forall x, y | 0 <= x < width && 0 <= y < height
        ensures pixels[x, y] == ColorAt(done + [op], bg, x, y)
      {
        ColorAtSnoc(done, op, bg, x, y);
      }
    }
  }
}
