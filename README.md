# Logo icon geometry and QR version selection, in Dafny

This project models the computational core of a small browser-extension
repository that turns a QR-code generator popup into an extension with icons:

- **process_logo.py** crops a user image to a square of `crop_percent` percent of
  its shorter side, centred and shifted by percentage offsets, clamps each box
  coordinate on its own, truncates to pixels and resizes to 16/48/128 px.
- **update_logo.py** crops the largest centred square with integer floor
  division and resizes to the same sizes.
- **generate_logo.py** synthesises a QR-like logo: a row-by-row gradient, three
  nested-square position markers and sixteen white data modules on a 7x7 module
  grid, all derived from `size`.
- **popup.js** `makeQR` refuses empty or blank text and picks the QR type number
  1..7 from the text length through a capacity table.

Modules: `Numerics` (Python's `int()` on floats as truncation toward zero),
`Raster` (colours, inclusive rectangles, crop boxes, the meaning of a sequence
of rectangle fills, and a `Canvas` class over an `array2` with `FillRect`),
`Icons` (the output sizes and paths), `ProcessLogo`, `UpdateLogo`,
`CropAgreement` (the two croppers agree), `GenerateLogo` and `Popup`.

Modelling assumptions:

- Floats are exact reals. `int(x)` is `Numerics.Trunc`, which rounds toward
  zero; that matters for process_logo only when a value is negative, which an
  out-of-range `crop_percent` can cause.
- In generate_logo the float multipliers are exact rationals: `int(size*0.12)`
  is `12*size/100`, `int(m*2.5)` is `5*m/2`, `int(m*0.5)` is `m/2`,
  `int(m*1.5)` is `3*m/2`, `int(m*0.1)` is `m/10`, `int(m*0.8)` is `8*m/10`.
  These agree with the float computation. 2.5, 0.5 and 1.5 are exact in
  binary. The double nearest 0.12 lies below it by a relative 3.7e-17, which
  is less than half a unit in the last place of any product, so a multiple of
  25 times it still rounds to the exact integer. The doubles for 0.1 and 0.8
  lie slightly above their values. A non-integral exact product lies at least
  0.04 from every integer, and for any size below 10^12 the float error is far
  smaller than that.
- `draw.rectangle` fills both corners inclusively and clips to the image; the
  finished picture is specified by `Raster.ColorAt`: a pixel has the colour of
  the last rectangle that covers it, or the background.
- The popup's text is a sequence of UTF-16 code units, so its length is
  JavaScript's `text.length`.

Notes on the code:

- Each gradient step draws a rectangle two rows tall (`(0, i)` to
  `(size, i+1)`, corners inclusive), not a one-pixel band. The next row
  overwrites the overlap, so every row still ends up with its own colour.
  `GradientPaintsRows` proves this.
- With the defaults (100, 0, 0) and exact arithmetic, process_logo's box is
  exactly update_logo's box, not merely within a pixel of it, although the
  two scripts round in different places (`//` before the addition in
  update_logo, `int()` after it in process_logo).
- The capacity table's first entry is 16. The code's comment says the table is
  for byte mode at level M. For version 1 at level M, ISO/IEC 18004:2015,
  Table 7, gives 14. The model uses the code's numbers. What the error-level
  argument `1` means in the QR library is not part of this model.

## Model

| member | source | states |
|---|---|---|
| Numerics.Trunc | process_logo.py:47 | `int()` rounds toward zero: for x >= 0 the result n satisfies n <= x < n+1, for x < 0 it satisfies n-1 < x <= n |
| Numerics.TruncMonotone | process_logo.py:47 | truncation never decreases as its argument grows |
| Numerics.TruncQuotient | update_logo.py:24-25 | for naturals n and d > 0, truncating the exact quotient n/d equals integer floor division n // d |
| ProcessLogo.ParamsFromArgs | process_logo.py:88-91 | each missing argument takes its default 100, 0, 0; no arguments give exactly the defaults |
| ProcessLogo.CropSize | process_logo.py:32 | crop_size is the shorter side at 100%, 0 at 0%, and never negative for a non-negative percentage |
| ProcessLogo.UnclampedBox | process_logo.py:32-38 | before clamping, right - left and bottom - top both equal crop_size; with a zero offset the two margins are equal |
| ProcessLogo.OffsetsTranslateBox | process_logo.py:35-38 | the offsets translate the centred box: left and right move by x_offset% of the width, top and bottom by y_offset% of the height |
| ProcessLogo.Clamp | process_logo.py:41-44 | `max(lo, min(x, hi))` is x when lo <= x <= hi, lo when x <= lo, hi when lo <= hi <= x, and lo whenever hi < lo; it is always at least lo, and at most hi when lo <= hi |
| ProcessLogo.ClampedBox | process_logo.py:41-44 | after clamping, left and top lie in [0, side] and right and bottom lie in [crop_size, side] unless crop_size exceeds the side, when they equal crop_size. A left or top at or below 0 becomes 0 and one at or past the side becomes the side. A right or bottom past the side becomes the side (when crop_size <= side), and one at or below crop_size becomes crop_size. In-range values are kept |
| ProcessLogo.CropBox | process_logo.py:41-47 | the truncated box keeps those bounds on every input: 0 <= left <= width, 0 <= top <= height, and right and bottom lie between int(crop_size) and the larger of it and the side |
| ProcessLogo.CropSizeWithinShorterSide | process_logo.py:32 | for 0 <= crop_percent <= 100, 0 <= crop_size <= min(width, height) |
| ProcessLogo.CentredCropUnclamped | process_logo.py:32-44 | for 0 <= crop_percent <= 100 and zero offsets no clamp changes anything, and the box is the centred square of side crop_size |
| ProcessLogo.CentredClampFree | process_logo.py:35-44 | on one axis, a centred segment no longer than the side passes both clamps unchanged |
| ProcessLogo.HalfCropExample | process_logo.py:32-47 | a 2000x1000 image at 50% without offsets has crop_size 500 and box (750, 250, 1250, 750) |
| ProcessLogo.OffsetClampNotSquare | process_logo.py:35-47 | a 100x100 image at 100% with x_offset 30 gives box (30, 0, 100, 100). It is 70 wide and 100 tall, so the per-coordinate clamp does not keep the box square |
| ProcessLogo.ShiftLeftDownExample | process_logo.py:32-47 | the usage example "100 -10 5" on a 200x100 image: the box before clamping is (30, 5, 130, 105), 20 pixels left and 5 down of centre, and the bottom clamps to 100, giving (30, 5, 130, 100) |
| ProcessLogo.NegativePercentTruncatesTowardZero | process_logo.py:32-47 | the box computation does not reject out-of-range input and yields a degenerate box whose right edge lies left of its left edge. At -201% a 100x100 image has a right edge of -50.5 before truncation, and `int()` gives -50, not the floor -51 |
| CropAgreement.DefaultsGiveCentredSquare | process_logo.py:12-47 | with the defaults, and with no optional arguments, the integer box equals update_logo's centred min(width, height) square exactly |
| UpdateLogo.CentredSquare | update_logo.py:23-26 | the box is a square of side min(width, height) inside the image. left or top is 0, and the far margin minus the near margin is 0 or 1 on both axes |
| UpdateLogo.CentredSquareUnique | update_logo.py:23-26 | those properties determine the box: any box with them is the centred square |
| UpdateLogo.SquareImageKeptWhole | update_logo.py:23-26 | a square image yields the whole image (0, 0, w, h) as its box |
| Icons.Decimal | update_logo.py:35 | `str(size)` is a non-empty string of decimal digits with no leading zero |
| Icons.Digit | update_logo.py:35 | each printed digit's code point is '0' plus its value |
| Icons.DecimalRoundTrip | update_logo.py:35 | reading the printed digits back gives the number printed |
| Icons.DecimalInjective | update_logo.py:35 | distinct sizes print differently |
| Icons.OutputPath | update_logo.py:35 | the path is "icons/icon", then decimal digits that read back as the size, then ".png"; the same f-string is at process_logo.py:65 and generate_logo.py:98 |
| Icons.OutputPathsInOrder | update_logo.py:32-35 | the files written are icons/icon16.png, icons/icon48.png, icons/icon128.png, in that order |
| Icons.OutputPathsDistinct | update_logo.py:32-35 | no two sizes share an output file, so no icon overwrites another |
| GenerateLogo.Ratio | generate_logo.py:17 | `i / size` lies in [0, 1) for every row |
| GenerateLogo.RatioMonotone | generate_logo.py:17 | the ratio grows with the row index |
| GenerateLogo.GradientColor | generate_logo.py:17-20 | every row has r in [10, 102], g in [16, 88], b in [202, 242]; row 0 is exactly (102, 16, 242) |
| GenerateLogo.GradientClosedForm | generate_logo.py:17-20 | row i of size rows has colour (10 + 92(size-i)//size, 16 + 72i//size, 202 + 40(size-i)//size): each channel moves linearly from (102, 16, 242) toward (10, 88, 202) and is truncated |
| GenerateLogo.GradientMonotone | generate_logo.py:17-20 | down the image r and b never increase and g never decreases |
| GenerateLogo.GradientRow | generate_logo.py:21 | row i's rectangle is well formed and covers exactly the pixels with 0 <= x <= size on rows i and i+1 |
| GenerateLogo.GradientOps | generate_logo.py:16-21 | the gradient loop issues one rectangle per row, row i being (0, i)-(size, i+1) in row i's colour |
| GenerateLogo.GradientPaintsRows | generate_logo.py:16-21 | after the loop every pixel of row y, for x in [0, size], has row y's colour despite the two-row rectangles |
| GenerateLogo.LayoutFor | generate_logo.py:24-27 | padding is `int(size * 0.12)`, the floor of 12% of size, qr_size + 2*padding == size, and 7*module_size <= qr_size < 7*module_size + 7 |
| GenerateLogo.LayoutIsTruncation | generate_logo.py:24-64 | the exact-rational sizes are the truncated float products: padding is `int(size * 0.12)`, and for any module size m the marker size, the inner pad and centre size, the inner size, the data inset and the data side are `int(m * 2.5)`, `int(m * 0.5)`, `int(m * 1.5)`, `int(m * 0.1)` and `int(m * 0.8)` |
| GenerateLogo.IconLayouts | generate_logo.py:24-31 | sizes 16, 48, 128 give (padding, qr_size, module_size) (1, 14, 2), (5, 38, 5), (15, 98, 14) and marker sizes 5, 12, 35 |
| GenerateLogo.MarkerFitsGrid | generate_logo.py:31 | a marker is never wider than the QR area |
| GenerateLogo.MarkerOps | generate_logo.py:30-45 | one `draw_position_marker` call is exactly three fills; their colours and nesting are stated by MarkerPaint and MarkerNested |
| GenerateLogo.MarkerNested | generate_logo.py:30-45 | the three marker squares are well formed, the inner square lies within the outer, and the centre lies within the inner |
| GenerateLogo.MarkerPaint | generate_logo.py:30-45 | after a marker the centre is white, the rest of the inner square is accent, the rest of the outer square is white, and everything else is unchanged |
| GenerateLogo.MarkerOrigins | generate_logo.py:48-50 | the top-left origin is (padding, padding); the top-right one is at y = padding and a marker's width left of padding + qr_size; the bottom-left one is at x = padding and a marker's height above padding + qr_size |
| GenerateLogo.MarkersAlignWithCorners | generate_logo.py:48-50 | the top-left marker starts at (padding, padding). The top-right marker's outer square ends exactly at x = padding + qr_size, and the bottom-left one's ends exactly at y = padding + qr_size. All three lie inside the padded area |
| GenerateLogo.DataPatternCells | generate_logo.py:53-59 | the data pattern has 16 distinct cells, each with both coordinates in 0..6 |
| GenerateLogo.DataRect | generate_logo.py:62-65 | a data module is a well-formed square of side `int(m * 0.8)` whose corner lies `int(m * 0.1)` right of and below its cell's corner |
| GenerateLogo.DataRectInCell | generate_logo.py:61-65 | for a cell with both coordinates in 0..6, the data module lies inside its own cell of side module_size, the cell lies inside the 7x7 grid [padding, padding + 7*module_size] on both axes, and so the module does too |
| GenerateLogo.DataOps | generate_logo.py:61-66 | the data loop issues one white square per pattern cell, in pattern order |
| GenerateLogo.AllMarkerOps | generate_logo.py:48-50 | the three markers contribute nine fills |
| GenerateLogo.WhiteOnTop | generate_logo.py:61-66 | when the last fills drawn are all white, any pixel one of them covers ends white |
| GenerateLogo.LogoOps | generate_logo.py:16-66 | the script issues size + 25 fills |
| GenerateLogo.LogoOpsInOrder | generate_logo.py:16-66 | the fills come as the size gradient rows first, then the nine marker fills, then the sixteen data modules, which are all white |
| GenerateLogo.DataModulesWhite | generate_logo.py:61-66 | in the finished picture every pixel covered by a data module is white |
| GenerateLogo.BackgroundShowsGradient | generate_logo.py:16-66 | in the finished picture every pixel outside all markers and data modules has its row's gradient colour |
| GenerateLogo.DrawGradient | generate_logo.py:16-21 | the gradient loop leaves the canvas showing exactly the gradient fills |
| GenerateLogo.DrawPositionMarker | generate_logo.py:30-45 | one marker call adds exactly that marker's three fills to what the canvas shows |
| GenerateLogo.DrawPositionMarkers | generate_logo.py:48-50 | the three marker calls add the top-left, top-right and bottom-left markers in that order |
| GenerateLogo.DrawDataModules | generate_logo.py:61-66 | the data loop adds exactly the sixteen data modules to what the canvas shows |
| GenerateLogo.Generate | generate_logo.py:10-66 | the image is size x size and shows the logo's draw sequence over the accent fill. The draw sequence is a function of `size` alone |
| Raster.Canvas.constructor | generate_logo.py:12 | `Image.new` gives a w x h buffer with every pixel the fill colour |
| Raster.Canvas.FillRect | generate_logo.py:21 | `draw.rectangle` recolours exactly the on-canvas pixels of the rectangle, corners included, and nothing else |
| Raster.Canvas.Draw | generate_logo.py:21 | filling one rectangle extends the draw sequence the canvas shows by that fill |
| Raster.ColorAtIsLastCover | generate_logo.py:16-66 | the meaning of a sequence of `draw.rectangle` fills (`ColorAt`): a pixel no fill covers keeps the background colour, and otherwise it has the colour of a covering fill after which no fill covers it |
| Raster.ColorAtSnoc | generate_logo.py:21 | one more fill changes exactly the pixels it covers |
| Raster.ColorAtUncovered | generate_logo.py:16-21 | later fills that miss a pixel do not change its colour |
| Popup.ChainTypeNumber | popup.js:36-49 | the if/else chain already yields 1..7; it yields 1 exactly for lengths up to 16 and 7 exactly for lengths above 106 |
| Popup.ClampTypeNumber | popup.js:51-54 | the second clamp caps at 7 and keeps any value up to 7 |
| Popup.TypeNumber | popup.js:36-54 | the type number is always in 1..7, and any length over 122 gives 7 |
| Popup.TypeNumberMonotone | popup.js:38-44 | the type number never decreases as the text gets longer |
| Popup.FirstFitFrom | popup.js:34-35 | reference table lookup: the first type number from t on whose capacity holds the length, else 7 |
| Popup.TypeNumberIsFirstFit | popup.js:34-49 | the if/else chain equals the table lookup. Up to length 122 it picks the smallest t whose capacity (16, 26, 42, 62, 84, 106, 122) holds the length |
| Popup.TypeNumberBoundaries | popup.js:38-49 | the boundaries are inclusive: 16 gives 1, 17 gives 2, 26 gives 2, 27 gives 3, 122 and 123 give 7 |
| Popup.SecondClampIsDead | popup.js:51-54 | the second clamp never changes the value |
| Popup.IsJsWhitespace | popup.js:26 | the code units `trim()` removes; among ASCII they are exactly space and tab through carriage return |
| Popup.SkipBlanks | popup.js:26 | the scan forward from i stops at the first non-whitespace unit, or at the end, and passes only whitespace |
| Popup.SkipBlanksBack | popup.js:26 | the scan backward from j stops just after the last non-whitespace unit, or at 0, and passes only whitespace |
| Popup.TrimStart | popup.js:26 | the result is a suffix of the text that is empty or does not start with whitespace, and every code unit removed is whitespace |
| Popup.TrimEnd | popup.js:26 | the result is a prefix of the text that is empty or does not end with whitespace, and every code unit removed is whitespace |
| Popup.Trim | popup.js:26 | `text.trim()` is the slice of the text between a whitespace-only prefix and a whitespace-only suffix, and when non-empty it starts and ends with non-whitespace |
| Popup.TrimEmptyIffBlank | popup.js:26 | `text.trim()` is empty exactly when every code unit of the text is whitespace |
| Popup.MakeQR | popup.js:25-57 | empty or whitespace-only text returns before any selection. Otherwise the code is built at TypeNumber(length) with error-level argument 1, the warning fires exactly when the length exceeds 122, and text that fits is within the chosen type's capacity |

## Left out

- Image decoding, `convert('RGB')`, `crop`, Lanczos `resize`, `paste`, `putalpha`, `split` and PNG `save`. These belong to the foreign Pillow library, and resampling is floating point. That each output is exactly size x size is the resize call's own promise and is not modelled.
- The rounded-corner mask and the flattening onto white (generate_logo.py:68-83). The rounded-rectangle rasterisation is Pillow's and is not visible. `GenerateLogo.Generate` stops at the composed image before the mask.
- The size loops that resize and save (process_logo.py:60-67, update_logo.py:33-37, generate_logo.py:85-98). They are I/O. Only their sizes and output paths are modelled, in `Icons`.
- Directory creation, console output, the `sys.argv` length checks and `float()` parsing. `ProcessLogo.ParamsFromArgs` takes its values already parsed. The `try`/`except` reporting of FileNotFoundError, ImportError, KeyboardInterrupt and other exceptions is also left out.
- Bit-exact float behaviour, including NaN and infinities that `float()` accepts. Reals are exact.
- Everything in popup.js except `makeQR`'s guard and type-number selection: the DOM, `chrome.tabs.query`, the async handlers, canvas drawing, the download link, the console messages, and the unseen `QRCode` library with its `try`/`catch`.
- The library error for a rectangle whose second corner precedes the first: `Raster.Canvas.FillRect` instead requires the rectangle's second corner not to precede the first. Every rectangle the logo draws is proved to satisfy this.
