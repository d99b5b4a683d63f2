/** Fitting artwork onto the paper: scale, centre, replicate on a grid. */
module Placement {
  // Lengths are in millimetres, y pointing down the page, in exact arithmetic.

  import opened Text

  const UNIT_MM: real := 0.02488
  const GRID_SLACK: real := 0.000001

  datatype Point = Point(x: real, y: real)
  type Line = seq<Point>
  type Layer = seq<Line>

  datatype Box = Box(x0: real, y0: real, x1: real, y1: real)

  /** The plotter's page set-up: hard-clip ranges in plotter units and where their origin lies. */
  datatype Page = Page(ox: real, oy: real, xmin: int, xmax: int, ymin: int, ymax: int,
                       safe: Option<(real, real)>)

  datatype Options = Options(margin: real, scale: real, rows: nat, cols: nat, spacing: real)

  datatype PlaceError = NothingToPlot | DegenerateBounds | TooManyCopies(maxRows: int, maxCols: int)

  datatype Outcome = Placed(scale: real) | Refused(error: PlaceError)

  function Min(a: real, b: real): real { if b < a then b else a }
  function Max(a: real, b: real): real { if a < b then b else a }

  // ---- rectangles ---------------------------------------------------------------------

  function ClipBox(p: Page): Box {
    Box(p.ox + p.xmin as real * UNIT_MM, p.oy - p.ymax as real * UNIT_MM,
        p.ox + p.xmax as real * UNIT_MM, p.oy - p.ymin as real * UNIT_MM)
  }

  /** The usable rectangle, centred in the hard clip. */
  function SafeBox(p: Page): Box {
    var c := ClipBox(p);
    match p.safe
    case None => c
    case Some((width, height)) =>
      var sw := Min(width, (p.xmax - p.xmin) as real * UNIT_MM);
      var sh := Min(height, (p.ymax - p.ymin) as real * UNIT_MM);
      var w, h := c.x1 - c.x0, c.y1 - c.y0;
      Box(c.x0 + (w - sw) / 2.0, c.y0 + (h - sh) / 2.0, c.x0 + (w + sw) / 2.0, c.y0 + (h + sh) / 2.0)
  }

  predicate Within(inner: Box, outer: Box) {
    outer.x0 <= inner.x0 && outer.y0 <= inner.y0 && inner.x1 <= outer.x1 && inner.y1 <= outer.y1
  }

  predicate ValidPage(p: Page) {
    p.xmin <= p.xmax && p.ymin <= p.ymax && (p.safe.Some? ==> p.safe.value.0 >= 0.0 && p.safe.value.1 >= 0.0)
  }

  /** The usable rectangle never reaches outside the hard clip. */
  lemma SafeInsideClip(p: Page)
    requires ValidPage(p)
    ensures Within(SafeBox(p), ClipBox(p))
  {
    assert (p.xmax - p.xmin) as real * UNIT_MM == p.xmax as real * UNIT_MM - p.xmin as real * UNIT_MM;
    assert (p.ymax - p.ymin) as real * UNIT_MM == p.ymax as real * UNIT_MM - p.ymin as real * UNIT_MM;
  }

  function Inset(b: Box, margin: real): Box { Box(b.x0 + margin, b.y0 + margin, b.x1 - margin, b.y1 - margin) }

  function Widen(b: Box, slack: real): Box { Inset(b, -slack) }

  // ---- geometry -----------------------------------------------------------------------

  predicate PointIn(b: Box, p: Point) { b.x0 <= p.x <= b.x1 && b.y0 <= p.y <= b.y1 }

  predicate LineIn(b: Box, line: Line) { line == [] || (PointIn(b, line[0]) && LineIn(b, line[1..])) }

  predicate LayerIn(b: Box, layer: Layer) { layer == [] || (LineIn(b, layer[0]) && LayerIn(b, layer[1..])) }

  predicate AllIn(b: Box, layers: seq<Layer>) { layers == [] || (LayerIn(b, layers[0]) && AllIn(b, layers[1..])) }

  lemma {:induction false} LineInAt(b: Box, line: Line, j: nat)
    requires LineIn(b, line) && j < |line|
    ensures PointIn(b, line[j])
  {
    if j > 0 {
      LineInAt(b, line[1..], j - 1);
    }
  }

  lemma {:induction false} LayerInAt(b: Box, layer: Layer, i: nat)
    requires LayerIn(b, layer) && i < |layer|
    ensures LineIn(b, layer[i])
  {
    if i > 0 {
      LayerInAt(b, layer[1..], i - 1);
    }
  }

  lemma {:induction false} AllInAt(b: Box, layers: seq<Layer>, k: nat)
    requires AllIn(b, layers) && k < |layers|
    ensures LayerIn(b, layers[k])
  {
    if k > 0 {
      AllInAt(b, layers[1..], k - 1);
    }
  }

  /** Scale about the origin, then shift. */
  function Affine(p: Point, s: real, dx: real, dy: real): Point { Point(p.x * s + dx, p.y * s + dy) }

  function MapLine(line: Line, s: real, dx: real, dy: real): (r: Line)
    ensures |r| == |line| && forall i :: 0 <= i < |r| ==> r[i] == Affine(line[i], s, dx, dy)
  {
    if line == [] then [] else [Affine(line[0], s, dx, dy)] + MapLine(line[1..], s, dx, dy)
  }

  function MapLayer(layer: Layer, s: real, dx: real, dy: real): (r: Layer)
    ensures |r| == |layer| && forall i :: 0 <= i < |r| ==> r[i] == MapLine(layer[i], s, dx, dy)
  {
    if layer == [] then [] else [MapLine(layer[0], s, dx, dy)] + MapLayer(layer[1..], s, dx, dy)
  }

  function MapAll(layers: seq<Layer>, s: real, dx: real, dy: real): (r: seq<Layer>)
    ensures |r| == |layers| && forall i :: 0 <= i < |r| ==> r[i] == MapLayer(layers[i], s, dx, dy)
  {
    if layers == [] then [] else [MapLayer(layers[0], s, dx, dy)] + MapAll(layers[1..], s, dx, dy)
  }

  /** An affine map that takes the box `from` into `to` takes everything inside along. */
  ghost predicate Carries(from: Box, to: Box, s: real, dx: real, dy: real) {
    forall p :: PointIn(from, p) ==> PointIn(to, Affine(p, s, dx, dy))
  }

  lemma {:induction false} LineCarries(from: Box, to: Box, line: Line, s: real, dx: real, dy: real)
    requires LineIn(from, line) && Carries(from, to, s, dx, dy)
    ensures LineIn(to, MapLine(line, s, dx, dy))
  {
    if line != [] {
      assert PointIn(to, Affine(line[0], s, dx, dy));
      LineCarries(from, to, line[1..], s, dx, dy);
    }
  }

  lemma {:induction false} LayerCarries(from: Box, to: Box, layer: Layer, s: real, dx: real, dy: real)
    requires LayerIn(from, layer) && Carries(from, to, s, dx, dy)
    ensures LayerIn(to, MapLayer(layer, s, dx, dy))
  {
    if layer != [] {
      LineCarries(from, to, layer[0], s, dx, dy);
      LayerCarries(from, to, layer[1..], s, dx, dy);
    }
  }

  lemma {:induction false} MapCarries(from: Box, to: Box, layers: seq<Layer>, s: real, dx: real, dy: real)
    requires AllIn(from, layers) && Carries(from, to, s, dx, dy)
    ensures AllIn(to, MapAll(layers, s, dx, dy))
  {
    if layers != [] {
      LayerCarries(from, to, layers[0], s, dx, dy);
      MapCarries(from, to, layers[1..], s, dx, dy);
    }
  }

  // ---- fitting ------------------------------------------------------------------------

  lemma MulOrder(a: real, b: real, c: real)
    requires a <= b && c >= 0.0
    ensures a * c <= b * c
  {
  }

  /** The room for artwork inside the margins. */
  function Avail(b: Box, margin: real): (real, real) {
    (Max(0.0, (b.x1 - b.x0) - 2.0 * margin), Max(0.0, (b.y1 - b.y0) - 2.0 * margin))
  }

  function FitScale(bounds: Box, avail: (real, real), userScale: real): real
    requires bounds.x0 < bounds.x1 && bounds.y0 < bounds.y1
  {
    Min(avail.0 / (bounds.x1 - bounds.x0), avail.1 / (bounds.y1 - bounds.y0)) * userScale
  }

  lemma ScaledFits(size: real, room: real, fit: real, userScale: real)
    requires size > 0.0 && 0.0 <= fit <= room / size && 0.0 <= userScale <= 1.0
    ensures 0.0 <= fit * userScale && 0.0 <= size * (fit * userScale) <= room
  {
    MulOrder(fit, room / size, size);
    assert room / size * size == room;
    MulOrder(userScale, 1.0, fit);
    MulOrder(fit * userScale, fit, size);
    assert fit * userScale >= 0.0 by { MulOrder(0.0, userScale, fit); }
    MulOrder(0.0, fit * userScale, size);
  }

  /** The scaled artwork is no larger than the room in either direction. */
  lemma FitScaleFits(bounds: Box, avail: (real, real), userScale: real)
    requires bounds.x0 < bounds.x1 && bounds.y0 < bounds.y1
    requires avail.0 >= 0.0 && avail.1 >= 0.0 && 0.0 <= userScale <= 1.0
    ensures var s := FitScale(bounds, avail, userScale);
      && 0.0 <= s
      && 0.0 <= (bounds.x1 - bounds.x0) * s <= avail.0 && 0.0 <= (bounds.y1 - bounds.y0) * s <= avail.1
  {
    var bw, bh := bounds.x1 - bounds.x0, bounds.y1 - bounds.y0;
    var fit := Min(avail.0 / bw, avail.1 / bh);
    QuotientNonNegative(avail.0, bw);
    QuotientNonNegative(avail.1, bh);
    ScaledFits(bw, avail.0, fit, userScale);
    ScaledFits(bh, avail.1, fit, userScale);
  }

  lemma QuotientNonNegative(a: real, b: real)
    requires a >= 0.0 && b > 0.0
    ensures a / b >= 0.0
  {
  }

  /** A coordinate stays in its span under scaling and shifting to a new origin. */
  lemma SpanKept(x: real, b0: real, b1: real, s: real, origin: real)
    requires b0 <= x <= b1 && s >= 0.0
    ensures origin <= x * s + Shift(origin, b0, s) <= origin + (b1 - b0) * s
  {
    MulOrder(b0, x, s);
    MulOrder(x, b1, s);
    assert (b1 - b0) * s == b1 * s - b0 * s;
  }

  lemma PointCarries(bounds: Box, s: real, w: real, h: real, gx: real, gy: real, p: Point)
    requires s >= 0.0 && w == (bounds.x1 - bounds.x0) * s && h == (bounds.y1 - bounds.y0) * s && PointIn(bounds, p)
    ensures PointIn(Box(gx, gy, gx + w, gy + h), Affine(p, s, Shift(gx, bounds.x0, s), Shift(gy, bounds.y0, s)))
  {
    SpanKept(p.x, bounds.x0, bounds.x1, s, gx);
    SpanKept(p.y, bounds.y0, bounds.y1, s, gy);
  }

  /** Scaling and shifting the bounds to `(gx, gy)` carries the artwork into a box of the scaled
      size there. */
  lemma PlacementCarries(bounds: Box, s: real, w: real, h: real, gx: real, gy: real)
    requires s >= 0.0 && w == (bounds.x1 - bounds.x0) * s && h == (bounds.y1 - bounds.y0) * s
    ensures Carries(bounds, Box(gx, gy, gx + w, gy + h), s, Shift(gx, bounds.x0, s), Shift(gy, bounds.y0, s))
  {
    forall p | PointIn(bounds, p)
      ensures PointIn(Box(gx, gy, gx + w, gy + h), Affine(p, s, Shift(gx, bounds.x0, s), Shift(gy, bounds.y0, s)))
    {
      PointCarries(bounds, s, w, h, gx, gy, p);
    }
  }

  // ---- the grid -----------------------------------------------------------------------

  /** The extent of `n` copies of `size` with `gap` between them. */
  function GridSpan(n: nat, size: real, gap: real): real { n as real * size + (n as real - 1.0) * gap }

  /** Every cell lies inside the grid. */
  lemma CellInGrid(n: nat, size: real, gap: real, c: nat)
    requires c < n && size >= 0.0 && gap >= 0.0
    ensures 0.0 <= c as real * (size + gap) && c as real * (size + gap) + size <= GridSpan(n, size, gap)
  {
    var step := size + gap;
    MulOrder(0.0, c as real, step);
    MulOrder(c as real, n as real - 1.0, step);
    assert (n as real - 1.0) * step == (n as real - 1.0) * size + (n as real - 1.0) * gap;
    assert n as real * size == (n as real - 1.0) * size + size;
  }

  function LargestGrid(room: real, size: real, gap: real): int {
    if size + gap == 0.0 then 0 else ((room + gap) / (size + gap)).Floor
  }

  /** The reported maximum is exactly the largest number of copies that fits. */
  lemma LargestGridExact(room: real, size: real, gap: real, n: nat)
    requires size + gap > 0.0
    ensures GridSpan(n, size, gap) <= room <==> n <= LargestGrid(room, size, gap)
  {
    var step := size + gap;
    assert GridSpan(n, size, gap) == n as real * step - gap by {
      assert n as real * step == n as real * size + n as real * gap;
      assert (n as real - 1.0) * gap == n as real * gap - gap;
    }
    AtMostQuotient(n as real, room + gap, step);
  }

  lemma AtMostQuotient(n: real, a: real, b: real)
    requires b > 0.0
    ensures n * b <= a <==> n <= a / b
  {
    assert a / b * b == a;
    if n <= a / b {
      MulOrder(n, a / b, b);
    } else {
      MulStrict(a / b, n, b);
    }
  }

  lemma MulStrict(a: real, b: real, c: real)
    requires a < b && c > 0.0
    ensures a * c < b * c
  {
  }

  // ---- replication --------------------------------------------------------------------

  function Copy(layer: Layer, r: nat, c: nat, stepX: real, stepY: real): Layer {
    MapLayer(layer, 1.0, c as real * stepX, r as real * stepY)
  }

  /** Copies `c..cols` of row `r`. */
  function RowFrom(layer: Layer, r: nat, c: nat, cols: nat, stepX: real, stepY: real): Layer
    requires c <= cols
    decreases cols - c
  {
    if c == cols then [] else Copy(layer, r, c, stepX, stepY) + RowFrom(layer, r, c + 1, cols, stepX, stepY)
  }

  /** Rows `r..rows`. */
  function RowsFrom(layer: Layer, r: nat, rows: nat, cols: nat, stepX: real, stepY: real): Layer
    requires r <= rows
    decreases rows - r
  {
    if r == rows then []
    else RowFrom(layer, r, 0, cols, stepX, stepY) + RowsFrom(layer, r + 1, rows, cols, stepX, stepY)
  }

  function Tiled(layers: seq<Layer>, rows: nat, cols: nat, stepX: real, stepY: real): (t: seq<Layer>)
    ensures |t| == |layers|
  {
    if layers == [] then []
    else [RowsFrom(layers[0], 0, rows, cols, stepX, stepY)] + Tiled(layers[1..], rows, cols, stepX, stepY)
  }

  lemma {:induction false} CopyOrigin(layer: Layer, stepX: real, stepY: real)
    ensures Copy(layer, 0, 0, stepX, stepY) == layer
  {
    var copy := Copy(layer, 0, 0, stepX, stepY);
    assert 0 as real * stepX == 0.0 && 0 as real * stepY == 0.0;
    forall i | 0 <= i < |layer| ensures copy[i] == layer[i] {
      forall j | 0 <= j < |layer[i]| ensures copy[i][j] == layer[i][j] {
      }
    }
  }

  lemma PlusAssociates(a: Layer, b: Layer, c: Layer)
    ensures a + (b + c) == (a + b) + c
  {
  }

  method TileRow(layer: Layer, r: nat, cols: nat, stepX: real, stepY: real) returns (out: Layer)
    ensures out == RowFrom(layer, r, 0, cols, stepX, stepY)
  {
    ghost var all := RowFrom(layer, r, 0, cols, stepX, stepY);
    out := [];
    var c := 0;
    while c < cols
      invariant 0 <= c <= cols && all == out + RowFrom(layer, r, c, cols, stepX, stepY)
    {
      var copy := layer;
      if r == 0 && c == 0 {
        CopyOrigin(layer, stepX, stepY);
      } else {
        copy := Copy(layer, r, c, stepX, stepY);
      }
      PlusAssociates(out, copy, RowFrom(layer, r, c + 1, cols, stepX, stepY));
      out := out + copy;
      c := c + 1;
    }
    assert out + [] == out;
  }

  /** Cell (0, 0) keeps the original; every other cell is a shifted copy, row by row. */
  method TileLayer(layer: Layer, rows: nat, cols: nat, stepX: real, stepY: real) returns (out: Layer)
    ensures out == RowsFrom(layer, 0, rows, cols, stepX, stepY)
  {
    ghost var all := RowsFrom(layer, 0, rows, cols, stepX, stepY);
    out := [];
    var r := 0;
    while r < rows
      invariant 0 <= r <= rows && all == out + RowsFrom(layer, r, rows, cols, stepX, stepY)
    {
      var row := TileRow(layer, r, cols, stepX, stepY);
      PlusAssociates(out, row, RowsFrom(layer, r + 1, rows, cols, stepX, stepY));
      out := out + row;
      r := r + 1;
    }
    assert out + [] == out;
  }

  method TileLayers(layers: seq<Layer>, rows: nat, cols: nat, stepX: real, stepY: real) returns (out: seq<Layer>)
    ensures out == Tiled(layers, rows, cols, stepX, stepY)
  {
    out := [];
    var k := 0;
    while k < |layers|
      invariant 0 <= k <= |layers|
      invariant Tiled(layers, rows, cols, stepX, stepY) == out + Tiled(layers[k..], rows, cols, stepX, stepY)
    {
      var tiled := TileLayer(layers[k], rows, cols, stepX, stepY);
      assert layers[k..][0] == layers[k] && layers[k..][1..] == layers[k + 1..];
      ghost var rest := Tiled(layers[k + 1..], rows, cols, stepX, stepY);
      assert out + ([tiled] + rest) == (out + [tiled]) + rest;
      out := out + [tiled];
      k := k + 1;
    }
    assert layers[k..] == [] && out + [] == out;
  }

  lemma OneLess(a: nat, b: nat, m: nat)
    requires b < a
    ensures (a - b) * m == m + (a - (b + 1)) * m
  {
  }

  lemma {:induction false} RowCount(layer: Layer, r: nat, c: nat, cols: nat, stepX: real, stepY: real)
    requires c <= cols
    ensures |RowFrom(layer, r, c, cols, stepX, stepY)| == (cols - c) * |layer|
    decreases cols - c
  {
    if c < cols {
      RowCount(layer, r, c + 1, cols, stepX, stepY);
      OneLess(cols, c, |layer|);
    }
  }

  /** Every layer comes out with exactly rows x cols copies of its lines. */
  lemma {:induction false} RowsCount(layer: Layer, r: nat, rows: nat, cols: nat, row: nat, stepX: real, stepY: real)
    requires r <= rows && row == cols * |layer|
    ensures |RowsFrom(layer, r, rows, cols, stepX, stepY)| == (rows - r) * row
    decreases rows - r
  {
    if r < rows {
      RowCount(layer, r, 0, cols, stepX, stepY);
      RowsCount(layer, r + 1, rows, cols, row, stepX, stepY);
      OneLess(rows, r, row);
    }
  }

  /** Every layer comes out with exactly rows x cols copies of its lines. */
  lemma GridCount(layer: Layer, rows: nat, cols: nat, stepX: real, stepY: real)
    ensures |RowsFrom(layer, 0, rows, cols, stepX, stepY)| == rows * (cols * |layer|)
  {
    RowsCount(layer, 0, rows, cols, cols * |layer|, stepX, stepY);
  }

  lemma {:induction false} LayerInAppend(b: Box, x: Layer, y: Layer)
    requires LayerIn(b, x) && LayerIn(b, y)
    ensures LayerIn(b, x + y)
  {
    if x == [] {
      assert x + y == y;
    } else {
      assert (x + y)[1..] == x[1..] + y;
      LayerInAppend(b, x[1..], y);
    }
  }

  /** A grid of cells of size (w, h) at (gx, gy), with the given gap. */
  datatype Grid = Grid(gx: real, gy: real, w: real, h: real, gap: real, rows: nat, cols: nat)

  predicate ValidGrid(g: Grid) { g.w >= 0.0 && g.h >= 0.0 && g.gap >= 0.0 }

  function CellBox(g: Grid): Box { Box(g.gx, g.gy, g.gx + g.w, g.gy + g.h) }

  function GridBox(g: Grid): Box {
    Box(g.gx, g.gy, g.gx + GridSpan(g.cols, g.w, g.gap), g.gy + GridSpan(g.rows, g.h, g.gap))
  }

  lemma ShiftCarries(from: Box, to: Box, dx: real, dy: real)
    requires to.x0 <= from.x0 + dx && from.x1 + dx <= to.x1 && to.y0 <= from.y0 + dy && from.y1 + dy <= to.y1
    ensures Carries(from, to, 1.0, dx, dy)
  {
  }

  lemma CopyInGrid(g: Grid, layer: Layer, r: nat, c: nat)
    requires ValidGrid(g) && r < g.rows && c < g.cols && LayerIn(CellBox(g), layer)
    ensures LayerIn(GridBox(g), Copy(layer, r, c, g.w + g.gap, g.h + g.gap))
  {
    var dx, dy := c as real * (g.w + g.gap), r as real * (g.h + g.gap);
    CellInGrid(g.cols, g.w, g.gap, c);
    CellInGrid(g.rows, g.h, g.gap, r);
    ShiftCarries(CellBox(g), GridBox(g), dx, dy);
    LayerCarries(CellBox(g), GridBox(g), layer, 1.0, dx, dy);
  }

  lemma {:induction false} RowInGrid(g: Grid, layer: Layer, r: nat, c: nat)
    requires ValidGrid(g) && r < g.rows && c <= g.cols && LayerIn(CellBox(g), layer)
    ensures LayerIn(GridBox(g), RowFrom(layer, r, c, g.cols, g.w + g.gap, g.h + g.gap))
    decreases g.cols - c
  {
    if c < g.cols {
      CopyInGrid(g, layer, r, c);
      RowInGrid(g, layer, r, c + 1);
      LayerInAppend(GridBox(g), Copy(layer, r, c, g.w + g.gap, g.h + g.gap),
                    RowFrom(layer, r, c + 1, g.cols, g.w + g.gap, g.h + g.gap));
    }
  }

  lemma {:induction false} RowsInGrid(g: Grid, layer: Layer, r: nat)
    requires ValidGrid(g) && r <= g.rows && LayerIn(CellBox(g), layer)
    ensures LayerIn(GridBox(g), RowsFrom(layer, r, g.rows, g.cols, g.w + g.gap, g.h + g.gap))
    decreases g.rows - r
  {
    if r < g.rows {
      RowInGrid(g, layer, r, 0);
      RowsInGrid(g, layer, r + 1);
      LayerInAppend(GridBox(g), RowFrom(layer, r, 0, g.cols, g.w + g.gap, g.h + g.gap),
                    RowsFrom(layer, r + 1, g.rows, g.cols, g.w + g.gap, g.h + g.gap));
    }
  }

  lemma {:induction false} TiledInGrid(g: Grid, layers: seq<Layer>)
    requires ValidGrid(g) && AllIn(CellBox(g), layers)
    ensures AllIn(GridBox(g), Tiled(layers, g.rows, g.cols, g.w + g.gap, g.h + g.gap))
  {
    if layers != [] {
      RowsInGrid(g, layers[0], 0);
      TiledInGrid(g, layers[1..]);
    }
  }

  // ---- placing ------------------------------------------------------------------------

  predicate ValidOptions(o: Options) {
    0.0 <= o.margin && 0.0 <= o.scale <= 1.0 && o.rows >= 1 && o.cols >= 1 && o.spacing >= 0.0
  }

  /** The margins leave room on both axes, as they do for every paper and margin up to 30 mm. */
  predicate HasRoom(b: Box, margin: real) { 2.0 * margin <= b.x1 - b.x0 && 2.0 * margin <= b.y1 - b.y0 }

  predicate TooBig(span: real, room: real) { span > room + GRID_SLACK }

  class Document {
    var layers: seq<Layer>

    constructor (layers: seq<Layer>)
      ensures this.layers == layers
    {
      this.layers := layers;
    }

    method Scale(s: real)
      modifies this
      ensures layers == MapAll(old(layers), s, 0.0, 0.0)
    {
      layers := MapAll(layers, s, 0.0, 0.0);
    }

    method Translate(dx: real, dy: real)
      modifies this
      ensures layers == MapAll(old(layers), 1.0, dx, dy)
    {
      layers := MapAll(layers, 1.0, dx, dy);
    }
  }

  lemma AffineTwice(layers: seq<Layer>, s: real, dx: real, dy: real)
    ensures MapAll(MapAll(layers, s, 0.0, 0.0), 1.0, dx, dy) == MapAll(layers, s, dx, dy)
  {
    var once := MapAll(layers, s, 0.0, 0.0);
    var twice, direct := MapAll(once, 1.0, dx, dy), MapAll(layers, s, dx, dy);
    forall k | 0 <= k < |layers| ensures twice[k] == direct[k] {
      forall i | 0 <= i < |layers[k]| ensures twice[k][i] == direct[k][i] {
        LineTwice(layers[k][i], s, dx, dy);
      }
    }
  }

  lemma LineTwice(line: Line, s: real, dx: real, dy: real)
    ensures MapLine(MapLine(line, s, 0.0, 0.0), 1.0, dx, dy) == MapLine(line, s, dx, dy)
  {
    var twice, direct := MapLine(MapLine(line, s, 0.0, 0.0), 1.0, dx, dy), MapLine(line, s, dx, dy);
    forall j | 0 <= j < |line| ensures twice[j] == direct[j] {
    }
  }

  // ---- the whole operation ------------------------------------------------------------

  /** The sizes a placement works with: the usable rectangle, the room inside its margins, the
      scale and the artwork's scaled size. */
  datatype Layout = Layout(safe: Box, availW: real, availH: real, s: real, w: real, h: real)

  function LayoutOf(page: Page, b: Box, o: Options): Layout
    requires b.x0 < b.x1 && b.y0 < b.y1
  {
    var safe := SafeBox(page);
    var avail := Avail(safe, o.margin);
    var s := FitScale(b, avail, o.scale);
    Layout(safe, avail.0, avail.1, s, (b.x1 - b.x0) * s, (b.y1 - b.y0) * s)
  }

  /** Where artwork or a grid of the given size starts when it is centred in the room. */
  function Origin(edge: real, margin: real, room: real, size: real): real { edge + margin + (room - size) / 2.0 }

  /** The shift that brings a scaled coordinate `b0` to `g`. */
  function Shift(g: real, b0: real, s: real): real { g - b0 * s }

  function MovedTo(layers: seq<Layer>, b: Box, s: real, gx: real, gy: real): seq<Layer> {
    MapAll(layers, s, Shift(gx, b.x0, s), Shift(gy, b.y0, s))
  }

  function AtLeastOne(n: int): int { if n < 1 then 1 else n }

  function GridRefusal(l: Layout, o: Options): PlaceError {
    TooManyCopies(AtLeastOne(LargestGrid(l.availH, l.h, o.spacing)), AtLeastOne(LargestGrid(l.availW, l.w, o.spacing)))
  }

  /** What placing does, as a function: the outcome and the geometry left behind.  A refused
      grid has already scaled the artwork. */
  function PlaceIn(layers: seq<Layer>, l: Layout, b: Box, o: Options): (Outcome, seq<Layer>) {
    if o.rows * o.cols > 1 then
      var gw, gh := GridSpan(o.cols, l.w, o.spacing), GridSpan(o.rows, l.h, o.spacing);
      if TooBig(gw, l.availW) || TooBig(gh, l.availH)
      then (Refused(GridRefusal(l, o)), MapAll(layers, l.s, 0.0, 0.0))
      else
        var gx, gy := Origin(l.safe.x0, o.margin, l.availW, gw), Origin(l.safe.y0, o.margin, l.availH, gh);
        (Placed(l.s), Tiled(MovedTo(layers, b, l.s, gx, gy), o.rows, o.cols, l.w + o.spacing, l.h + o.spacing))
    else
      var gx, gy := Origin(l.safe.x0, o.margin, l.availW, l.w), Origin(l.safe.y0, o.margin, l.availH, l.h);
      (Placed(l.s), MovedTo(layers, b, l.s, gx, gy))
  }

  function Place(layers: seq<Layer>, page: Page, bounds: Option<Box>, o: Options): (Outcome, seq<Layer>) {
    match bounds
    case None => (Refused(NothingToPlot), layers)
    case Some(b) =>
      if b.x1 - b.x0 <= 0.0 || b.y1 - b.y0 <= 0.0 then (Refused(DegenerateBounds), layers)
      else PlaceIn(layers, LayoutOf(page, b, o), b, o)
  }

  method PlaceOnPaper(doc: Document, page: Page, bounds: Option<Box>, o: Options)
    returns (outcome: Outcome, result: Document)
    modifies doc
    ensures (outcome, result.layers) == Place(old(doc.layers), page, bounds, o)
    ensures result == doc || fresh(result)
  {
    result := doc;
    if bounds.None? {
      return Refused(NothingToPlot), doc;
    }
    var b := bounds.value;
    if b.x1 - b.x0 <= 0.0 || b.y1 - b.y0 <= 0.0 {
      return Refused(DegenerateBounds), doc;
    }
    outcome, result := PlaceLayout(doc, LayoutOf(page, b, o), b, o);
  }

  method PlaceLayout(doc: Document, l: Layout, b: Box, o: Options) returns (outcome: Outcome, result: Document)
    modifies doc
    ensures (outcome, result.layers) == PlaceIn(old(doc.layers), l, b, o)
    ensures result == doc || fresh(result)
  {
    result := doc;
    ghost var was := doc.layers;
    doc.Scale(l.s);
    if o.rows * o.cols > 1 {
      var gridW, gridH := GridSpan(o.cols, l.w, o.spacing), GridSpan(o.rows, l.h, o.spacing);
      if TooBig(gridW, l.availW) || TooBig(gridH, l.availH) {
        var refusal := GridRefusal(l, o);
        outcome := Refused(refusal);
        return;
      }
      var gx := Origin(l.safe.x0, o.margin, l.availW, gridW);
      var gy := Origin(l.safe.y0, o.margin, l.availH, gridH);
      doc.Translate(Shift(gx, b.x0, l.s), Shift(gy, b.y0, l.s));
      AffineTwice(was, l.s, Shift(gx, b.x0, l.s), Shift(gy, b.y0, l.s));
      var tiled := TileLayers(doc.layers, o.rows, o.cols, l.w + o.spacing, l.h + o.spacing);
      result := new Document(tiled);
    } else {
      var gx := Origin(l.safe.x0, o.margin, l.availW, l.w);
      var gy := Origin(l.safe.y0, o.margin, l.availH, l.h);
      doc.Translate(Shift(gx, b.x0, l.s), Shift(gy, b.y0, l.s));
      AffineTwice(was, l.s, Shift(gx, b.x0, l.s), Shift(gy, b.y0, l.s));
    }
    outcome := Placed(l.s);
  }

  // ---- containment --------------------------------------------------------------------

  lemma {:induction false} LineWithin(inner: Box, outer: Box, line: Line)
    requires LineIn(inner, line) && Within(inner, outer)
    ensures LineIn(outer, line)
  {
    if line != [] {
      LineWithin(inner, outer, line[1..]);
    }
  }

  lemma {:induction false} LayerWithin(inner: Box, outer: Box, layer: Layer)
    requires LayerIn(inner, layer) && Within(inner, outer)
    ensures LayerIn(outer, layer)
  {
    if layer != [] {
      LineWithin(inner, outer, layer[0]);
      LayerWithin(inner, outer, layer[1..]);
    }
  }

  lemma {:induction false} AllWithin(inner: Box, outer: Box, layers: seq<Layer>)
    requires AllIn(inner, layers) && Within(inner, outer)
    ensures AllIn(outer, layers)
  {
    if layers != [] {
      LayerWithin(inner, outer, layers[0]);
      AllWithin(inner, outer, layers[1..]);
    }
  }

  /** A box of the given size, centred in the room that starts at `origin`. */
  lemma CentredWithin(origin: real, room: real, size: real, slack: real)
    requires 0.0 <= size <= room + slack && slack >= 0.0
    ensures var at := origin + (room - size) / 2.0;
      origin - slack / 2.0 <= at && at + size <= origin + room + slack / 2.0
  {
  }

  lemma InsetRoom(b: Box, margin: real)
    requires HasRoom(b, margin)
    ensures var inner := Inset(b, margin);
      inner.x1 == inner.x0 + Avail(b, margin).0 && inner.y1 == inner.y0 + Avail(b, margin).1
  {
  }

  /** The scaled artwork fits the room, and the room is what the margins leave. */
  predicate Fits(l: Layout, b: Box, margin: real) {
    && l.s >= 0.0 && l.w == (b.x1 - b.x0) * l.s && l.h == (b.y1 - b.y0) * l.s
    && 0.0 <= l.w <= l.availW && 0.0 <= l.h <= l.availH
    && Inset(l.safe, margin).x1 == l.safe.x0 + margin + l.availW
    && Inset(l.safe, margin).y1 == l.safe.y0 + margin + l.availH
  }

  lemma LayoutBounds(page: Page, b: Box, o: Options)
    requires ValidOptions(o) && b.x0 < b.x1 && b.y0 < b.y1
    ensures var l := LayoutOf(page, b, o);
      && l.s >= 0.0 && 0.0 <= l.w <= l.availW && 0.0 <= l.h <= l.availH
      && (l.s > 0.0 ==> l.w > 0.0 && l.h > 0.0)
  {
    FitScaleFits(b, Avail(SafeBox(page), o.margin), o.scale);
    var s := LayoutOf(page, b, o).s;
    if s > 0.0 {
      MulStrict(0.0, b.x1 - b.x0, s);
      MulStrict(0.0, b.y1 - b.y0, s);
    }
  }

  lemma LayoutFits(page: Page, b: Box, o: Options)
    requires ValidOptions(o) && HasRoom(SafeBox(page), o.margin) && b.x0 < b.x1 && b.y0 < b.y1
    ensures Fits(LayoutOf(page, b, o), b, o.margin) && LayoutOf(page, b, o).safe == SafeBox(page)
  {
    LayoutBounds(page, b, o);
    InsetRoom(SafeBox(page), o.margin);
  }

  lemma MovedInto(layers: seq<Layer>, b: Box, s: real, w: real, h: real, gx: real, gy: real)
    requires s >= 0.0 && w == (b.x1 - b.x0) * s && h == (b.y1 - b.y0) * s && AllIn(b, layers)
    ensures AllIn(Box(gx, gy, gx + w, gy + h), MovedTo(layers, b, s, gx, gy))
  {
    PlacementCarries(b, s, w, h, gx, gy);
    MapCarries(b, Box(gx, gy, gx + w, gy + h), layers, s, Shift(gx, b.x0, s), Shift(gy, b.y0, s));
  }

  lemma SingleInside(layers: seq<Layer>, l: Layout, b: Box, o: Options)
    requires Fits(l, b, o.margin) && o.rows * o.cols <= 1 && AllIn(b, layers)
    ensures AllIn(Widen(Inset(l.safe, o.margin), 0.0), PlaceIn(layers, l, b, o).1)
  {
    var gx, gy := Origin(l.safe.x0, o.margin, l.availW, l.w), Origin(l.safe.y0, o.margin, l.availH, l.h);
    CentredWithin(l.safe.x0 + o.margin, l.availW, l.w, 0.0);
    CentredWithin(l.safe.y0 + o.margin, l.availH, l.h, 0.0);
    MovedInto(layers, b, l.s, l.w, l.h, gx, gy);
    AllWithin(Box(gx, gy, gx + l.w, gy + l.h), Widen(Inset(l.safe, o.margin), 0.0), MovedTo(layers, b, l.s, gx, gy));
  }

  lemma GridSpanNonNegative(n: nat, size: real, gap: real)
    requires n >= 1 && size >= 0.0 && gap >= 0.0
    ensures GridSpan(n, size, gap) >= 0.0
  {
    MulOrder(0.0, n as real, size);
    MulOrder(0.0, n as real - 1.0, gap);
  }

  lemma GridWithin(l: Layout, b: Box, o: Options, gw: real, gh: real)
    requires Fits(l, b, o.margin) && 0.0 <= gw <= l.availW + GRID_SLACK && 0.0 <= gh <= l.availH + GRID_SLACK
    ensures var gx, gy := Origin(l.safe.x0, o.margin, l.availW, gw), Origin(l.safe.y0, o.margin, l.availH, gh);
      Within(Box(gx, gy, gx + gw, gy + gh), Widen(Inset(l.safe, o.margin), GRID_SLACK / 2.0))
  {
    CentredWithin(l.safe.x0 + o.margin, l.availW, gw, GRID_SLACK);
    CentredWithin(l.safe.y0 + o.margin, l.availH, gh, GRID_SLACK);
  }

  lemma TiledInside(layers: seq<Layer>, l: Layout, b: Box, o: Options)
    requires ValidOptions(o) && Fits(l, b, o.margin) && o.rows * o.cols > 1 && AllIn(b, layers)
    requires PlaceIn(layers, l, b, o).0.Placed?
    ensures AllIn(Widen(Inset(l.safe, o.margin), GRID_SLACK / 2.0), PlaceIn(layers, l, b, o).1)
  {
    var gw, gh := GridSpan(o.cols, l.w, o.spacing), GridSpan(o.rows, l.h, o.spacing);
    var gx, gy := Origin(l.safe.x0, o.margin, l.availW, gw), Origin(l.safe.y0, o.margin, l.availH, gh);
    GridSpanNonNegative(o.cols, l.w, o.spacing);
    GridSpanNonNegative(o.rows, l.h, o.spacing);
    GridWithin(l, b, o, gw, gh);
    var g := Grid(gx, gy, l.w, l.h, o.spacing, o.rows, o.cols);
    MovedInto(layers, b, l.s, l.w, l.h, gx, gy);
    TiledInGrid(g, MovedTo(layers, b, l.s, gx, gy));
    AllWithin(GridBox(g), Widen(Inset(l.safe, o.margin), GRID_SLACK / 2.0), PlaceIn(layers, l, b, o).1);
  }

  /** Whatever is placed lies inside the margins: exactly for a single copy, up to half the
      millionth of a millimetre of grid tolerance for a grid. */
  lemma PlacedInside(layers: seq<Layer>, page: Page, b: Box, o: Options)
    requires ValidOptions(o) && HasRoom(SafeBox(page), o.margin) && AllIn(b, layers)
    requires Place(layers, page, Some(b), o).0.Placed?
    ensures AllIn(Widen(Inset(SafeBox(page), o.margin), if o.rows * o.cols > 1 then GRID_SLACK / 2.0 else 0.0),
                  Place(layers, page, Some(b), o).1)
  {
    LayoutFits(page, b, o);
    if o.rows * o.cols > 1 {
      TiledInside(layers, LayoutOf(page, b, o), b, o);
    } else {
      SingleInside(layers, LayoutOf(page, b, o), b, o);
    }
  }

  /** A point of the page in plotter units. */
  function Units(page: Page, p: Point): (real, real) { ((p.x - page.ox) / UNIT_MM, (page.oy - p.y) / UNIT_MM) }

  lemma UnitsInside(page: Page, p: Point)
    requires PointIn(ClipBox(page), p)
    ensures var u := Units(page, p);
      page.xmin as real <= u.0 <= page.xmax as real && page.ymin as real <= u.1 <= page.ymax as real
  {
    Quotients(page.xmin as real, p.x - page.ox, page.xmax as real);
    Quotients(page.ymin as real, page.oy - p.y, page.ymax as real);
  }

  lemma Quotients(lo: real, v: real, hi: real)
    requires lo * UNIT_MM <= v <= hi * UNIT_MM
    ensures lo <= v / UNIT_MM <= hi
  {
  }

  /** The grid tolerance does not reach past the hard clip. */
  predicate SlackCovered(page: Page, o: Options) {
    o.rows * o.cols > 1 ==> Within(Widen(Inset(SafeBox(page), o.margin), GRID_SLACK / 2.0), ClipBox(page))
  }

  /** Every placed point maps to plotter units inside the hard clip: nothing can be clamped. */
  lemma PlacedNeverClamped(layers: seq<Layer>, page: Page, b: Box, o: Options, k: nat, i: nat, j: nat)
    requires ValidPage(page) && ValidOptions(o) && HasRoom(SafeBox(page), o.margin) && AllIn(b, layers)
    requires SlackCovered(page, o)
    requires var (outcome, out) := Place(layers, page, Some(b), o);
      outcome.Placed? && k < |out| && i < |out[k]| && j < |out[k][i]|
    ensures var u := Units(page, Place(layers, page, Some(b), o).1[k][i][j]);
      page.xmin as real <= u.0 <= page.xmax as real && page.ymin as real <= u.1 <= page.ymax as real
  {
    var out := Place(layers, page, Some(b), o).1;
    PlacedInside(layers, page, b, o);
    SafeInsideClip(page);
    var slack := if o.rows * o.cols > 1 then GRID_SLACK / 2.0 else 0.0;
    AllWithin(Widen(Inset(SafeBox(page), o.margin), slack), ClipBox(page), out);
    AllInAt(ClipBox(page), out, k);
    LayerInAt(ClipBox(page), out[k], i);
    LineInAt(ClipBox(page), out[k][i], j);
    UnitsInside(page, out[k][i][j]);
  }

  lemma RefusalIsExact(l: Layout, o: Options, n: nat)
    requires ValidOptions(o) && n >= 1 && 0.0 < l.w <= l.availW && 0.0 < l.h <= l.availH
    ensures var most := GridRefusal(l, o);
      && (GridSpan(n, l.w, o.spacing) <= l.availW <==> n <= most.maxCols)
      && (GridSpan(n, l.h, o.spacing) <= l.availH <==> n <= most.maxRows)
  {
    AxisExact(l.availW, l.w, o.spacing, n);
    AxisExact(l.availH, l.h, o.spacing, n);
  }

  /** A refused grid: the reported numbers are exactly the most columns and rows that fit at
      this size, and one of the requested numbers is beyond them. */
  lemma RefusedGridIsExact(layers: seq<Layer>, page: Page, b: Box, o: Options, n: nat)
    requires ValidOptions(o) && n >= 1 && b.x0 < b.x1 && b.y0 < b.y1 && LayoutOf(page, b, o).s > 0.0
    requires Place(layers, page, Some(b), o).0.Refused?
    ensures var error := Place(layers, page, Some(b), o).0.error;
      var l := LayoutOf(page, b, o);
      && error.TooManyCopies?
      && (GridSpan(n, l.w, o.spacing) <= l.availW <==> n <= error.maxCols)
      && (GridSpan(n, l.h, o.spacing) <= l.availH <==> n <= error.maxRows)
      && (o.cols > error.maxCols || o.rows > error.maxRows)
  {
    var l := LayoutOf(page, b, o);
    LayoutBounds(page, b, o);
    RefusalIsExact(l, o, n);
    RefusalIsExact(l, o, o.cols);
    RefusalIsExact(l, o, o.rows);
  }

  lemma AxisExact(room: real, size: real, gap: real, n: nat)
    requires 0.0 < size <= room && gap >= 0.0 && n >= 1
    ensures GridSpan(n, size, gap) <= room <==> n <= AtLeastOne(LargestGrid(room, size, gap))
  {
    LargestGridExact(room, size, gap, n);
    LargestGridExact(room, size, gap, 1);
    assert GridSpan(1, size, gap) == size;
  }

  // ---- where every point lies ---------------------------------------------------------

  lemma MapAt(layer: Layer, s: real, dx: real, dy: real, i: nat, j: nat)
    requires i < |layer| && j < |layer[i]|
    ensures |MapLayer(layer, s, dx, dy)| == |layer| && |MapLayer(layer, s, dx, dy)[i]| == |layer[i]|
    ensures MapLayer(layer, s, dx, dy)[i][j] == Point(layer[i][j].x * s + dx, layer[i][j].y * s + dy)
  {
    assert MapLayer(layer, s, dx, dy)[i] == MapLine(layer[i], s, dx, dy);
    assert MapLine(layer[i], s, dx, dy)[j] == Affine(layer[i][j], s, dx, dy);
  }

  /** A line of a copy, shifted by the copy's cell. */
  ghost predicate IsShifted(line: Line, original: Line, dx: real, dy: real) {
    |line| == |original| && forall j :: 0 <= j < |line| ==> line[j] == Point(original[j].x + dx, original[j].y + dy)
  }

  lemma CopyShifted(layer: Layer, r: nat, c: nat, stepX: real, stepY: real, i: nat)
    requires i < |layer|
    ensures |Copy(layer, r, c, stepX, stepY)| == |layer|
    ensures IsShifted(Copy(layer, r, c, stepX, stepY)[i], layer[i], c as real * stepX, r as real * stepY)
  {
    var copy := Copy(layer, r, c, stepX, stepY);
    forall j | 0 <= j < |layer[i]|
      ensures copy[i][j] == Point(layer[i][j].x + c as real * stepX, layer[i][j].y + r as real * stepY)
    {
      MapAt(layer, 1.0, c as real * stepX, r as real * stepY, i, j);
    }
  }

  lemma RowIndex(c: nat, c0: nat, cols: nat, m: nat, i: nat)
    requires c0 <= c < cols && i < m
    ensures 0 <= (c - c0) * m + i < (cols - c0) * m
    ensures c == c0 ==> (c - c0) * m == 0
    ensures c > c0 ==> (c - c0) * m == m + (c - (c0 + 1)) * m
  {
    MoreRows(c - c0, cols - c0, m);
    if c > c0 {
      OneLess(c, c0, m);
    }
  }

  lemma MoreRows(a: nat, b: nat, m: nat)
    requires a < b
    ensures 0 <= a * m && a * m + m <= b * m
  {
    assert b * m == a * m + (b - a) * m;
    assert (b - a) * m == m + (b - a - 1) * m;
  }

  lemma {:induction false} RowAt(layer: Layer, r: nat, c0: nat, cols: nat, m: nat, stepX: real, stepY: real,
      c: nat, i: nat)
    requires c0 <= c < cols && i < |layer| && m == |layer|
    ensures var row := RowFrom(layer, r, c0, cols, stepX, stepY);
      var at := (c - c0) * m + i;
      && |Copy(layer, r, c, stepX, stepY)| == m
      && 0 <= at < |row| && row[at] == Copy(layer, r, c, stepX, stepY)[i]
    decreases cols - c0
  {
    hide Copy;
    var copy, rest := Copy(layer, r, c0, stepX, stepY), RowFrom(layer, r, c0 + 1, cols, stepX, stepY);
    CopyCount(layer, r, c0, stepX, stepY);
    RowIndex(c, c0, cols, m, i);
    RowCount(layer, r, c0, cols, stepX, stepY);
    if c == c0 {
      assert (copy + rest)[i] == copy[i];
    } else {
      RowAt(layer, r, c0 + 1, cols, m, stepX, stepY, c, i);
      var before := (c - (c0 + 1)) * m + i;
      assert (copy + rest)[m + before] == rest[before];
    }
  }

  lemma CopyCount(layer: Layer, r: nat, c: nat, stepX: real, stepY: real)
    ensures |Copy(layer, r, c, stepX, stepY)| == |layer|
  {
  }

  /** Line `x` of row `r`, among the rows from `r0` on. */
  lemma {:induction false} RowsAt(layer: Layer, r0: nat, rows: nat, cols: nat, width: nat, stepX: real, stepY: real,
      r: nat, x: nat)
    requires r0 <= r < rows && x < width && width == cols * |layer|
    ensures var all := RowsFrom(layer, r0, rows, cols, stepX, stepY);
      var row := RowFrom(layer, r, 0, cols, stepX, stepY);
      |row| == width && 0 <= (r - r0) * width + x < |all| && all[(r - r0) * width + x] == row[x]
    decreases rows - r0
  {
    hide RowFrom;
    var row, rest := RowFrom(layer, r0, 0, cols, stepX, stepY), RowsFrom(layer, r0 + 1, rows, cols, stepX, stepY);
    RowCount(layer, r0, 0, cols, stepX, stepY);
    RowIndex(r, r0, rows, width, x);
    if r == r0 {
      assert (row + rest)[x] == row[x];
    } else {
      RowsAt(layer, r0 + 1, rows, cols, width, stepX, stepY, r, x);
      var before := (r - (r0 + 1)) * width + x;
      assert (row + rest)[width + before] == rest[before];
    }
  }

  lemma CellIndex(r: nat, c: nat, cols: nat, m: nat)
    ensures (r * cols + c) * m == r * (cols * m) + c * m
  {
  }

  /** Where a tiled layer has its lines: the copies come row by row, and line `i` of the copy in row
      `r` and column `c` is line `i` of the layer, shifted by `c` steps across and `r` steps down. */
  lemma TileAt(layer: Layer, rows: nat, cols: nat, stepX: real, stepY: real, r: nat, c: nat, i: nat)
    requires r < rows && c < cols && i < |layer|
    ensures var all := RowsFrom(layer, 0, rows, cols, stepX, stepY);
      var at := (r * cols + c) * |layer| + i;
      0 <= at < |all| && IsShifted(all[at], layer[i], c as real * stepX, r as real * stepY)
  {
    hide RowsFrom, RowFrom, Copy, IsShifted;
    RowIndex(c, 0, cols, |layer|, i);
    RowsAt(layer, 0, rows, cols, cols * |layer|, stepX, stepY, r, c * |layer| + i);
    RowAt(layer, r, 0, cols, |layer|, stepX, stepY, c, i);
    CopyShifted(layer, r, c, stepX, stepY, i);
    CellIndex(r, c, cols, |layer|);
  }

  lemma {:induction false} TiledAt(layers: seq<Layer>, rows: nat, cols: nat, stepX: real, stepY: real, k: nat)
    requires k < |layers|
    ensures Tiled(layers, rows, cols, stepX, stepY)[k] == RowsFrom(layers[k], 0, rows, cols, stepX, stepY)
  {
    if k > 0 {
      TiledAt(layers[1..], rows, cols, stepX, stepY, k - 1);
    }
  }

  /** The largest scale at which the artwork fits is the one used at user scale 1; any other user
      scale is a fraction of it. */
  lemma FitIsLargest(b: Box, avail: (real, real), userScale: real, t: real)
    requires b.x0 < b.x1 && b.y0 < b.y1
    ensures (b.x1 - b.x0) * t <= avail.0 && (b.y1 - b.y0) * t <= avail.1 <==> t <= FitScale(b, avail, 1.0)
    ensures FitScale(b, avail, userScale) == FitScale(b, avail, 1.0) * userScale
  {
    AtMostQuotient(t, avail.0, b.x1 - b.x0);
    AtMostQuotient(t, avail.1, b.y1 - b.y0);
  }

  /** So at user scale 1 one of the two axes is filled. */
  lemma OneAxisIsFilled(b: Box, avail: (real, real))
    requires b.x0 < b.x1 && b.y0 < b.y1
    ensures var s := FitScale(b, avail, 1.0);
      (b.x1 - b.x0) * s == avail.0 || (b.y1 - b.y0) * s == avail.1
  {
    assert avail.0 / (b.x1 - b.x0) * (b.x1 - b.x0) == avail.0;
    assert avail.1 / (b.y1 - b.y0) * (b.y1 - b.y0) == avail.1;
  }

  /** The usable rectangle is the safe area, no larger than the clip, in the middle of the clip; and
      the clip's corners are the ends of the plotter's axes, with the y axis pointing up. */
  lemma SafeIsCentred(p: Page)
    requires ValidPage(p)
    ensures var c, s := ClipBox(p), SafeBox(p);
      && s.x0 + s.x1 == c.x0 + c.x1 && s.y0 + s.y1 == c.y0 + c.y1
      && (p.safe.Some? ==>
            && s.x1 - s.x0 == Min(p.safe.value.0, c.x1 - c.x0)
            && s.y1 - s.y0 == Min(p.safe.value.1, c.y1 - c.y0))
      && (p.safe.None? ==> s == c)
    ensures var c := ClipBox(p);
      && Units(p, Point(c.x0, c.y1)) == (p.xmin as real, p.ymin as real)
      && Units(p, Point(c.x1, c.y0)) == (p.xmax as real, p.ymax as real)
  {
    Quotients(p.xmin as real, p.xmin as real * UNIT_MM, p.xmin as real);
    Quotients(p.xmax as real, p.xmax as real * UNIT_MM, p.xmax as real);
    Quotients(p.ymin as real, p.ymin as real * UNIT_MM, p.ymin as real);
    Quotients(p.ymax as real, p.ymax as real * UNIT_MM, p.ymax as real);
  }

  /** The copies and the gaps between them fit the room on one axis. */
  predicate AxisFits(n: nat, size: real, gap: real, room: real) {
    n as real * size + (n as real - 1.0) * gap <= room + 0.000001
  }

  lemma PlacedInExactlyWhen(layers: seq<Layer>, l: Layout, b: Box, o: Options)
    ensures var placed := PlaceIn(layers, l, b, o).0;
      if o.rows * o.cols <= 1
        || (AxisFits(o.cols, l.w, o.spacing, l.availW) && AxisFits(o.rows, l.h, o.spacing, l.availH))
      then placed == Placed(l.s)
      else placed.Refused? && placed.error.TooManyCopies?
  {
    hide MovedTo, Tiled, Origin;
  }

  /** When placing succeeds: always for a single copy with an extent, and for a grid exactly when the
      copies and the gaps between them fit the room, up to a millionth of a millimetre. */
  lemma PlacedExactlyWhen(layers: seq<Layer>, page: Page, b: Box, o: Options)
    ensures Place(layers, page, None, o) == (Refused(NothingToPlot), layers)
    ensures var placed := Place(layers, page, Some(b), o).0;
      if b.x1 <= b.x0 || b.y1 <= b.y0 then placed == Refused(DegenerateBounds)
      else
        var l := LayoutOf(page, b, o);
        if o.rows * o.cols <= 1
          || (AxisFits(o.cols, l.w, o.spacing, l.availW) && AxisFits(o.rows, l.h, o.spacing, l.availH))
        then placed == Placed(l.s)
        else placed.Refused? && placed.error.TooManyCopies?
  {
    hide PlaceIn, AxisFits;
    if b.x0 < b.x1 && b.y0 < b.y1 {
      PlacedInExactlyWhen(layers, LayoutOf(page, b, o), b, o);
    }
  }

  /** A refused grid leaves the artwork scaled and in its place. */
  lemma RefusedIsScaled(layers: seq<Layer>, page: Page, b: Box, o: Options, k: nat, i: nat, j: nat)
    requires b.x0 < b.x1 && b.y0 < b.y1 && Place(layers, page, Some(b), o).0.Refused?
    requires k < |layers| && i < |layers[k]| && j < |layers[k][i]|
    ensures var out, s, p := Place(layers, page, Some(b), o).1, LayoutOf(page, b, o).s, layers[k][i][j];
      && |out| == |layers| && |out[k]| == |layers[k]| && |out[k][i]| == |layers[k][i]|
      && out[k][i][j] == Point(p.x * s, p.y * s)
  {
    hide TooBig, GridSpan, Tiled, MovedTo, Origin, LayoutOf;
    MapAt(layers[k], LayoutOf(page, b, o).s, 0.0, 0.0, i, j);
  }

  /** Where the first copy starts on one axis, so that all of it is in the middle. */
  function Centred(lo: real, hi: real, size: real): real { (lo + hi - size) / 2.0 }

  /** A drawing moved to its corner: every point keeps its scaled distance from it. */
  lemma MovedAt(layers: seq<Layer>, b: Box, s: real, gx: real, gy: real, k: nat, i: nat, j: nat)
    requires k < |layers| && i < |layers[k]| && j < |layers[k][i]|
    ensures var out, p := MovedTo(layers, b, s, gx, gy), layers[k][i][j];
      && |out| == |layers| && |out[k]| == |layers[k]| && |out[k][i]| == |layers[k][i]|
      && out[k][i][j] == Point(gx + (p.x - b.x0) * s, gy + (p.y - b.y0) * s)
  {
    hide MapAll, MapLayer;
    MapAt(layers[k], s, Shift(gx, b.x0, s), Shift(gy, b.y0, s), i, j);
    Differences(layers[k][i][j].x, b.x0, s);
    Differences(layers[k][i][j].y, b.y0, s);
  }

  lemma Differences(x: real, b: real, s: real)
    ensures x * s - b * s == (x - b) * s
  {
  }

  lemma OriginCentres(lo: real, hi: real, margin: real, size: real)
    requires 2.0 * margin <= hi - lo
    ensures Origin(lo, margin, Max(0.0, (hi - lo) - 2.0 * margin), size) == Centred(lo, hi, size)
  {
  }

  /** A point in its cell of a grid that starts at `(left, top)`. */
  predicate InCell(q: Point, p: Point, b: Box, s: real, left: real, top: real, stepX: real, stepY: real,
      r: nat, c: nat)
  {
    && q.x == left + c as real * stepX + (p.x - b.x0) * s
    && q.y == top + r as real * stepY + (p.y - b.y0) * s
  }

  lemma GridAt(layers: seq<Layer>, b: Box, s: real, gx: real, gy: real, rows: nat, cols: nat, stepX: real, stepY: real,
      k: nat, r: nat, c: nat, i: nat, j: nat)
    requires k < |layers| && r < rows && c < cols && i < |layers[k]| && j < |layers[k][i]|
    ensures var out := Tiled(MovedTo(layers, b, s, gx, gy), rows, cols, stepX, stepY);
      var at := (r * cols + c) * |layers[k]| + i;
      && |out| == |layers| && 0 <= at < |out[k]| && |out[k][at]| == |layers[k][i]|
      && InCell(out[k][at][j], layers[k][i][j], b, s, gx, gy, stepX, stepY, r, c)
  {
    hide MovedTo, RowsFrom, Tiled;
    var moved := MovedTo(layers, b, s, gx, gy);
    MovedAt(layers, b, s, gx, gy, k, i, j);
    TiledAt(moved, rows, cols, stepX, stepY, k);
    TileAt(moved[k], rows, cols, stepX, stepY, r, c, i);
  }

  /** A single copy is a grid of one. */
  lemma SingleAt(r: nat, c: nat, rows: nat, cols: nat, m: nat, i: nat)
    requires rows * cols <= 1 && r < rows && c < cols
    ensures rows == 1 && cols == 1 && r == 0 && c == 0 && (r * cols + c) * m + i == i
  {
    if rows > 1 || cols > 1 {
      MoreThanOne(rows, cols);
    }
    assert r == 0 && c == 0 && 0 * m == 0;
  }

  lemma SingleSpan(n: nat, size: real, gap: real)
    requires n == 1
    ensures GridSpan(n, size, gap) == size
  {
  }

  lemma SingleCell(q: Point, p: Point, b: Box, s: real, left: real, top: real, stepX: real, stepY: real)
    requires q == Point(left + (p.x - b.x0) * s, top + (p.y - b.y0) * s)
    ensures InCell(q, p, b, s, left, top, stepX, stepY, 0, 0)
  {
    assert 0.0 * stepX == 0.0 && 0.0 * stepY == 0.0;
  }

  lemma MoreThanOne(a: nat, b: nat)
    requires a >= 1 && b >= 1 && (a > 1 || b > 1)
    ensures a * b > 1
  {
  }

  lemma PlacedInAt(layers: seq<Layer>, l: Layout, b: Box, o: Options, k: nat, r: nat, c: nat, i: nat, j: nat)
    requires k < |layers| && r < o.rows && c < o.cols && i < |layers[k]| && j < |layers[k][i]|
    requires PlaceIn(layers, l, b, o).0.Placed?
    ensures var (outcome, out) := PlaceIn(layers, l, b, o);
      var left := Origin(l.safe.x0, o.margin, l.availW, GridSpan(o.cols, l.w, o.spacing));
      var top := Origin(l.safe.y0, o.margin, l.availH, GridSpan(o.rows, l.h, o.spacing));
      var at := (r * o.cols + c) * |layers[k]| + i;
      && outcome.scale == l.s
      && |out| == |layers| && 0 <= at < |out[k]| && |out[k][at]| == |layers[k][i]|
      && InCell(out[k][at][j], layers[k][i][j], b, l.s, left, top, l.w + o.spacing, l.h + o.spacing, r, c)
  {
    hide Origin, MovedTo, Tiled, TooBig, GridRefusal, GridSpan, InCell;
    var left := Origin(l.safe.x0, o.margin, l.availW, GridSpan(o.cols, l.w, o.spacing));
    var top := Origin(l.safe.y0, o.margin, l.availH, GridSpan(o.rows, l.h, o.spacing));
    var p := layers[k][i][j];
    if o.rows * o.cols > 1 {
      GridAt(layers, b, l.s, left, top, o.rows, o.cols, l.w + o.spacing, l.h + o.spacing, k, r, c, i, j);
    } else {
      SingleAt(r, c, o.rows, o.cols, |layers[k]|, i);
      SingleSpan(o.cols, l.w, o.spacing);
      SingleSpan(o.rows, l.h, o.spacing);
      MovedAt(layers, b, l.s, left, top, k, i, j);
      SingleCell(MovedTo(layers, b, l.s, left, top)[k][i][j], p, b, l.s, left, top, l.w + o.spacing, l.h + o.spacing);
    }
  }

  function Scaled(lo: real, hi: real, s: real): real { (hi - lo) * s }

  /** A point of the copy in row `r` and column `c` at scale `s`: the whole grid is centred on the
      usable rectangle, its cells are one scaled size and one gap apart, and in its cell the point
      keeps its scaled distance from the artwork's corner. */
  predicate LiesAt(q: Point, p: Point, b: Box, safe: Box, s: real, o: Options, r: nat, c: nat) {
    LiesInCell(q, p, b, safe, s, Scaled(b.x0, b.x1, s), Scaled(b.y0, b.y1, s), o, r, c)
  }

  predicate LiesInCell(q: Point, p: Point, b: Box, safe: Box, s: real, w: real, h: real, o: Options, r: nat, c: nat) {
    InCell(q, p, b, s, Centred(safe.x0, safe.x1, GridSpan(o.cols, w, o.spacing)),
           Centred(safe.y0, safe.y1, GridSpan(o.rows, h, o.spacing)), w + o.spacing, h + o.spacing, r, c)
  }

  lemma CellInLayout(layers: seq<Layer>, l: Layout, b: Box, o: Options, k: nat, r: nat, c: nat, i: nat, j: nat)
    requires HasRoom(l.safe, o.margin) && k < |layers| && r < o.rows && c < o.cols
    requires i < |layers[k]| && j < |layers[k][i]| && PlaceIn(layers, l, b, o).0.Placed?
    requires (l.availW, l.availH) == Avail(l.safe, o.margin)
    ensures var (outcome, out) := PlaceIn(layers, l, b, o);
      var at := (r * o.cols + c) * |layers[k]| + i;
      && outcome.scale == l.s
      && |out| == |layers| && 0 <= at < |out[k]| && |out[k][at]| == |layers[k][i]|
      && LiesInCell(out[k][at][j], layers[k][i][j], b, l.safe, l.s, l.w, l.h, o, r, c)
  {
    hide PlaceIn, Origin, Centred, GridSpan, InCell;
    PlacedInAt(layers, l, b, o, k, r, c, i, j);
    OriginCentres(l.safe.x0, l.safe.x1, o.margin, GridSpan(o.cols, l.w, o.spacing));
    OriginCentres(l.safe.y0, l.safe.y1, o.margin, GridSpan(o.rows, l.h, o.spacing));
  }

  lemma SameCell(q: Point, p: Point, b: Box, safe: Box, s: real, w: real, h: real, o: Options, r: nat, c: nat)
    requires LiesInCell(q, p, b, safe, s, w, h, o, r, c) && w == Scaled(b.x0, b.x1, s) && h == Scaled(b.y0, b.y1, s)
    ensures LiesAt(q, p, b, safe, s, o, r, c)
  {
    hide LiesInCell, Scaled;
  }

  lemma LiesInLayout(layers: seq<Layer>, l: Layout, b: Box, o: Options, k: nat, r: nat, c: nat, i: nat, j: nat)
    requires HasRoom(l.safe, o.margin) && k < |layers| && r < o.rows && c < o.cols
    requires i < |layers[k]| && j < |layers[k][i]| && PlaceIn(layers, l, b, o).0.Placed?
    requires (l.availW, l.availH) == Avail(l.safe, o.margin) && l.w == (b.x1 - b.x0) * l.s && l.h == (b.y1 - b.y0) * l.s
    ensures var (outcome, out) := PlaceIn(layers, l, b, o);
      var at := (r * o.cols + c) * |layers[k]| + i;
      && outcome.scale == l.s
      && |out| == |layers| && 0 <= at < |out[k]| && |out[k][at]| == |layers[k][i]|
      && LiesAt(out[k][at][j], layers[k][i][j], b, l.safe, l.s, o, r, c)
  {
    hide PlaceIn, LiesInCell, LiesAt, HasRoom, Avail;
    CellInLayout(layers, l, b, o, k, r, c, i, j);
    var out, at := PlaceIn(layers, l, b, o).1, (r * o.cols + c) * |layers[k]| + i;
    SameCell(out[k][at][j], layers[k][i][j], b, l.safe, l.s, l.w, l.h, o, r, c);
  }

  /** Where every point of a placed drawing lies, with the scale that is reported. */
  lemma PlacedAt(layers: seq<Layer>, page: Page, b: Box, o: Options, k: nat, r: nat, c: nat, i: nat, j: nat)
    requires HasRoom(SafeBox(page), o.margin) && k < |layers| && r < o.rows && c < o.cols
    requires i < |layers[k]| && j < |layers[k][i]| && Place(layers, page, Some(b), o).0.Placed?
    ensures var (outcome, out) := Place(layers, page, Some(b), o);
      var at := (r * o.cols + c) * |layers[k]| + i;
      && |out| == |layers| && 0 <= at < |out[k]| && |out[k][at]| == |layers[k][i]|
      && LiesAt(out[k][at][j], layers[k][i][j], b, SafeBox(page), outcome.scale, o, r, c)
  {
    hide PlaceIn, FitScale, SafeBox, LiesAt, HasRoom, Avail;
    var l := LayoutOf(page, b, o);
    LiesInLayout(layers, l, b, o, k, r, c, i, j);
    assert Place(layers, page, Some(b), o) == PlaceIn(layers, l, b, o);
  }

  // ---- the papers ---------------------------------------------------------------------

  datatype Paper = A4 | A3 | LetterA | TabloidB

  /** The four configurations, with the origin the plotting library gives them. */
  function PageFor(p: Paper, ox: real, oy: real): Page {
    match p
    case A4 => Page(ox, oy, 0, 11040, 0, 7721, Some((274.0, 192.0)))
    case A3 => Page(ox, oy, 0, 16158, 0, 11040, Some((399.0, 271.0)))
    case LetterA => Page(ox, oy, 0, 10365, 0, 7962, Some((245.0, 188.2)))
    case TabloidB => Page(ox, oy, 0, 16640, 0, 10365, Some((393.3, 245.0)))
  }

  /** On every paper, any margin the options allow leaves room, so a positive scale results. */
  lemma PapersHaveRoom(p: Paper, ox: real, oy: real, margin: real)
    requires 0.0 <= margin <= 30.0
    ensures var page := PageFor(p, ox, oy);
      ValidPage(page) && HasRoom(SafeBox(page), margin) && Avail(SafeBox(page), margin).0 > 0.0
        && Avail(SafeBox(page), margin).1 > 0.0
  {
  }

  /** On every paper the usable area leaves at least 0.049 mm to the hard clip. */
  lemma PapersCoverSlack(p: Paper, ox: real, oy: real, o: Options)
    requires ValidOptions(o)
    ensures SlackCovered(PageFor(p, ox, oy), o)
  {
  }

  /** On every paper, with any options that are accepted, single or in a grid, nothing that is
      placed can be clamped by the plotter. */
  lemma PaperNeverClamps(p: Paper, ox: real, oy: real, layers: seq<Layer>, b: Box, o: Options, k: nat, i: nat, j: nat)
    requires ValidOptions(o) && o.margin <= 30.0 && AllIn(b, layers)
    requires var (outcome, out) := Place(layers, PageFor(p, ox, oy), Some(b), o);
      outcome.Placed? && k < |out| && i < |out[k]| && j < |out[k][i]|
    ensures var page := PageFor(p, ox, oy);
      var u := Units(page, Place(layers, page, Some(b), o).1[k][i][j]);
      page.xmin as real <= u.0 <= page.xmax as real && page.ymin as real <= u.1 <= page.ymax as real
  {
    PapersHaveRoom(p, ox, oy, o.margin);
    PapersCoverSlack(p, ox, oy, o);
    PlacedNeverClamped(layers, PageFor(p, ox, oy), b, o, k, i, j);
  }
}
