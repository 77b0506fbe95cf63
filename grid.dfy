/** The coordinate grid, redrawn after every zoom and pan. It is pure in the
    viewport and the surface's pixel size: lines every 50 world units over the
    visible world window, grey axis bands, the two axis lines, and numeric
    labels. Each drawn element is kept only as the coordinates it carries. */
module Grid {
  import opened Geometry

  const Spacing: int := 50

  datatype GridItem =
    | Line(x1: real, y1: real, x2: real, y2: real)
    | Band(x: real, y: real, w: real, h: real)
    | Label(x: real, y: real, value: int)

  function Ceil(r: real): int {
    -((-r).Floor)
  }

  /** The first tick at or below `lo`: `Math.floor(lo / 50) * 50`. */
  function StartTick(lo: real): int {
    (lo / Spacing as real).Floor * Spacing
  }

  /** The first tick at or above `hi`: `Math.ceil(hi / 50) * 50`. */
  function EndTick(hi: real): int {
    Ceil(hi / Spacing as real) * Spacing
  }

  /** How many times `for (x = lo; x <= hi; x += 50)` runs. */
  function TickCount(lo: int, hi: int): nat {
    if hi < lo then 0 else (hi - lo) / Spacing + 1
  }

  /** The values the loop variable takes. */
  function Ticks(lo: int, hi: int): seq<int> {
    seq(TickCount(lo, hi), k requires 0 <= k < TickCount(lo, hi) => lo + Spacing * k)
  }

  /** The loop `x = lo; x <= hi; x += 50` is still running after `i` steps
      exactly when `i` is below the tick count. */
  lemma TickIndex(lo: int, hi: int, i: nat)
    ensures lo + Spacing * i <= hi <==> i < TickCount(lo, hi)
  {
    if lo <= hi {
      var q, r := (hi - lo) / Spacing, (hi - lo) % Spacing;
      assert hi - lo == Spacing * q + r && 0 <= r < Spacing;
      if i <= q {
        assert Spacing * i <= Spacing * q;
      } else {
        assert Spacing * i >= Spacing * q + Spacing;
      }
    }
  }

  /** The ticks are exactly the values from `lo` to `hi` that `lo` reaches in steps of 50. */
  lemma TicksExactly(lo: int, hi: int, x: int)
    ensures x in Ticks(lo, hi) <==> lo <= x <= hi && (x - lo) % Spacing == 0
  {
    var ts := Ticks(lo, hi);
    if x in ts {
      var k :| 0 <= k < |ts| && ts[k] == x;
      TickIndex(lo, hi, k);
      assert x - lo == Spacing * k;
    }
    if lo <= x <= hi && (x - lo) % Spacing == 0 {
      var k := (x - lo) / Spacing;
      assert x == lo + Spacing * k;
      TickIndex(lo, hi, k);
      assert ts[k] == x;
    }
  }

  // ----- the visible world window -----

  function XTicks(scale: real, offset: Point, width: nat): seq<int>
    requires scale != 0.0
  {
    Ticks(StartTick(-offset.x), EndTick(-offset.x + width as real / scale))
  }

  function YTicks(scale: real, offset: Point, height: nat): seq<int>
    requires scale != 0.0
  {
    Ticks(StartTick(-offset.y), EndTick(-offset.y + height as real / scale))
  }

  /** Vertical lines sit at every multiple of 50 from the tick at or below the
      window's left edge to the tick at or above its right edge; horizontal lines
      likewise between its top and bottom edges. */
  lemma GridTicksAreMultiples(scale: real, offset: Point, width: nat, height: nat, v: int)
    requires scale != 0.0
    ensures v in XTicks(scale, offset, width)
        <==> StartTick(-offset.x) <= v <= EndTick(-offset.x + width as real / scale) && v % Spacing == 0
    ensures v in YTicks(scale, offset, height)
        <==> StartTick(-offset.y) <= v <= EndTick(-offset.y + height as real / scale) && v % Spacing == 0
  {
    AxisTicksAreMultiples(-offset.x, -offset.x + width as real / scale, v);
    AxisTicksAreMultiples(-offset.y, -offset.y + height as real / scale, v);
  }

  /** One axis of the lemma above. */
  lemma AxisTicksAreMultiples(lo: real, hi: real, v: int)
    ensures v in Ticks(StartTick(lo), EndTick(hi)) <==> StartTick(lo) <= v <= EndTick(hi) && v % Spacing == 0
  {
    var a := (lo / Spacing as real).Floor;
    TicksExactly(a * Spacing, EndTick(hi), v);
    StepFromMultiple(a, v);
  }

  /** Measured from a multiple of 50, a whole number of steps reaches exactly the multiples of 50. */
  lemma StepFromMultiple(a: int, v: int)
    ensures (v - Spacing * a) % Spacing == 0 <==> v % Spacing == 0
  {
    var q, r := v / Spacing, v % Spacing;
    assert v - Spacing * a == Spacing * (q - a) + r && 0 <= r < Spacing;
  }

  lemma TickBounds(lo: real, hi: real)
    ensures StartTick(lo) as real <= lo < StartTick(lo) as real + Spacing as real
    ensures hi <= EndTick(hi) as real < hi + Spacing as real
    ensures StartTick(lo) % Spacing == 0 && EndTick(hi) % Spacing == 0
  {
  }

  // ----- screen placement -----

  function ScreenX(x: int, scale: real, offset: Point): real {
    (x as real + offset.x) * scale
  }

  /** Horizontal lines and y labels are placed upside down: world y grows upwards
      from the bottom edge. */
  function ScreenY(y: int, scale: real, offset: Point, height: nat): real {
    height as real - (y as real + offset.y) * scale
  }

  /** The lines span the surface: the first vertical line is at or left of the
      left edge and the last at or right of the right edge; the horizontal lines
      likewise reach the bottom and the top edge. */
  lemma GridCoversSurface(scale: real, offset: Point, width: nat, height: nat)
    requires scale > 0.0
    ensures var xs := XTicks(scale, offset, width);
      |xs| > 0 && ScreenX(xs[0], scale, offset) <= 0.0 && ScreenX(xs[|xs| - 1], scale, offset) >= width as real
    ensures var ys := YTicks(scale, offset, height);
      |ys| > 0 && ScreenY(ys[0], scale, offset, height) >= height as real && ScreenY(ys[|ys| - 1], scale, offset, height) <= 0.0
  {
    CoversWidth(scale, offset, width);
    CoversHeight(scale, offset, height);
  }

  lemma CoversWidth(scale: real, offset: Point, width: nat)
    requires scale > 0.0
    ensures var xs := XTicks(scale, offset, width);
      |xs| > 0 && ScreenX(xs[0], scale, offset) <= 0.0 && ScreenX(xs[|xs| - 1], scale, offset) >= width as real
  {
    var ext := width as real / scale;
    DivNonNeg(width as real, scale);
    var a, b := StartTick(-offset.x), EndTick(-offset.x + ext);
    WindowTicks(-offset.x, ext);
    ScreenXBounds(a, b, scale, offset, width as real);
  }

  lemma CoversHeight(scale: real, offset: Point, height: nat)
    requires scale > 0.0
    ensures var ys := YTicks(scale, offset, height);
      |ys| > 0 && ScreenY(ys[0], scale, offset, height) >= height as real && ScreenY(ys[|ys| - 1], scale, offset, height) <= 0.0
  {
    var ext := height as real / scale;
    DivNonNeg(height as real, scale);
    var a, b := StartTick(-offset.y), EndTick(-offset.y + ext);
    WindowTicks(-offset.y, ext);
    ScreenYBounds(a, b, scale, offset, height);
  }

  /** Lines at `a`, at or left of the window, and `b`, at or right of it, reach both edges. */
  lemma ScreenXBounds(a: int, b: int, scale: real, offset: Point, px: real)
    requires scale > 0.0 && a as real <= -offset.x && b as real >= -offset.x + px / scale
    ensures ScreenX(a, scale, offset) <= 0.0 && ScreenX(b, scale, offset) >= px
  {
    ScaledBounds(a as real + offset.x, b as real + offset.x, px, scale);
  }

  /** Lines at `a`, at or above the window's top, and `b`, at or below its bottom,
      reach the bottom and the top edge of the flipped axis. */
  lemma ScreenYBounds(a: int, b: int, scale: real, offset: Point, height: nat)
    requires scale > 0.0 && a as real <= -offset.y && b as real >= -offset.y + height as real / scale
    ensures ScreenY(a, scale, offset, height) >= height as real && ScreenY(b, scale, offset, height) <= 0.0
  {
    ScaledBounds(a as real + offset.y, b as real + offset.y, height as real, scale);
  }

  lemma DivNonNeg(a: real, s: real)
    requires a >= 0.0 && s > 0.0
    ensures a / s >= 0.0
  {
    assert (a / s) * s == a;
  }

  /** Over a window from `lo` of non-negative extent `ext`, the ticks run from the
      floor tick, at or below `lo`, to the ceiling tick, at or above `lo + ext`. */
  lemma WindowTicks(lo: real, ext: real)
    requires ext >= 0.0
    ensures var a, b := StartTick(lo), EndTick(lo + ext);
      && a as real <= lo && b as real >= lo + ext
      && var ts := Ticks(a, b); |ts| > 0 && ts[0] == a && ts[|ts| - 1] == b
  {
    var a, b := StartTick(lo), EndTick(lo + ext);
    TickBounds(lo, lo + ext);
    TicksEnds(a, b);
  }

  /** From one multiple of 50 to a later one, the ticks start and end exactly there. */
  lemma TicksEnds(a: int, b: int)
    requires a <= b && a % Spacing == 0 && b % Spacing == 0
    ensures var ts := Ticks(a, b); |ts| > 0 && ts[0] == a && ts[|ts| - 1] == b
  {
    assert (b - a) % Spacing == 0;
    assert a + Spacing * ((b - a) / Spacing) == b;
  }

  /** Scaling keeps a first line at or before 0 and a last one at or past `px / scale`. */
  lemma ScaledBounds(first: real, last: real, px: real, scale: real)
    requires scale > 0.0 && first <= 0.0 && last >= px / scale
    ensures first * scale <= 0.0 && last * scale >= px
  {
    MulNonPos(first, scale);
    MulAtLeast(last, px / scale, scale);
    assert (px / scale) * scale == px;
  }

  lemma MulNonPos(a: real, s: real)
    requires a <= 0.0 && s > 0.0
    ensures a * s <= 0.0
  {
  }

  lemma MulAtLeast(a: real, b: real, s: real)
    requires s > 0.0 && a >= b
    ensures a * s >= b * s
  {
  }

  // ----- the drawn elements -----

  function VLines(ts: seq<int>, scale: real, offset: Point, height: nat): seq<GridItem> {
    seq(|ts|, k requires 0 <= k < |ts| =>
      Line(ScreenX(ts[k], scale, offset), 0.0, ScreenX(ts[k], scale, offset), height as real))
  }

  function HLines(ts: seq<int>, scale: real, offset: Point, width: nat, height: nat): seq<GridItem> {
    seq(|ts|, k requires 0 <= k < |ts| =>
      Line(0.0, ScreenY(ts[k], scale, offset, height), width as real, ScreenY(ts[k], scale, offset, height)))
  }

  /** The two grey bands and the two axis lines, in drawing order. */
  function Axes(width: nat, height: nat): seq<GridItem> {
    [ Band(0.0, height as real - 20.0, width as real, 20.0),
      Band(0.0, 0.0, 40.0, height as real),
      Line(0.0, height as real - 0.5, width as real, height as real - 0.5),
      Line(40.0, 0.0, 40.0, height as real) ]
  }

  function XLabel(x: int, scale: real, offset: Point, height: nat): GridItem {
    Label(ScreenX(x, scale, offset) + 2.0, height as real - 5.0, x)
  }

  /** The x labels: one per tick, skipping negative ticks, in tick order. */
  function XLabels(ts: seq<int>, scale: real, offset: Point, height: nat): seq<GridItem> {
    if ts == [] then []
    else
      var last := ts[|ts| - 1];
      XLabels(ts[..|ts| - 1], scale, offset, height) + (if last < 0 then [] else [XLabel(last, scale, offset, height)])
  }

  /** The x labels are labels of non-negative ticks of the range, and every
      non-negative tick has its label. */
  lemma {:induction false} XLabelsExactly(ts: seq<int>, scale: real, offset: Point, height: nat)
    ensures var r := XLabels(ts, scale, offset, height);
      && |r| <= |ts|
      && (forall l :: l in r ==> l.Label? && l.value >= 0 && l.value in ts && l == XLabel(l.value, scale, offset, height))
      && (forall x :: x in ts && x >= 0 ==> XLabel(x, scale, offset, height) in r)
    decreases |ts|
  {
    if ts != [] {
      var init, last := ts[..|ts| - 1], ts[|ts| - 1];
      XLabelsExactly(init, scale, offset, height);
      assert forall x :: x in ts ==> x in init || x == last;
      assert forall x :: x in init ==> x in ts;
    }
  }

  function YLabel(y: int, scale: real, offset: Point, height: nat): GridItem {
    Label(2.0, ScreenY(y, scale, offset, height) - 2.0, y)
  }

  /** The y labels: one per tick, negative ones included. */
  function YLabels(ts: seq<int>, scale: real, offset: Point, height: nat): seq<GridItem> {
    seq(|ts|, k requires 0 <= k < |ts| => YLabel(ts[k], scale, offset, height))
  }

  /** Everything the grid layer holds after a redraw, in drawing order. */
  function Layout(scale: real, offset: Point, width: nat, height: nat): seq<GridItem>
    requires scale != 0.0
  {
    var xs, ys := XTicks(scale, offset, width), YTicks(scale, offset, height);
    VLines(xs, scale, offset, height) + HLines(ys, scale, offset, width, height) + Axes(width, height)
      + XLabels(xs, scale, offset, height) + YLabels(ys, scale, offset, height)
  }

  /** The two axes label differently: a negative tick gets a y label but no x label. */
  lemma LabelAsymmetry(ts: seq<int>, scale: real, offset: Point, height: nat, v: int)
    requires v in ts && v < 0
    ensures forall l :: l in XLabels(ts, scale, offset, height) ==> l.Label? && l.value != v
    ensures YLabel(v, scale, offset, height) in YLabels(ts, scale, offset, height)
  {
    XLabelsExactly(ts, scale, offset, height);
    var k :| 0 <= k < |ts| && ts[k] == v;
    assert YLabels(ts, scale, offset, height)[k] == YLabel(v, scale, offset, height);
  }

  // ----- the four drawing loops -----

  method VerticalLines(scale: real, offset: Point, width: nat, height: nat) returns (lines: seq<GridItem>)
    requires scale != 0.0
    ensures lines == VLines(XTicks(scale, offset, width), scale, offset, height)
  {
    var startX := StartTick(-offset.x);
    var endX := EndTick(-offset.x + width as real / scale);
    ghost var ts := Ticks(startX, endX);
    lines := [];
    var x := startX;
    while x <= endX
      invariant x == startX + Spacing * |lines| && |lines| <= |ts|
      invariant lines == VLines(ts[..|lines|], scale, offset, height)
      decreases endX - x
    {
      TickIndex(startX, endX, |lines|);
      var screenX := ScreenX(x, scale, offset);
      lines := lines + [Line(screenX, 0.0, screenX, height as real)];
      x := x + Spacing;
    }
    TickIndex(startX, endX, |lines|);
    assert ts[..|lines|] == ts;
  }

  method HorizontalLines(scale: real, offset: Point, width: nat, height: nat) returns (lines: seq<GridItem>)
    requires scale != 0.0
    ensures lines == HLines(YTicks(scale, offset, height), scale, offset, width, height)
  {
    var startY := StartTick(-offset.y);
    var endY := EndTick(-offset.y + height as real / scale);
    ghost var ts := Ticks(startY, endY);
    lines := [];
    var y := startY;
    while y <= endY
      invariant y == startY + Spacing * |lines| && |lines| <= |ts|
      invariant lines == HLines(ts[..|lines|], scale, offset, width, height)
      decreases endY - y
    {
      TickIndex(startY, endY, |lines|);
      var screenY := ScreenY(y, scale, offset, height);
      lines := lines + [Line(0.0, screenY, width as real, screenY)];
      y := y + Spacing;
    }
    TickIndex(startY, endY, |lines|);
    assert ts[..|lines|] == ts;
  }

  method XAxisLabels(scale: real, offset: Point, width: nat, height: nat) returns (labels: seq<GridItem>)
    requires scale != 0.0
    ensures labels == XLabels(XTicks(scale, offset, width), scale, offset, height)
  {
    var startX := StartTick(-offset.x);
    var endX := EndTick(-offset.x + width as real / scale);
    ghost var ts := Ticks(startX, endX);
    labels := [];
    var x := startX;
    ghost var i := 0;
    while x <= endX
      invariant x == startX + Spacing * i && 0 <= i <= |ts|
      invariant labels == XLabels(ts[..i], scale, offset, height)
      decreases endX - x
    {
      TickIndex(startX, endX, i);
      XLabelsSnoc(ts, i, scale, offset, height);
      assert ts[i] == x;
      if x >= 0 {
        labels := labels + [XLabel(x, scale, offset, height)];
      }
      x := x + Spacing;
      i := i + 1;
    }
    TickIndex(startX, endX, i);
    assert ts[..i] == ts;
  }

  method YAxisLabels(scale: real, offset: Point, width: nat, height: nat) returns (labels: seq<GridItem>)
    requires scale != 0.0
    ensures labels == YLabels(YTicks(scale, offset, height), scale, offset, height)
  {
    var startY := StartTick(-offset.y);
    var endY := EndTick(-offset.y + height as real / scale);
    ghost var ts := Ticks(startY, endY);
    labels := [];
    var y := startY;
    while y <= endY
      invariant y == startY + Spacing * |labels| && |labels| <= |ts|
      invariant labels == YLabels(ts[..|labels|], scale, offset, height)
      decreases endY - y
    {
      TickIndex(startY, endY, |labels|);
      labels := labels + [Label(2.0, ScreenY(y, scale, offset, height) - 2.0, y)];
      y := y + Spacing;
    }
    TickIndex(startY, endY, |labels|);
    assert ts[..|labels|] == ts;
  }

  /** One more tick adds its label, unless it is negative. */
  lemma XLabelsSnoc(ts: seq<int>, i: nat, scale: real, offset: Point, height: nat)
    requires i < |ts|
    ensures XLabels(ts[..i + 1], scale, offset, height)
         == XLabels(ts[..i], scale, offset, height) + (if ts[i] < 0 then [] else [XLabel(ts[i], scale, offset, height)])
  {
    assert ts[..i + 1][..i] == ts[..i];
  }

  /** The whole redraw: the four loops and the fixed elements, in drawing order. */
  method Draw(scale: real, offset: Point, width: nat, height: nat) returns (items: seq<GridItem>)
    requires scale != 0.0
    ensures items == Layout(scale, offset, width, height)
  {
    var vertical := VerticalLines(scale, offset, width, height);
    var horizontal := HorizontalLines(scale, offset, width, height);
    var xLabels := XAxisLabels(scale, offset, width, height);
    var yLabels := YAxisLabels(scale, offset, width, height);
    items := vertical + horizontal + Axes(width, height) + xLabels + yLabels;
  }
}
