/** Points in world or screen space, and the expression-only geometry of the
    editor: the bounding-box centre used when a polygon is dropped, the
    centroid used while a polygon is dragged, and the nearest vertex used to
    fix the grab offset. Coordinates are exact reals. */
module Geometry {
  import opened Wrappers

  datatype Point = Point(x: real, y: real)

  function Add(p: Point, d: Point): Point {
    Point(p.x + d.x, p.y + d.y)
  }

  function Sub(p: Point, q: Point): Point {
    Point(p.x - q.x, p.y - q.y)
  }

  /** Every point shifted by the same vector `d`. */
  function Translate(pts: seq<Point>, d: Point): seq<Point> {
    seq(|pts|, i requires 0 <= i < |pts| => Add(pts[i], d))
  }

  /** The x (resp. y) coordinates, in order: `points.map(p => p.x)`. */
  function Xs(pts: seq<Point>): seq<real> {
    seq(|pts|, i requires 0 <= i < |pts| => pts[i].x)
  }

  function Ys(pts: seq<Point>): seq<real> {
    seq(|pts|, i requires 0 <= i < |pts| => pts[i].y)
  }

  function Shift(xs: seq<real>, c: real): seq<real> {
    seq(|xs|, i requires 0 <= i < |xs| => xs[i] + c)
  }

  // ----- Math.min / Math.max over a non-empty list -----

  function Min(xs: seq<real>): (m: real)
    requires |xs| > 0
    ensures m in xs
    ensures forall i :: 0 <= i < |xs| ==> m <= xs[i]
  {
    if |xs| == 1 then xs[0]
    else
      var rest := Min(xs[1..]);
      assert forall i :: 1 <= i < |xs| ==> xs[i] == xs[1..][i - 1];
      if xs[0] <= rest then xs[0] else rest
  }

  function Max(xs: seq<real>): (m: real)
    requires |xs| > 0
    ensures m in xs
    ensures forall i :: 0 <= i < |xs| ==> xs[i] <= m
  {
    if |xs| == 1 then xs[0]
    else
      var rest := Max(xs[1..]);
      assert forall i :: 1 <= i < |xs| ==> xs[i] == xs[1..][i - 1];
      if xs[0] >= rest then xs[0] else rest
  }

  lemma {:induction false} MinShift(xs: seq<real>, c: real)
    requires |xs| > 0
    ensures Min(Shift(xs, c)) == Min(xs) + c
  {
    var ys := Shift(xs, c);
    var m, n := Min(xs), Min(ys);
    var i :| 0 <= i < |xs| && xs[i] == m;
    var j :| 0 <= j < |ys| && ys[j] == n;
    assert n <= ys[i] == m + c;
    assert m <= xs[j] == n - c;
  }

  lemma {:induction false} MaxShift(xs: seq<real>, c: real)
    requires |xs| > 0
    ensures Max(Shift(xs, c)) == Max(xs) + c
  {
    var ys := Shift(xs, c);
    var m, n := Max(xs), Max(ys);
    var i :| 0 <= i < |xs| && xs[i] == m;
    var j :| 0 <= j < |ys| && ys[j] == n;
    assert n >= ys[i] == m + c;
    assert m >= xs[j] == n - c;
  }

  // ----- bounding box (drop placement) -----

  /** The centre of the axis-aligned bounding box: ((minX + maxX) / 2, (minY + maxY) / 2). */
  function BoxCenter(pts: seq<Point>): Point
    requires |pts| > 0
  {
    Point((Min(Xs(pts)) + Max(Xs(pts))) / 2.0, (Min(Ys(pts)) + Max(Ys(pts))) / 2.0)
  }

  lemma {:induction false} CoordsOfTranslate(pts: seq<Point>, d: Point)
    ensures Xs(Translate(pts, d)) == Shift(Xs(pts), d.x)
    ensures Ys(Translate(pts, d)) == Shift(Ys(pts), d.y)
  {
  }

  /** Translating a polygon translates its bounding-box centre by the same vector. */
  lemma {:induction false} BoxCenterTranslate(pts: seq<Point>, d: Point)
    requires |pts| > 0
    ensures BoxCenter(Translate(pts, d)) == Add(BoxCenter(pts), d)
  {
    CoordsOfTranslate(pts, d);
    MinShift(Xs(pts), d.x);
    MaxShift(Xs(pts), d.x);
    MinShift(Ys(pts), d.y);
    MaxShift(Ys(pts), d.y);
  }

  /** The polygon re-centred so that its bounding-box centre lands on `target`:
      every point shifted by `target - centre`. */
  function Placed(pts: seq<Point>, target: Point): (r: seq<Point>)
    requires |pts| > 0
    ensures |r| == |pts|
    ensures BoxCenter(r) == target
    ensures forall i :: 0 <= i < |r| ==> Sub(r[i], pts[i]) == Sub(target, BoxCenter(pts))
  {
    var r := Translate(pts, Sub(target, BoxCenter(pts)));
    BoxCenterTranslate(pts, Sub(target, BoxCenter(pts)));
    r
  }

  // ----- centroid (drag move) -----

  /** The left fold `acc + x / n` over `xs`, started at 0: the `reduce` of the drag handler. */
  function SumOver(xs: seq<real>, n: real): real
    requires n != 0.0
  {
    if xs == [] then 0.0 else SumOver(xs[..|xs| - 1], n) + xs[|xs| - 1] / n
  }

  /** The plain sum, an independent reference for the fold above. */
  function Sum(xs: seq<real>): real {
    if xs == [] then 0.0 else Sum(xs[..|xs| - 1]) + xs[|xs| - 1]
  }

  lemma {:induction false} SumOverIsSumDivided(xs: seq<real>, n: real)
    requires n != 0.0
    ensures SumOver(xs, n) == Sum(xs) / n
  {
    if xs != [] {
      SumOverIsSumDivided(xs[..|xs| - 1], n);
    }
  }

  lemma {:induction false} SumShift(xs: seq<real>, c: real)
    ensures Sum(Shift(xs, c)) == Sum(xs) + (|xs| as real) * c
  {
    if xs != [] {
      var k := |xs| - 1;
      assert Shift(xs, c)[..k] == Shift(xs[..k], c);
      SumShift(xs[..k], c);
    }
  }

  /** The centroid as the drag handler computes it: each coordinate summed after
      division by the number of points. */
  function Centroid(pts: seq<Point>): Point
    requires |pts| > 0
  {
    Point(SumOver(Xs(pts), |pts| as real), SumOver(Ys(pts), |pts| as real))
  }

  /** The per-term fold is the arithmetic mean of the points. */
  lemma {:induction false} CentroidIsMean(pts: seq<Point>)
    requires |pts| > 0
    ensures Centroid(pts) == Point(Sum(Xs(pts)) / (|pts| as real), Sum(Ys(pts)) / (|pts| as real))
  {
    SumOverIsSumDivided(Xs(pts), |pts| as real);
    SumOverIsSumDivided(Ys(pts), |pts| as real);
  }

  /** The mean of a shifted list is the shifted mean. */
  lemma {:induction false} MeanShift(xs: seq<real>, c: real)
    requires |xs| > 0
    ensures Sum(Shift(xs, c)) / (|xs| as real) == Sum(xs) / (|xs| as real) + c
  {
    SumShift(xs, c);
    DivSplit(Sum(Shift(xs, c)), Sum(xs), c, |xs| as real);
  }

  lemma DivSplit(u: real, a: real, c: real, n: real)
    requires n > 0.0 && u == a + n * c
    ensures u / n == a / n + c
  {
    assert (a / n + c) * n == u;
  }

  /** Translating a polygon translates its centroid by the same vector. */
  lemma {:induction false} CentroidTranslate(pts: seq<Point>, d: Point)
    requires |pts| > 0
    ensures Centroid(Translate(pts, d)) == Add(Centroid(pts), d)
  {
    var q := Translate(pts, d);
    CoordsOfTranslate(pts, d);
    CentroidIsMean(pts);
    CentroidIsMean(q);
    MeanShift(Xs(pts), d.x);
    MeanShift(Ys(pts), d.y);
  }

  /** The polygon moved rigidly so that its centroid lands on `target`. */
  function Moved(pts: seq<Point>, target: Point): (r: seq<Point>)
    requires |pts| > 0
    ensures |r| == |pts|
    ensures Centroid(r) == target
    ensures forall i :: 0 <= i < |r| ==> Sub(r[i], pts[i]) == Sub(target, Centroid(pts))
  {
    var r := Translate(pts, Sub(target, Centroid(pts)));
    CentroidTranslate(pts, Sub(target, Centroid(pts)));
    r
  }

  /** Two successive drag moves: the second translates the polygon by exactly the
      difference of the two targets, whatever the polygon. */
  lemma {:induction false} SuccessiveMoves(pts: seq<Point>, t1: Point, t2: Point)
    requires |pts| > 0
    ensures Moved(Moved(pts, t1), t2) == Translate(Moved(pts, t1), Sub(t2, t1))
  {
  }

  /** A drop centres the bounding box, not the centroid: the triangle
      (0,0) (10,0) (5,10) dropped at (100, 100) has its box centre there but its
      centroid at (100, 295/3). */
  lemma DropCentresBoxNotCentroid()
    ensures var q := Placed([Point(0.0, 0.0), Point(10.0, 0.0), Point(5.0, 10.0)], Point(100.0, 100.0));
      BoxCenter(q) == Point(100.0, 100.0) && Centroid(q) == Point(100.0, 295.0 / 3.0)
  {
    var pts := [Point(0.0, 0.0), Point(10.0, 0.0), Point(5.0, 10.0)];
    TriangleCentres(pts);
    CentroidTranslate(pts, Point(95.0, 95.0));
  }

  lemma TriangleCentres(pts: seq<Point>)
    requires pts == [Point(0.0, 0.0), Point(10.0, 0.0), Point(5.0, 10.0)]
    ensures BoxCenter(pts) == Point(5.0, 5.0) && Centroid(pts) == Point(5.0, 10.0 / 3.0)
  {
    TriangleBox(pts);
    TriangleCentroid(pts);
  }

  lemma TriangleBox(pts: seq<Point>)
    requires pts == [Point(0.0, 0.0), Point(10.0, 0.0), Point(5.0, 10.0)]
    ensures BoxCenter(pts) == Point(5.0, 5.0)
  {
    var xs, ys := Xs(pts), Ys(pts);
    assert |xs| == 3 && xs[0] == 0.0 && xs[1] == 10.0 && xs[2] == 5.0;
    assert |ys| == 3 && ys[0] == 0.0 && ys[1] == 0.0 && ys[2] == 10.0;
    MinMaxAre(xs, xs[0], xs[1]);
    MinMaxAre(ys, ys[0], ys[2]);
  }

  /** Values of the list that bound all of it are its minimum and maximum. */
  lemma MinMaxAre(xs: seq<real>, lo: real, hi: real)
    requires lo in xs && hi in xs
    requires forall i :: 0 <= i < |xs| ==> lo <= xs[i] <= hi
    ensures Min(xs) == lo && Max(xs) == hi
  {
  }

  lemma TriangleCentroid(pts: seq<Point>)
    requires pts == [Point(0.0, 0.0), Point(10.0, 0.0), Point(5.0, 10.0)]
    ensures Centroid(pts) == Point(5.0, 10.0 / 3.0)
  {
    assert Xs(pts) == [0.0, 10.0, 5.0];
    assert Ys(pts) == [0.0, 0.0, 10.0];
    SumOfThree(0.0, 10.0, 5.0);
    SumOfThree(0.0, 0.0, 10.0);
    CentroidIsMean(pts);
    assert |pts| as real == 3.0;
  }

  lemma SumOfThree(a: real, b: real, c: real)
    ensures Sum([a, b, c]) == a + b + c
  {
    assert [a][..0] == [];
    assert Sum([a]) == a;
    assert [a, b][..1] == [a];
    assert Sum([a, b]) == a + b;
    assert [a, b, c][..2] == [a, b];
  }

  // ----- nearest vertex (drag start) -----

  /** Squared Euclidean distance; it has the same minimisers as the distance itself. */
  function SqDist(p: Point, q: Point): real {
    (p.x - q.x) * (p.x - q.x) + (p.y - q.y) * (p.y - q.y)
  }

  /** `k` is the first index of a vertex at minimal distance from `m`. */
  predicate IsFirstNearest(pts: seq<Point>, m: Point, k: nat) {
    && k < |pts|
    && (forall j :: 0 <= j < |pts| ==> SqDist(pts[k], m) <= SqDist(pts[j], m))
    && (forall j :: 0 <= j < k ==> SqDist(pts[k], m) < SqDist(pts[j], m))
  }

  /** The scan of the drag-start handler: the running minimum starts at
      "infinity" (None) and is replaced only by a strictly smaller distance,
      so the earliest of several equally near vertices wins. */
  method NearestVertex(pts: seq<Point>, m: Point) returns (r: Option<nat>)
    ensures r.None? <==> |pts| == 0
    ensures r.Some? ==> IsFirstNearest(pts, m, r.value)
  {
    r := None;
    var minDist: Option<real> := None;
    var i := 0;
    while i < |pts|
      invariant 0 <= i <= |pts|
      invariant r.None? <==> i == 0
      invariant minDist.None? <==> r.None?
      invariant r.Some? ==> r.value < i && minDist.value == SqDist(pts[r.value], m)
      invariant r.Some? ==> forall j :: 0 <= j < i ==> minDist.value <= SqDist(pts[j], m)
      invariant r.Some? ==> forall j :: 0 <= j < r.value ==> minDist.value < SqDist(pts[j], m)
    {
      var dist := SqDist(pts[i], m);
      if minDist.None? || dist < minDist.value {
        minDist := Some(dist);
        r := Some(i);
      }
      i := i + 1;
    }
  }
}
