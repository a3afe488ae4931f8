/**
 * The plot centre endpoint (backend/plots/views.py, `PlotViewSet.center`):
 * the vertex average of a plot's coordinates and the response built around it.
 */
module Views {
  import opened Wrappers
  import opened Types

  datatype Axis = Latitude | Longitude

  function Coordinate(p: Point, axis: Axis): real
  {
    if axis == Latitude then p.lat else p.lng
  }

  /** `sum(c[0] for c in coords)` or `sum(c[1] for c in coords)`. */
  function AxisSum(pts: seq<Point>, axis: Axis): real
  {
    if pts == [] then 0.0 else AxisSum(pts[..|pts| - 1], axis) + Coordinate(pts[|pts| - 1], axis)
  }

  function Mean(pts: seq<Point>, axis: Axis): real
    requires pts != []
  {
    AxisSum(pts, axis) / |pts| as real
  }

  datatype CenterResponse =
    | CenterFound(id: int, name: string, center: Point, coordinates: seq<Point>, surfaceArea: Option<real>)
    | CenterError(error: string)

  const HttpOk: int := 200
  const HttpBadRequest: int := 400

  function StatusCode(r: CenterResponse): int
  {
    if r.CenterError? then HttpBadRequest else HttpOk
  }

  /**
   * `center`: a plot without coordinates gets a 400 error and no centre;
   * otherwise the response echoes the plot and adds the vertex average.
   */
  function Center(plot: Plot): (r: CenterResponse)
    ensures r.CenterError? <==> plot.coordinates == []
    ensures r.CenterError? ==> StatusCode(r) == 400 && r.error == "Plot has no coordinates"
    ensures r.CenterFound? ==>
              && StatusCode(r) == 200
              && r.id == plot.id && r.name == plot.name
              && r.coordinates == plot.coordinates && r.surfaceArea == plot.surfaceArea
              && r.center == Point(Mean(plot.coordinates, Latitude), Mean(plot.coordinates, Longitude))
  {
    var coords := plot.coordinates;
    if coords == [] then
      CenterError("Plot has no coordinates")
    else
      var latSum := AxisSum(coords, Latitude);
      var lngSum := AxisSum(coords, Longitude);
      CenterFound(plot.id, plot.name, Point(latSum / |coords| as real, lngSum / |coords| as real),
                  coords, plot.surfaceArea)
  }

  // ---------------------------------------------------------------------
  // Properties of the vertex average

  /** One more term between the bounds keeps the sum between the bounds. */
  lemma BoundStep(m: real, n: real, lo: real, hi: real, a: real, c: real)
    requires n == m + 1.0
    requires m * lo <= a <= m * hi
    requires lo <= c <= hi
    ensures n * lo <= a + c <= n * hi
  {
    assert n * lo == m * lo + lo;
    assert n * hi == m * hi + hi;
  }

  lemma {:induction false} AxisSumBounds(pts: seq<Point>, axis: Axis, lo: real, hi: real)
    requires forall i :: 0 <= i < |pts| ==> lo <= Coordinate(pts[i], axis) <= hi
    ensures |pts| as real * lo <= AxisSum(pts, axis) <= |pts| as real * hi
  {
    if pts != [] {
      var init := pts[..|pts| - 1];
      assert forall i :: 0 <= i < |init| ==> init[i] == pts[i];
      AxisSumBounds(init, axis, lo, hi);
      var c := Coordinate(pts[|pts| - 1], axis);
      assert AxisSum(pts, axis) == AxisSum(init, axis) + c;
      BoundStep(|init| as real, |pts| as real, lo, hi, AxisSum(init, axis), c);
    }
  }

  /** Dividing by a positive count keeps a sum between n times the bounds between the bounds. */
  lemma DivideBounds(n: real, lo: real, hi: real, s: real)
    requires n > 0.0
    requires n * lo <= s <= n * hi
    ensures lo <= s / n <= hi
  {
    assert s / n * n == s;
  }

  /** The centre lies inside every box that holds all the vertices, so between their minimum and maximum. */
  lemma MeanWithinBounds(pts: seq<Point>, axis: Axis, lo: real, hi: real)
    requires pts != []
    requires forall i :: 0 <= i < |pts| ==> lo <= Coordinate(pts[i], axis) <= hi
    ensures lo <= Mean(pts, axis) <= hi
  {
    AxisSumBounds(pts, axis, lo, hi);
    DivideBounds(|pts| as real, lo, hi, AxisSum(pts, axis));
  }

  /** A one-point plot is centred on its point. */
  lemma SinglePointCenter(p: Point)
    ensures Mean([p], Latitude) == p.lat && Mean([p], Longitude) == p.lng
  {
    assert [p][..0] == [];
    assert AxisSum([p], Latitude) == p.lat;
    assert AxisSum([p], Longitude) == p.lng;
  }

  lemma {:induction false} AxisSumAppend(a: seq<Point>, b: seq<Point>, axis: Axis)
    ensures AxisSum(a + b, axis) == AxisSum(a, axis) + AxisSum(b, axis)
  {
    if b != [] {
      var b' := b[..|b| - 1];
      assert (a + b)[..|a + b| - 1] == a + b';
      AxisSumAppend(a, b', axis);
    } else {
      assert a + b == a;
    }
  }

  /** Taking out the element at k takes its coordinate out of the sum. */
  lemma AxisSumRemove(t: seq<Point>, k: nat, axis: Axis)
    requires k < |t|
    ensures AxisSum(t, axis) == AxisSum(t[..k] + t[k + 1..], axis) + Coordinate(t[k], axis)
  {
    assert t == t[..k] + ([t[k]] + t[k + 1..]);
    AxisSumAppend(t[..k], [t[k]] + t[k + 1..], axis);
    AxisSumAppend([t[k]], t[k + 1..], axis);
    AxisSumAppend(t[..k], t[k + 1..], axis);
    assert [t[k]][..0] == [];
  }

  lemma MultisetRemove(t: seq<Point>, k: nat)
    requires k < |t|
    ensures multiset(t[..k] + t[k + 1..]) == multiset(t) - multiset{t[k]}
  {
    assert t == t[..k] + [t[k]] + t[k + 1..];
  }

  lemma {:induction false} AxisSumPermutation(s: seq<Point>, t: seq<Point>, axis: Axis)
    requires multiset(s) == multiset(t)
    ensures AxisSum(s, axis) == AxisSum(t, axis)
    decreases |s|
  {
    if s != [] {
      var x := s[|s| - 1];
      var s' := s[..|s| - 1];
      assert s == s' + [x];
      assert multiset(s') == multiset(s) - multiset{x};
      assert x in multiset(t);
      var k :| 0 <= k < |t| && t[k] == x;
      var t' := t[..k] + t[k + 1..];
      MultisetRemove(t, k);
      assert multiset(s') == multiset(t');
      AxisSumPermutation(s', t', axis);
      AxisSumRemove(t, k, axis);
      assert AxisSum(s, axis) == AxisSum(s', axis) + Coordinate(x, axis);
    }
  }

  /** Reordering the coordinates does not move the centre. */
  lemma CenterPermutationInvariant(s: seq<Point>, t: seq<Point>)
    requires s != [] && multiset(s) == multiset(t)
    ensures t != []
    ensures Mean(s, Latitude) == Mean(t, Latitude) && Mean(s, Longitude) == Mean(t, Longitude)
  {
    assert |s| == |multiset(s)| == |multiset(t)| == |t|;
    AxisSumPermutation(s, t, Latitude);
    AxisSumPermutation(s, t, Longitude);
  }
}
