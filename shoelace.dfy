/**
 * The planar shoelace estimate that both the create-plot form
 * (frontend/src/components/CreatePlotModal.tsx) and the stored plot
 * (backend/plots/models.py) compute, and the facts about it that do not
 * depend on which of the two loops computes it.
 */
module Shoelace {
  import opened Types

  /**
   * The fixed factor both sides multiply the square-degree area by. Both
   * sides call the result hectares, but 12390 is the square kilometres in one
   * square degree at the equator (about 1 239 000 hectares), so the value is
   * on a square-kilometre scale.
   */
  const AreaScale: real := 12390.0

  function Abs(x: real): (r: real)
    ensures r >= 0.0 && (r == x || r == -x)
  {
    if x < 0.0 then -x else x
  }

  /** The term both loops add for the edge p -> q: lng(p) * lat(q) - lng(q) * lat(p). */
  function Cross(p: Point, q: Point): real
  {
    p.lng * q.lat - q.lng * p.lat
  }

  lemma CrossAntisymmetric(p: Point, q: Point)
    ensures Cross(q, p) == -Cross(p, q)
  {
  }

  /**
   * The accumulator after the first k passes of either loop: the sum of
   * Cross(pts[i], pts[(i + 1) % n]) for i < k.
   */
  function IndexSum(pts: seq<Point>, k: nat): real
    requires k <= |pts|
  {
    if k == 0 then 0.0 else IndexSum(pts, k - 1) + Cross(pts[k - 1], pts[k % |pts|])
  }

  /** Twice the signed area of the ring, as the loops compute it. */
  function SignedDoubleArea(pts: seq<Point>): real
  {
    IndexSum(pts, |pts|)
  }

  /**
   * The estimate in hectares: 0 for fewer than three points, otherwise
   * |signed double area| * 0.5 * 12390.
   */
  function PlanarArea(pts: seq<Point>): real
  {
    if |pts| < 3 then 0.0 else Abs(SignedDoubleArea(pts)) * 0.5 * AreaScale
  }

  lemma PlanarAreaBounds(pts: seq<Point>)
    ensures PlanarArea(pts) >= 0.0
    ensures |pts| < 3 ==> PlanarArea(pts) == 0.0
    ensures |pts| >= 3 ==> PlanarArea(pts) == Abs(SignedDoubleArea(pts)) * 6195.0
  {
  }

  // ---------------------------------------------------------------------
  // The ring as an open path plus its closing edge: an index-free form in
  // which rotation and reversal are easy to state.

  /** Sum of Cross over consecutive pairs, without the closing edge. */
  function PathSum(s: seq<Point>): real
  {
    if |s| < 2 then 0.0 else PathSum(s[..|s| - 1]) + Cross(s[|s| - 2], s[|s| - 1])
  }

  function RingSum(s: seq<Point>): real
  {
    if s == [] then 0.0 else PathSum(s) + Cross(s[|s| - 1], s[0])
  }

  lemma {:induction false} PathSumFront(s: seq<Point>)
    requires |s| >= 2
    ensures PathSum(s) == Cross(s[0], s[1]) + PathSum(s[1..])
  {
    if |s| > 2 {
      var n := |s|;
      PathSumFront(s[..n - 1]);
      assert s[..n - 1][1..] == s[1..][..n - 2];
      assert s[..n - 1][..n - 2] == s[..n - 2];
    } else {
      assert s[..1] == [s[0]];
      assert s[1..] == [s[1]];
    }
  }

  lemma ModBelow(k: nat, n: nat)
    requires k < n
    ensures k % n == k
  {
  }

  /** The first k wrap-around terms are the path sum of the first k + 1 points. */
  lemma {:induction false} IndexSumIsPathSum(pts: seq<Point>, k: nat)
    requires k < |pts|
    ensures IndexSum(pts, k) == PathSum(pts[..k + 1])
  {
    if k == 0 {
      assert pts[..1] == [pts[0]];
    } else {
      IndexSumIsPathSum(pts, k - 1);
      var a := pts[..k + 1];
      assert a[..k] == pts[..k];
      assert a[k - 1] == pts[k - 1] && a[k] == pts[k];
      ModBelow(k, |pts|);
    }
  }

  /** The loops' wrap-around index arithmetic computes the ring sum. */
  lemma SignedDoubleAreaIsRingSum(pts: seq<Point>)
    ensures SignedDoubleArea(pts) == RingSum(pts)
  {
    var n := |pts|;
    if n > 0 {
      IndexSumIsPathSum(pts, n - 1);
      assert pts[..n] == pts;
      assert n % n == 0;
    }
  }

  // ---------------------------------------------------------------------
  // Rotation

  /** Move the first point to the end: the same ring, started one vertex later. */
  function RotateOnce(s: seq<Point>): (r: seq<Point>)
    ensures |r| == |s|
  {
    if s == [] then [] else s[1..] + [s[0]]
  }

  lemma RingSumRotateOnce(s: seq<Point>)
    ensures RingSum(RotateOnce(s)) == RingSum(s)
  {
    var n := |s|;
    if n >= 2 {
      var t := RotateOnce(s);
      assert t[..n - 1] == s[1..];
      assert t[n - 2] == s[n - 1] && t[n - 1] == s[0] && t[0] == s[1];
      PathSumFront(s);
    } else if n == 1 {
      assert RotateOnce(s) == s;
    }
  }

  /** Starting the ring at any vertex gives the same area. */
  lemma {:induction false} PlanarAreaRotation(s: seq<Point>, k: nat)
    requires k <= |s|
    ensures PlanarArea(s[k..] + s[..k]) == PlanarArea(s)
  {
    if k == 0 {
      assert s[0..] + s[..0] == s;
    } else {
      PlanarAreaRotation(s, k - 1);
      var t := s[k - 1..] + s[..k - 1];
      assert RotateOnce(t) == s[k..] + s[..k];
      RingSumRotateOnce(t);
      SignedDoubleAreaIsRingSum(t);
      SignedDoubleAreaIsRingSum(RotateOnce(t));
    }
  }

  // ---------------------------------------------------------------------
  // Reversal

  function Reverse(s: seq<Point>): (r: seq<Point>)
    ensures |r| == |s|
    ensures forall i :: 0 <= i < |s| ==> r[i] == s[|s| - 1 - i]
  {
    if s == [] then [] else Reverse(s[1..]) + [s[0]]
  }

  lemma {:induction false} PathSumReverse(s: seq<Point>)
    ensures PathSum(Reverse(s)) == -PathSum(s)
  {
    var n := |s|;
    if n >= 2 {
      PathSumReverse(s[1..]);
      var r := Reverse(s);
      assert r[..n - 1] == Reverse(s[1..]);
      assert r[n - 2] == s[1] && r[n - 1] == s[0];
      assert PathSum(r) == PathSum(Reverse(s[1..])) + Cross(s[1], s[0]);
      CrossAntisymmetric(s[0], s[1]);
      PathSumFront(s);
    }
  }

  lemma RingSumReverse(s: seq<Point>)
    ensures RingSum(Reverse(s)) == -RingSum(s)
  {
    var n := |s|;
    if n != 0 {
      var r := Reverse(s);
      assert r[n - 1] == s[0] && r[0] == s[n - 1];
      assert RingSum(r) == PathSum(r) + Cross(s[0], s[n - 1]);
      PathSumReverse(s);
      CrossAntisymmetric(s[n - 1], s[0]);
    }
  }

  /** Walking the ring the other way round gives the same area. */
  lemma PlanarAreaReverse(s: seq<Point>)
    ensures PlanarArea(Reverse(s)) == PlanarArea(s)
  {
    RingSumReverse(s);
    SignedDoubleAreaIsRingSum(s);
    SignedDoubleAreaIsRingSum(Reverse(s));
  }

  /** For a triangle the loop adds exactly the three edge terms, closing edge included. */
  lemma TriangleSignedDoubleArea(a: Point, b: Point, c: Point)
    ensures SignedDoubleArea([a, b, c]) == Cross(a, b) + Cross(b, c) + Cross(c, a)
  {
    var t := [a, b, c];
    assert IndexSum(t, 1) == Cross(a, b);
    assert IndexSum(t, 2) == Cross(a, b) + Cross(b, c);
  }

  /** The right triangle (0,0), (0,2), (2,0): signed double area 4, so 4 * 0.5 * 12390. */
  lemma RightTriangleArea()
    ensures PlanarArea([Point(0.0, 0.0), Point(0.0, 2.0), Point(2.0, 0.0)]) == 24780.0
  {
    TriangleSignedDoubleArea(Point(0.0, 0.0), Point(0.0, 2.0), Point(2.0, 0.0));
  }
}
