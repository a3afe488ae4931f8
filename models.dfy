/**
 * The stored plot (backend/plots/models.py): its fields, the server's
 * shoelace surface area rounded to four decimals, and the rule that saving
 * recomputes the area only when there are at least three coordinates.
 */
module Models {
  import opened Wrappers
  import opened Types
  import opened Shoelace

  /**
   * The integer nearest to x, ties going to the even neighbour, as Python's
   * `round` does.
   */
  function RoundHalfEven(x: real): (k: int)
    ensures -0.5 <= x - k as real <= 0.5
    ensures (x - k as real == 0.5 || k as real - x == 0.5) ==> k % 2 == 0
    ensures x >= 0.0 ==> k >= 0
  {
    var f := x.Floor;
    var frac := x - f as real;
    if frac < 0.5 then f
    else if frac > 0.5 then f + 1
    else if f % 2 == 0 then f
    else f + 1
  }

  /** `round(x, 4)`, on exact decimals: the nearest multiple of 1/10000, ties to even. */
  function RoundTo4(x: real): (r: real)
    ensures -0.00005 <= r - x <= 0.00005
    ensures x >= 0.0 ==> r >= 0.0
    ensures (r * 10000.0).Floor as real == r * 10000.0
    ensures (r - x == 0.00005 || x - r == 0.00005) ==> (r * 10000.0).Floor % 2 == 0
  {
    var k := RoundHalfEven(x * 10000.0);
    var r := k as real / 10000.0;
    assert r * 10000.0 == k as real;
    assert r - x == (k as real - x * 10000.0) / 10000.0;
    r
  }

  /** A tie at the fourth decimal keeps the even neighbour; the next value up rounds away. */
  lemma RoundTo4Ties()
    ensures RoundTo4(0.03125) == 0.0312
    ensures RoundTo4(0.03135) == 0.0314
  {
  }

  /** What `calculate_surface_area` returns for a coordinate list. */
  function SurfaceArea(coordinates: seq<Point>): real
  {
    if |coordinates| < 3 then 0.0 else RoundTo4(PlanarArea(coordinates))
  }

  /**
   * The server's stored area is the client's estimate rounded to four
   * decimals: the two never differ by more than half a ten-thousandth of a
   * hectare, and neither is negative.
   */
  lemma ServerAgreesWithClient(coordinates: seq<Point>)
    ensures SurfaceArea(coordinates) == RoundTo4(PlanarArea(coordinates))
    ensures -0.00005 <= SurfaceArea(coordinates) - PlanarArea(coordinates) <= 0.00005
    ensures SurfaceArea(coordinates) >= 0.0
  {
    PlanarAreaBounds(coordinates);
    if |coordinates| < 3 {
      assert RoundHalfEven(0.0) == 0;
    }
  }

  /** The stored area does not depend on which vertex the ring starts at. */
  lemma SurfaceAreaRotation(s: seq<Point>, k: nat)
    requires k <= |s|
    ensures SurfaceArea(s[k..] + s[..k]) == SurfaceArea(s)
  {
    PlanarAreaRotation(s, k);
  }

  /** The stored area does not depend on the direction the ring was drawn in. */
  lemma SurfaceAreaReverse(s: seq<Point>)
    ensures SurfaceArea(Reverse(s)) == SurfaceArea(s)
  {
    PlanarAreaReverse(s);
  }

  /** The worked example: the right triangle (0,0), (0,2), (2,0) is stored as 24780 hectares. */
  lemma RightTriangleSurfaceArea()
    ensures SurfaceArea([Point(0.0, 0.0), Point(0.0, 2.0), Point(2.0, 0.0)]) == 24780.0
  {
    RightTriangleArea();
    assert RoundHalfEven(247800000.0) == 247800000;
  }

  class Plot {
    var name: string
    var farmName: Option<string>
    var cropType: Option<string>
    var hasManager: bool
    var coordinates: seq<Point>
    var surfaceArea: Option<real>

    /** A new, unsaved plot with the model's defaults (no farm, no crop, no manager, no area). */
    constructor (name: string, coordinates: seq<Point>)
      ensures this.name == name && this.coordinates == coordinates
      ensures farmName == None && cropType == None && !hasManager && surfaceArea == None
    {
      this.name := name;
      this.coordinates := coordinates;
      farmName := None;
      cropType := None;
      hasManager := false;
      surfaceArea := None;
    }

    /** `calculate_surface_area`: the wrap-around shoelace loop, then |area| * 0.5 * 12390 rounded to 4 places. */
    method CalculateSurfaceArea() returns (hectares: real)
      ensures hectares == SurfaceArea(coordinates)
      ensures hectares >= 0.0
      ensures |coordinates| >= 3 ==> -0.00005 <= hectares - PlanarArea(coordinates) <= 0.00005
    {
      ServerAgreesWithClient(coordinates);
      if |coordinates| < 3 {
        return 0.0;
      }
      var coords := coordinates;
      var n := |coords|;
      var area := 0.0;
      for i := 0 to n
        invariant area == IndexSum(coords, i)
      {
        var j := (i + 1) % n;
        area := area + coords[i].lng * coords[j].lat;
        area := area - coords[j].lng * coords[i].lat;
      }
      area := Abs(area) * 0.5;
      var unrounded := area * AreaScale;
      hectares := RoundTo4(unrounded);
    }

    /**
     * `save`: with at least three coordinates the stored area is overwritten
     * by the computed one; otherwise the previous value stays.
     */
    method Save()
      modifies this`surfaceArea
      ensures |coordinates| >= 3 ==> surfaceArea == Some(SurfaceArea(coordinates))
      ensures |coordinates| < 3 ==> surfaceArea == old(surfaceArea)
    {
      if |coordinates| >= 3 {
        var area := CalculateSurfaceArea();
        surfaceArea := Some(area);
      }
    }
  }
}
