/**
 * The plot serializer (backend/plots/serializers.py): which fields a request
 * may write, and the validation of the coordinate list.
 */
module Serializers {
  import opened Wrappers

  /** The Python values a decoded request body can hold (tuples included, since `isinstance(coord, (list, tuple))` accepts them). */
  datatype PyValue =
    | PyNone
    | PyBool(b: bool)
    | PyInt(i: int)
    | PyFloat(f: real)
    | PyStr(s: string)
    | PyList(items: seq<PyValue>)
    | PyTuple(items: seq<PyValue>)
    | PyDict(entries: seq<(string, PyValue)>)

  // ---------------------------------------------------------------------
  // The field set

  const DeclaredFields: seq<string> := ["id", "name", "coordinates", "surface_area", "created_at", "updated_at"]
  const ReadOnlyFields: set<string> := {"surface_area", "created_at", "updated_at"}
  /** A model serializer always makes the model's auto-increment primary key read-only. */
  const AutoReadOnlyFields: set<string> := {"id"}

  /** The fields a create or update request can set. */
  function WritableFields(): (w: set<string>)
    ensures w == {"name", "coordinates"}
    ensures forall f :: f in w ==> f in DeclaredFields
    ensures "farm_name" !in w && "crop_type" !in w && "has_manager" !in w
  {
    set f | f in DeclaredFields && f !in ReadOnlyFields && f !in AutoReadOnlyFields
  }

  /** The part of a request body the serializer reads; every other key is ignored. */
  function WritableInput(body: map<string, PyValue>): (m: map<string, PyValue>)
    ensures m.Keys == body.Keys * {"name", "coordinates"}
    ensures forall k :: k in m ==> m[k] == body[k]
  {
    map k | k in body && k in WritableFields() :: body[k]
  }

  /**
   * Adding or changing any key other than `name` and `coordinates` (an `id`,
   * a `surface_area`, a `farm_name`, an unknown key) leaves what the
   * serializer reads unchanged.
   */
  lemma WritableInputIgnoresOtherKeys(body: map<string, PyValue>, k: string, v: PyValue)
    requires k != "name" && k != "coordinates"
    ensures WritableInput(body[k := v]) == WritableInput(body)
  {
  }

  // ---------------------------------------------------------------------
  // validate_coordinates

  datatype CoordinateError =
    | NotAList
    | TooFewPoints
    | NotAPair(index: nat)
    | NotNumeric(index: nat)
    | LatitudeOutOfRange(index: nat)
    | LongitudeOutOfRange(index: nat)

  datatype Validation = Accepted(value: PyValue) | Rejected(error: CoordinateError)

  /** `isinstance(v, (int, float))`; `bool` is a subclass of `int` in Python. */
  predicate IsNumber(v: PyValue)
  {
    v.PyBool? || v.PyInt? || v.PyFloat?
  }

  function NumericValue(v: PyValue): real
    requires IsNumber(v)
  {
    match v
    case PyBool(b) => if b then 1.0 else 0.0
    case PyInt(i) => i as real
    case PyFloat(f) => f
  }

  /** `isinstance(coord, (list, tuple)) and len(coord) == 2`. */
  predicate IsPair(coord: PyValue)
  {
    (coord.PyList? || coord.PyTuple?) && |coord.items| == 2
  }

  predicate LatitudeInRange(lat: real) { -90.0 <= lat <= 90.0 }
  predicate LongitudeInRange(lng: real) { -180.0 <= lng <= 180.0 }

  /** One element passes all four checks. */
  predicate IsValidCoordinate(coord: PyValue)
  {
    && IsPair(coord)
    && IsNumber(coord.items[0]) && IsNumber(coord.items[1])
    && LatitudeInRange(NumericValue(coord.items[0]))
    && LongitudeInRange(NumericValue(coord.items[1]))
  }

  /** The error the first failing check reports for an invalid element at index i: shape, numbers, latitude, longitude. */
  function CoordinateFault(coord: PyValue, i: nat): (e: CoordinateError)
    requires !IsValidCoordinate(coord)
  {
    if !IsPair(coord) then NotAPair(i)
    else if !IsNumber(coord.items[0]) || !IsNumber(coord.items[1]) then NotNumeric(i)
    else if !LatitudeInRange(NumericValue(coord.items[0])) then LatitudeOutOfRange(i)
    else LongitudeOutOfRange(i)
  }

  /** What the validator accepts: a list of at least three valid elements. */
  predicate AcceptsCoordinates(value: PyValue)
  {
    && value.PyList?
    && |value.items| >= 3
    && forall i :: 0 <= i < |value.items| ==> IsValidCoordinate(value.items[i])
  }

  function ErrorIndex(e: CoordinateError): int
  {
    match e
    case NotAList => -1
    case TooFewPoints => -1
    case NotAPair(i) => i
    case NotNumeric(i) => i
    case LatitudeOutOfRange(i) => i
    case LongitudeOutOfRange(i) => i
  }

  /** e is the error for the first invalid element of the list. */
  predicate IsFirstFault(items: seq<PyValue>, e: CoordinateError)
  {
    var i := ErrorIndex(e);
    && 0 <= i < |items|
    && (forall j :: 0 <= j < i ==> IsValidCoordinate(items[j]))
    && !IsValidCoordinate(items[i])
    && e == CoordinateFault(items[i], i)
  }

  /**
   * `validate_coordinates`: a value that is not a list, a list of fewer than
   * three elements, and the first bad element are rejected in that order; an
   * accepted value is returned unchanged.
   */
  method ValidateCoordinates(value: PyValue) returns (r: Validation)
    ensures !value.PyList? ==> r == Rejected(NotAList)
    ensures value.PyList? && |value.items| < 3 ==> r == Rejected(TooFewPoints)
    ensures r.Accepted? <==> AcceptsCoordinates(value)
    ensures r.Accepted? ==> r.value == value
    ensures r.Rejected? && value.PyList? && |value.items| >= 3 ==> IsFirstFault(value.items, r.error)
  {
    if !value.PyList? {
      return Rejected(NotAList);
    }
    if |value.items| < 3 {
      return Rejected(TooFewPoints);
    }
    for i := 0 to |value.items|
      invariant forall j :: 0 <= j < i ==> IsValidCoordinate(value.items[j])
    {
      var coord := value.items[i];
      if !(coord.PyList? || coord.PyTuple?) || |coord.items| != 2 {
        return Rejected(NotAPair(i));
      }
      var lat, lng := coord.items[0], coord.items[1];
      if !IsNumber(lat) || !IsNumber(lng) {
        return Rejected(NotNumeric(i));
      }
      if !(-90.0 <= NumericValue(lat) <= 90.0) {
        return Rejected(LatitudeOutOfRange(i));
      }
      if !(-180.0 <= NumericValue(lng) <= 180.0) {
        return Rejected(LongitudeOutOfRange(i));
      }
    }
    return Accepted(value);
  }

  /** The boundary values are inside the ranges; one step past any of them is not. */
  lemma RangeBoundaries()
    ensures IsValidCoordinate(PyList([PyInt(90), PyInt(180)]))
    ensures IsValidCoordinate(PyTuple([PyFloat(-90.0), PyFloat(-180.0)]))
    ensures CoordinateFault(PyList([PyFloat(90.5), PyInt(0)]), 4) == LatitudeOutOfRange(4)
    ensures CoordinateFault(PyList([PyInt(0), PyFloat(-180.5)]), 4) == LongitudeOutOfRange(4)
    ensures CoordinateFault(PyList([PyInt(100), PyStr("x")]), 4) == NotNumeric(4)
    ensures CoordinateFault(PyList([PyInt(0)]), 4) == NotAPair(4)
  {
  }

  // ---------------------------------------------------------------------
  // The messages raised

  /** `str(n)` for a non-negative index: decimal digits, no leading zero. */
  function DigitsOf(n: nat): (r: string)
    ensures |r| >= 1
    ensures forall i :: 0 <= i < |r| ==> '0' <= r[i] <= '9'
    ensures r[0] == '0' ==> n == 0
  {
    if n < 10 then [(48 + n) as char] else DigitsOf(n / 10) + [(48 + n % 10) as char]
  }

  /** The number a string of decimal digits denotes. */
  function DecimalValue(s: string): nat
    requires forall i :: 0 <= i < |s| ==> '0' <= s[i] <= '9'
  {
    if s == [] then 0 else DecimalValue(s[..|s| - 1]) * 10 + (s[|s| - 1] as int - 48)
  }

  /** Reading the digits back gives the index: the message names the element that failed. */
  lemma {:induction false} DigitsOfValue(n: nat)
    ensures DecimalValue(DigitsOf(n)) == n
  {
    if n >= 10 {
      DigitsOfValue(n / 10);
      var r := DigitsOf(n);
      assert r[..|r| - 1] == DigitsOf(n / 10);
    }
  }

  function Message(e: CoordinateError): string
  {
    match e
    case NotAList => "Coordinates must be a list."
    case TooFewPoints => "A polygon must have at least 3 points."
    case NotAPair(i) => "Coordinate at index " + DigitsOf(i) + " must be a [lat, lng] pair."
    case NotNumeric(i) => "Coordinate at index " + DigitsOf(i) + " must contain numeric values."
    case LatitudeOutOfRange(i) => "Latitude at index " + DigitsOf(i) + " must be between -90 and 90."
    case LongitudeOutOfRange(i) => "Longitude at index " + DigitsOf(i) + " must be between -180 and 180."
  }

  lemma ConcatCancel(p: string, a: string, b: string, q: string)
    requires p + a + q == p + b + q
    ensures a == b
  {
    var m := p + a + q;
    assert |a| == |b|;
    assert a == m[|p|..|p| + |a|];
    assert b == (p + b + q)[|p|..|p| + |b|];
  }

  /** Two errors of the same kind. */
  predicate SameKind(e1: CoordinateError, e2: CoordinateError)
  {
    || (e1.NotAPair? && e2.NotAPair?)
    || (e1.NotNumeric? && e2.NotNumeric?)
    || (e1.LatitudeOutOfRange? && e2.LatitudeOutOfRange?)
    || (e1.LongitudeOutOfRange? && e2.LongitudeOutOfRange?)
  }

  /** A message names its element unambiguously: equal messages of one kind are about the same index. */
  lemma MessageNamesIndex(e1: CoordinateError, e2: CoordinateError)
    requires SameKind(e1, e2)
    requires Message(e1) == Message(e2)
    ensures e1 == e2
  {
    var d1, d2 := DigitsOf(e1.index), DigitsOf(e2.index);
    DigitsOfValue(e1.index);
    DigitsOfValue(e2.index);
    match e1
    case NotAPair(_) =>
      ConcatCancel("Coordinate at index ", d1, d2, " must be a [lat, lng] pair.");
    case NotNumeric(_) =>
      ConcatCancel("Coordinate at index ", d1, d2, " must contain numeric values.");
    case LatitudeOutOfRange(_) =>
      ConcatCancel("Latitude at index ", d1, d2, " must be between -90 and 90.");
    case LongitudeOutOfRange(_) =>
      ConcatCancel("Longitude at index ", d1, d2, " must be between -180 and 180.");
  }

  lemma DigitsExample()
    ensures DigitsOf(0) == "0" && DigitsOf(12) == "12" && DigitsOf(305) == "305"
  {
    assert DigitsOf(1) == "1";
    assert DigitsOf(30) == DigitsOf(3) + "0";
  }
}
