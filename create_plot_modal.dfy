/**
 * The create-plot dialog (frontend/src/components/CreatePlotModal.tsx):
 * its menu / drawing / form steps, the form fields, the name gate on
 * submission, and the client-side area estimate.
 */
module CreatePlotModal {
  import opened Wrappers
  import opened Types
  import opened Shoelace

  // ---------------------------------------------------------------------
  // String.prototype.trim

  /** The characters JavaScript's `trim` strips: WhiteSpace and LineTerminator. */
  predicate IsJsWhitespace(c: char)
  {
    c == '\t' || c == '\n' || c == '\U{000B}' || c == '\U{000C}' || c == '\r' || c == ' '
    || c == '\U{00A0}' || c == '\U{1680}' || ('\U{2000}' <= c <= '\U{200A}')
    || c == '\U{2028}' || c == '\U{2029}' || c == '\U{202F}' || c == '\U{205F}'
    || c == '\U{3000}' || c == '\U{FEFF}'
  }

  /** Drop leading whitespace: the result is a suffix of s and all that was dropped is whitespace. */
  function TrimStart(s: string): (r: string)
    ensures |r| <= |s| && r == s[|s| - |r|..]
    ensures forall i :: 0 <= i < |s| - |r| ==> IsJsWhitespace(s[i])
    ensures r == [] || !IsJsWhitespace(r[0])
  {
    if s != [] && IsJsWhitespace(s[0]) then TrimStart(s[1..]) else s
  }

  /** Drop trailing whitespace: the result is a prefix of s and all that was dropped is whitespace. */
  function TrimEnd(s: string): (r: string)
    ensures |r| <= |s| && r == s[..|r|]
    ensures forall i :: |r| <= i < |s| ==> IsJsWhitespace(s[i])
    ensures r == [] || !IsJsWhitespace(r[|r| - 1])
  {
    if s != [] && IsJsWhitespace(s[|s| - 1]) then TrimEnd(s[..|s| - 1]) else s
  }

  /** `s.trim()`. */
  function Trim(s: string): (r: string)
    ensures |r| <= |s|
    ensures r == [] || (!IsJsWhitespace(r[0]) && !IsJsWhitespace(r[|r| - 1]))
  {
    TrimEnd(TrimStart(s))
  }

  /** Where the trimmed name starts inside the name. */
  function TrimOffset(s: string): nat
  {
    |s| - |TrimStart(s)|
  }

  /** The trimmed name is the slice of the name that starts at the offset. */
  lemma TrimIsSlice(s: string)
    ensures TrimOffset(s) + |Trim(s)| <= |s|
    ensures Trim(s) == s[TrimOffset(s)..TrimOffset(s) + |Trim(s)|]
  {
    var t := TrimStart(s);
    var r := TrimEnd(t);
    assert Trim(s) == r && TrimOffset(s) == |s| - |t|;
    SliceOfSuffix(s, t, r, |s| - |t|);
  }

  /** Only whitespace follows the trimmed name. */
  lemma TrimTrailing(s: string)
    ensures TrimOffset(s) + |Trim(s)| <= |s|
    ensures forall k :: TrimOffset(s) + |Trim(s)| <= k < |s| ==> IsJsWhitespace(s[k])
  {
    var t := TrimStart(s);
    var r := TrimEnd(t);
    assert Trim(s) == r && TrimOffset(s) == |s| - |t|;
    SliceOfSuffix(s, t, r, |s| - |t|);
  }

  /** The trimmed name is a contiguous piece of the name with whitespace only around it. */
  lemma TrimIsCore(s: string)
    ensures TrimOffset(s) + |Trim(s)| <= |s|
    ensures Trim(s) == s[TrimOffset(s)..TrimOffset(s) + |Trim(s)|]
    ensures forall k :: 0 <= k < TrimOffset(s) ==> IsJsWhitespace(s[k])
    ensures forall k :: TrimOffset(s) + |Trim(s)| <= k < |s| ==> IsJsWhitespace(s[k])
    ensures Trim(s) == [] || (!IsJsWhitespace(Trim(s)[0]) && !IsJsWhitespace(Trim(s)[|Trim(s)| - 1]))
  {
    TrimIsSlice(s);
    TrimTrailing(s);
    var r := Trim(s);
    if r != [] {
      assert r[0] == TrimStart(s)[0];
    }
  }

  /** r is a prefix of the suffix t of s that starts at i; what follows r in s is what follows it in t. */
  lemma SliceOfSuffix(s: string, t: string, r: string, i: nat)
    requires i + |t| == |s| && t == s[i..]
    requires |r| <= |t| && r == t[..|r|]
    requires forall k :: |r| <= k < |t| ==> IsJsWhitespace(t[k])
    ensures r == s[i..i + |r|]
    ensures forall k :: i + |r| <= k < |s| ==> IsJsWhitespace(s[k])
  {
    assert s[i..][..|r|] == s[i..i + |r|];
    forall k | i + |r| <= k < |s| ensures IsJsWhitespace(s[k]) {
      assert s[k] == t[k - i];
    }
  }

  /** `name.trim()` is falsy exactly when the name is all whitespace. */
  lemma TrimEmptyIffBlank(s: string)
    ensures Trim(s) == [] <==> forall k :: 0 <= k < |s| ==> IsJsWhitespace(s[k])
  {
    if Trim(s) != [] {
      TrimIsCore(s);
    }
  }

  lemma TrimIdempotent(s: string)
    ensures Trim(Trim(s)) == Trim(s)
  {
    var r := Trim(s);
    if r != [] {
      assert TrimStart(r) == r;
      assert TrimEnd(r) == r;
    }
  }

  /** Whitespace-free ends survive the start trim. */
  lemma {:induction false} TrimStartPadding(p: string, core: string)
    requires forall k :: 0 <= k < |p| ==> IsJsWhitespace(p[k])
    requires core != [] && !IsJsWhitespace(core[0])
    ensures TrimStart(p + core) == core
    decreases |p|
  {
    if p == [] {
      assert p + core == core;
    } else {
      assert (p + core)[0] == p[0];
      assert (p + core)[1..] == p[1..] + core;
      TrimStartPadding(p[1..], core);
    }
  }

  lemma {:induction false} TrimEndPadding(core: string, q: string)
    requires forall k :: 0 <= k < |q| ==> IsJsWhitespace(q[k])
    requires core != [] && !IsJsWhitespace(core[|core| - 1])
    ensures TrimEnd(core + q) == core
    decreases |q|
  {
    if q == [] {
      assert core + q == core;
    } else {
      var q' := q[..|q| - 1];
      assert (core + q)[|core + q| - 1] == q[|q| - 1];
      assert (core + q)[..|core + q| - 1] == core + q';
      TrimEndPadding(core, q');
    }
  }

  /** Whitespace around a name whose ends are not whitespace is exactly what trimming removes. */
  lemma TrimPadding(p: string, core: string, q: string)
    requires forall k :: 0 <= k < |p| ==> IsJsWhitespace(p[k])
    requires forall k :: 0 <= k < |q| ==> IsJsWhitespace(q[k])
    requires core != [] && !IsJsWhitespace(core[0]) && !IsJsWhitespace(core[|core| - 1])
    ensures Trim(p + core + q) == core
  {
    assert p + core + q == p + (core + q);
    assert (core + q)[0] == core[0];
    TrimStartPadding(p, core + q);
    TrimEndPadding(core, q);
  }

  lemma TrimExample()
    ensures Trim("  Field A  ") == "Field A"
  {
    assert "  Field A  " == "  " + "Field A" + "  ";
    TrimPadding("  ", "Field A", "  ");
  }

  // ---------------------------------------------------------------------
  // calculateArea

  /** The form's area estimate: the wrap-around shoelace loop. */
  method CalculateArea(points: seq<Point>) returns (r: real)
    ensures r == PlanarArea(points)
  {
    if |points| < 3 {
      return 0.0;
    }
    var area := 0.0;
    for i := 0 to |points|
      invariant area == IndexSum(points, i)
    {
      var j := (i + 1) % |points|;
      area := area + points[i].lng * points[j].lat;
      area := area - points[j].lng * points[i].lat;
    }
    r := Abs(area) * 0.5 * AreaScale;
  }

  // ---------------------------------------------------------------------
  // The dialog's state

  datatype Step = Menu | DrawingStep | Form

  /** A call the dialog makes on one of its callback props. */
  datatype Callback = CloseCalled | StartDrawingCalled | SavePlotCalled(data: PlotData)

  const DefaultFarmName: string := "Bouskoura"

  class Modal {
    var step: Step
    var name: string
    var farmName: string
    var cropType: string
    var hasManager: bool

    /** The initial `useState` values. */
    constructor ()
      ensures step == Menu && name == "" && farmName == DefaultFarmName
      ensures cropType == "" && !hasManager
    {
      step := Menu;
      name := "";
      farmName := DefaultFarmName;
      cropType := "";
      hasManager := false;
    }

    /** The submit button is enabled exactly when the trimmed name is non-empty. */
    predicate SubmitEnabled()
      reads this
      ensures SubmitEnabled() <==> exists k :: 0 <= k < |name| && !IsJsWhitespace(name[k])
    {
      TrimEmptyIffBlank(name);
      Trim(name) != []
    }

    /**
     * The effect on `[isOpen, drawingMode]`: opening on a closed drawing goes
     * to the form and keeps the fields; opening otherwise goes to the menu and
     * resets every field.
     */
    method OpenEffect(isOpen: bool, drawingMode: DrawingMode)
      modifies this
      ensures !isOpen ==> step == old(step) && name == old(name) && farmName == old(farmName)
                          && cropType == old(cropType) && hasManager == old(hasManager)
      ensures isOpen && drawingMode == Closed ==>
                step == Form && name == old(name) && farmName == old(farmName)
                && cropType == old(cropType) && hasManager == old(hasManager)
      ensures isOpen && drawingMode != Closed ==>
                step == Menu && name == "" && farmName == DefaultFarmName
                && cropType == "" && !hasManager
    {
      if isOpen {
        if drawingMode == Closed {
          step := Form;
        } else {
          step := Menu;
          name := "";
          farmName := DefaultFarmName;
          cropType := "";
          hasManager := false;
        }
      }
    }

    /** "Draw on Map": go to the drawing step and tell the application to start drawing. */
    method HandleStartDrawing() returns (calls: seq<Callback>)
      modifies this`step
      ensures step == DrawingStep
      ensures calls == [StartDrawingCalled]
    {
      step := DrawingStep;
      calls := [StartDrawingCalled];
    }

    /**
     * Form submission: with a non-blank name, hand the trimmed name and the
     * other fields unchanged to the application exactly once, then clear the
     * name and go back to the menu; with a blank name, do nothing.
     */
    method HandleSave() returns (calls: seq<Callback>)
      modifies this`name, this`step
      ensures Trim(old(name)) == [] ==> calls == [] && name == old(name) && step == old(step)
      ensures Trim(old(name)) != [] ==>
                calls == [SavePlotCalled(PlotData(Trim(old(name)), Some(farmName), Some(cropType), Some(hasManager)))]
                && name == "" && step == Menu
    {
      var trimmed := Trim(name);
      if trimmed != [] {
        calls := [SavePlotCalled(PlotData(trimmed, Some(farmName), Some(cropType), Some(hasManager)))];
        name := "";
        step := Menu;
      } else {
        calls := [];
      }
    }

    /** Cancel / backdrop click: clear the name, back to the menu, and close exactly once. */
    method HandleClose() returns (calls: seq<Callback>)
      modifies this`name, this`step
      ensures name == "" && step == Menu
      ensures calls == [CloseCalled]
    {
      name := "";
      step := Menu;
      calls := [CloseCalled];
    }

    /** The form's `onChange` handlers. */
    method EditName(value: string)
      modifies this`name
      ensures name == value
    {
      name := value;
    }

    method EditFarmName(value: string)
      modifies this`farmName
      ensures farmName == value
    {
      farmName := value;
    }

    method EditCropType(value: string)
      modifies this`cropType
      ensures cropType == value
    {
      cropType := value;
    }

    method EditHasManager(value: bool)
      modifies this`hasManager
      ensures hasManager == value
    {
      hasManager := value;
    }
  }

  /** A whitespace-only name disables the button and a save makes no call. */
  method BlankNameScenario(blank: string) returns (calls: seq<Callback>)
    requires forall k :: 0 <= k < |blank| ==> IsJsWhitespace(blank[k])
    ensures calls == []
  {
    var m := new Modal();
    m.EditName(blank);
    TrimEmptyIffBlank(blank);
    assert !m.SubmitEnabled();
    calls := m.HandleSave();
  }
}
