/**
 * The application shell's drawing session and plot selection
 * (frontend/src/App.tsx): the drawing mode, the points drawn so far, whether
 * the create-plot dialog is open, and which plot is selected. Network
 * outcomes and the delete confirmation are inputs of the handlers.
 */
module App {
  import opened Wrappers
  import opened Types

  /** The auto-close radius, in degrees. */
  const CloseDistance: real := 0.0005

  /** The camera zoom used when flying to a selected plot. */
  const FlyToZoom: int := 16

  function SquaredDistance(p: Point, q: Point): real
  {
    (p.lat - q.lat) * (p.lat - q.lat) + (p.lng - q.lng) * (p.lng - q.lng)
  }

  /**
   * `sqrt(dlat^2 + dlng^2) < 0.0005`: both sides are non-negative, so this is
   * the same test on squares.
   */
  predicate NearFirst(p: Point, first: Point)
  {
    SquaredDistance(p, first) < CloseDistance * CloseDistance
  }

  /**
   * A closed ring and the clicks that produced it: at least three points, the
   * clicks are those points followed by the closing click, and the closing
   * click lies within the radius of the first point.
   */
  ghost predicate ClosedRing(points: seq<Point>, clicks: seq<Point>)
  {
    && |points| >= 3
    && |clicks| == |points| + 1
    && clicks[..|points|] == points
    && NearFirst(clicks[|points|], points[0])
  }

  /** The body `createPlot` receives: the form's metadata plus the drawn ring. */
  datatype CreateRequest = CreateRequest(
    name: string,
    farmName: Option<string>,
    cropType: Option<string>,
    hasManager: Option<bool>,
    coordinates: seq<Point>)

  /**
   * What `handleDeletePlot` receives as `id`: nothing, a plot id, or (when it
   * is wired straight to a button's `onClick`) the click event object.
   */
  datatype DeleteArgument = NoArgument | PlotIdArgument(id: int) | ClickEvent

  /** What `targetId` ends up holding once it is truthy. */
  datatype DeleteTarget = TargetId(id: int) | TargetEvent

  /** The argument is falsy in JavaScript: absent, or the id 0. */
  predicate Falsy(arg: DeleteArgument)
  {
    arg == NoArgument || arg == PlotIdArgument(0)
  }

  /**
   * `id || selectedPlotId`, then `if (!targetId) return`: 0, null and
   * undefined are falsy, a click event object is truthy.
   */
  function ResolveDeleteTarget(arg: DeleteArgument, selected: Option<int>): (t: Option<DeleteTarget>)
    ensures t.None? <==> Falsy(arg) && !(selected.Some? && selected.value != 0)
    ensures t == Some(TargetEvent) <==> arg == ClickEvent
    ensures arg.PlotIdArgument? && arg.id != 0 ==> t == Some(TargetId(arg.id))
    ensures t.Some? && t.value.TargetId? ==>
              && t.value.id != 0
              && (arg == PlotIdArgument(t.value.id) || (Falsy(arg) && selected == Some(t.value.id)))
  {
    if arg == ClickEvent then Some(TargetEvent)
    else if arg.PlotIdArgument? && arg.id != 0 then Some(TargetId(arg.id))
    else if selected.Some? && selected.value != 0 then Some(TargetId(selected.value))
    else None
  }

  /** `targetId === selectedPlotId`. */
  predicate SameAsSelected(target: DeleteTarget, selected: Option<int>)
  {
    target.TargetId? && selected == Some(target.id)
  }

  datatype FlyTo = FlyTo(lat: real, lng: real, zoom: int)

  class AppState {
    var drawingMode: DrawingMode
    var drawingPoints: seq<Point>
    var isModalOpen: bool
    var selectedPlotId: Option<int>
    var flyToLocation: Option<FlyTo>
    /** Every click accepted while drawing since the last start. */
    ghost var clicks: seq<Point>

    /**
     * The session invariant: idle means no points; while drawing the points
     * are exactly the clicks since the last start; closed means a ring of at
     * least three of them with the closing click dropped.
     */
    ghost predicate Valid()
      reads this
    {
      && (drawingMode == Idle ==> drawingPoints == [])
      && (drawingMode == Drawing ==> drawingPoints == clicks)
      && (drawingMode == Closed ==> ClosedRing(drawingPoints, clicks))
    }

    /** The initial `useState` values. */
    constructor ()
      ensures Valid()
      ensures drawingMode == Idle && drawingPoints == [] && !isModalOpen
      ensures selectedPlotId == None && flyToLocation == None
    {
      drawingMode := Idle;
      drawingPoints := [];
      isModalOpen := false;
      selectedPlotId := None;
      flyToLocation := None;
      clicks := [];
    }

    /**
     * `handleMapClick`: ignored unless drawing; otherwise the point is
     * appended, unless there were already at least three points and it lies
     * within the radius of the first, in which case the ring closes and the
     * closing click is dropped.
     */
    method HandleMapClick(lat: real, lng: real)
      requires Valid()
      modifies this`drawingMode, this`drawingPoints, this`clicks
      ensures Valid()
      ensures old(drawingMode) != Drawing ==>
                drawingMode == old(drawingMode) && drawingPoints == old(drawingPoints) && clicks == old(clicks)
      ensures old(drawingMode) == Drawing ==> clicks == old(clicks) + [Point(lat, lng)]
      ensures old(drawingMode) == Drawing && |old(drawingPoints)| < 3 ==> drawingMode == Drawing
      ensures old(drawingMode) == Drawing && |old(drawingPoints)| >= 3 && NearFirst(Point(lat, lng), old(drawingPoints)[0]) ==>
                drawingMode == Closed && drawingPoints == old(drawingPoints)
      ensures old(drawingMode) == Drawing && !(|old(drawingPoints)| >= 3 && NearFirst(Point(lat, lng), old(drawingPoints)[0])) ==>
                drawingMode == Drawing && drawingPoints == old(drawingPoints) + [Point(lat, lng)]
    {
      if drawingMode == Drawing {
        var p := Point(lat, lng);
        var newPoints := drawingPoints + [p];
        clicks := clicks + [p];
        if |newPoints| > 3 {
          var firstPoint := newPoints[0];
          if SquaredDistance(p, firstPoint) < CloseDistance * CloseDistance {
            drawingMode := Closed;
            drawingPoints := newPoints[..|newPoints| - 1];
            return;
          }
        }
        drawingPoints := newPoints;
      }
    }

    /** `handleStartDrawing`: from any state, a fresh empty drawing with the dialog closed. */
    method HandleStartDrawing()
      modifies this`drawingMode, this`drawingPoints, this`isModalOpen, this`clicks
      ensures Valid()
      ensures drawingMode == Drawing && drawingPoints == [] && !isModalOpen && clicks == []
    {
      drawingPoints := [];
      drawingMode := Drawing;
      isModalOpen := false;
      clicks := [];
    }

    /**
     * `handleCancelDrawing`: from any state, idle with no points and the
     * dialog closed. The new state does not depend on the old one, so a
     * second cancel changes nothing.
     */
    method HandleCancelDrawing()
      modifies this`drawingMode, this`drawingPoints, this`isModalOpen
      ensures Valid()
      ensures drawingMode == Idle && drawingPoints == [] && !isModalOpen
    {
      drawingPoints := [];
      drawingMode := Idle;
      isModalOpen := false;
    }

    /**
     * The Escape key: a drawing in progress is discarded; a closed ring is
     * kept; the dialog is closed in every case.
     */
    method HandleEscape()
      requires Valid()
      modifies this`drawingMode, this`drawingPoints, this`isModalOpen
      ensures Valid()
      ensures old(drawingMode) == Drawing ==> drawingMode == Idle && drawingPoints == []
      ensures old(drawingMode) != Drawing ==> drawingMode == old(drawingMode) && drawingPoints == old(drawingPoints)
      ensures !isModalOpen
    {
      if drawingMode == Drawing {
        drawingPoints := [];
        drawingMode := Idle;
      }
      if isModalOpen {
        isModalOpen := false;
      }
    }

    /** The effect on `drawingMode`: once the ring is closed, the dialog opens. */
    method DrawingModeEffect()
      modifies this`isModalOpen
      ensures isModalOpen == (old(isModalOpen) || drawingMode == Closed)
    {
      if drawingMode == Closed {
        isModalOpen := true;
      }
    }

    /** The sidebar's create button, rendered only while idle, opens the dialog. */
    method HandleCreateButton()
      modifies this`isModalOpen
      ensures isModalOpen == (old(isModalOpen) || drawingMode == Idle)
    {
      if drawingMode == Idle {
        isModalOpen := true;
      }
    }

    /**
     * `handleSavePlot`: sends the current points with the given metadata;
     * on success the session is reset to idle and the dialog closed, on
     * failure nothing changes, so no drawn point is lost.
     */
    method HandleSavePlot(data: PlotData, created: bool) returns (request: CreateRequest)
      requires Valid()
      modifies this`drawingMode, this`drawingPoints, this`isModalOpen
      ensures Valid()
      ensures request == CreateRequest(data.name, data.farmName, data.cropType, data.hasManager, old(drawingPoints))
      ensures created ==> drawingMode == Idle && drawingPoints == [] && !isModalOpen
      ensures !created ==> drawingMode == old(drawingMode) && drawingPoints == old(drawingPoints)
                           && isModalOpen == old(isModalOpen)
    {
      request := CreateRequest(data.name, data.farmName, data.cropType, data.hasManager, drawingPoints);
      if created {
        drawingPoints := [];
        drawingMode := Idle;
        isModalOpen := false;
      }
    }

    /**
     * `handlePlotSelect`: the plot becomes selected at once; if the centre
     * request returned a centre, the camera is sent there at zoom 16.
     */
    method HandlePlotSelect(plotId: int, center: Option<Point>)
      modifies this`selectedPlotId, this`flyToLocation
      ensures selectedPlotId == Some(plotId)
      ensures center.Some? ==> flyToLocation == Some(FlyTo(center.value.lat, center.value.lng, FlyToZoom))
      ensures center.None? ==> flyToLocation == old(flyToLocation)
    {
      selectedPlotId := Some(plotId);
      if center.Some? {
        flyToLocation := Some(FlyTo(center.value.lat, center.value.lng, FlyToZoom));
      }
    }

    /**
     * `handleDeletePlot`: with no truthy target, or when the user does not
     * confirm, no request is made and nothing changes. Otherwise the target is
     * deleted, and only a successful delete of the selected plot clears the
     * selection.
     */
    method HandleDeletePlot(arg: DeleteArgument, confirmed: bool, deleted: bool) returns (request: Option<DeleteTarget>)
      modifies this`selectedPlotId
      ensures var target := ResolveDeleteTarget(arg, old(selectedPlotId));
        request == (if target.Some? && confirmed then target else None)
      ensures request.None? ==> selectedPlotId == old(selectedPlotId)
      ensures request.Some? ==>
                selectedPlotId == (if deleted && SameAsSelected(request.value, old(selectedPlotId)) then None
                                   else old(selectedPlotId))
    {
      var targetId := ResolveDeleteTarget(arg, selectedPlotId);
      request := None;
      if targetId.None? {
        return;
      }
      if confirmed {
        request := targetId;
        if deleted {
          if SameAsSelected(targetId.value, selectedPlotId) {
            selectedPlotId := None;
          }
        }
      }
    }

    /** The selected-plot panel's delete button, as the markup wires it: the click event is the argument. */
    method HandleSidebarDeleteAsWritten(confirmed: bool, deleted: bool) returns (request: Option<DeleteTarget>)
      modifies this`selectedPlotId
      ensures request == (if confirmed then Some(TargetEvent) else None)
      ensures selectedPlotId == old(selectedPlotId)
    {
      request := HandleDeletePlot(ClickEvent, confirmed, deleted);
    }

    /** The selected-plot panel's delete button as intended: no argument, so the selected plot is the target. */
    method HandleSidebarDelete(confirmed: bool, deleted: bool) returns (request: Option<DeleteTarget>)
      requires selectedPlotId.Some? && selectedPlotId.value != 0
      modifies this`selectedPlotId
      ensures request == (if confirmed then Some(TargetId(old(selectedPlotId).value)) else None)
      ensures selectedPlotId == (if confirmed && deleted then None else old(selectedPlotId))
    {
      request := HandleDeletePlot(NoArgument, confirmed, deleted);
    }
  }

  /**
   * Four clicks, the last within the radius of the first: the ring closes on
   * the first three points and the closing click is not kept.
   */
  method CloseTriangleScenario() returns (mode: DrawingMode, points: seq<Point>)
    ensures mode == Closed
    ensures points == [Point(33.5, -7.6), Point(33.5, -7.59), Point(33.51, -7.59)]
  {
    var app := new AppState();
    app.HandleStartDrawing();
    app.HandleMapClick(33.5, -7.6);
    app.HandleMapClick(33.5, -7.59);
    app.HandleMapClick(33.51, -7.59);
    assert NearFirst(Point(33.5001, -7.6001), Point(33.5, -7.6));
    app.HandleMapClick(33.5001, -7.6001);
    mode, points := app.drawingMode, app.drawingPoints;
  }

  /** Starting again while drawing discards the earlier points rather than merging them. */
  method RestartScenario() returns (points: seq<Point>)
    ensures points == [Point(1.0, 1.0)]
  {
    var app := new AppState();
    app.HandleStartDrawing();
    app.HandleMapClick(0.0, 0.0);
    app.HandleMapClick(0.0, 1.0);
    app.HandleStartDrawing();
    app.HandleMapClick(1.0, 1.0);
    points := app.drawingPoints;
  }

  /**
   * Plot 7 is selected and the user confirms a delete from the selected-plot
   * panel. Wired as written, the request targets the click event, which
   * the server cannot resolve to a plot, so in practice the delete always
   * fails; even an outcome reported as successful leaves plot 7 selected.
   * Wired without the event, plot 7 is deleted and the selection is cleared.
   */
  method SidebarDeleteScenario() returns (asWritten: Option<int>, corrected: Option<int>)
    ensures asWritten == Some(7)
    ensures corrected == None
  {
    var app := new AppState();
    app.HandlePlotSelect(7, None);
    var request := app.HandleSidebarDeleteAsWritten(true, true);
    asWritten := app.selectedPlotId;
    app.HandlePlotSelect(7, None);
    request := app.HandleSidebarDelete(true, true);
    corrected := app.selectedPlotId;
  }
}
