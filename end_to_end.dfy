/**
 * How the client's output meets the server's input: the ring a closed
 * drawing session sends, as the coordinate validator sees it, and the
 * create request's body, as the serializer's field set filters it.
 */
module EndToEnd {
  import opened Wrappers
  import opened Types
  import opened App
  import opened Serializers
  import CreatePlotModal

  /** A drawn ring as the decoded JSON body holds it: a list of `[lat, lng]` lists of floats. */
  function EncodeCoordinates(points: seq<Point>): (v: PyValue)
    ensures v.PyList? && |v.items| == |points|
    ensures forall i :: 0 <= i < |points| ==> v.items[i] == PyList([PyFloat(points[i].lat), PyFloat(points[i].lng)])
  {
    PyList(seq(|points|, i requires 0 <= i < |points| => PyList([PyFloat(points[i].lat), PyFloat(points[i].lng)])))
  }

  /** The JSON body `createPlot` posts; `JSON.stringify` leaves out an absent optional field. */
  function EncodeCreateRequest(request: CreateRequest): (body: map<string, PyValue>)
    ensures "name" in body && "coordinates" in body
    ensures ("farm_name" in body <==> request.farmName.Some?)
    ensures ("crop_type" in body <==> request.cropType.Some?)
    ensures ("has_manager" in body <==> request.hasManager.Some?)
  {
    var base := map["name" := PyStr(request.name), "coordinates" := EncodeCoordinates(request.coordinates)];
    var withFarm := if request.farmName.Some? then base["farm_name" := PyStr(request.farmName.value)] else base;
    var withCrop := if request.cropType.Some? then withFarm["crop_type" := PyStr(request.cropType.value)] else withFarm;
    if request.hasManager.Some? then withCrop["has_manager" := PyBool(request.hasManager.value)] else withCrop
  }

  predicate InRange(p: Point)
  {
    LatitudeInRange(p.lat) && LongitudeInRange(p.lng)
  }

  /**
   * A closed session's ring always passes the validator's length check, and
   * the validator accepts it exactly when every point is in range.
   */
  lemma ClosedRingMeetsValidator(points: seq<Point>, clicks: seq<Point>)
    requires ClosedRing(points, clicks)
    ensures |EncodeCoordinates(points).items| >= 3
    ensures AcceptsCoordinates(EncodeCoordinates(points)) <==> forall i :: 0 <= i < |points| ==> InRange(points[i])
  {
    var v := EncodeCoordinates(points);
    forall i | 0 <= i < |points|
      ensures IsValidCoordinate(v.items[i]) <==> InRange(points[i])
    {
      assert v.items[i] == PyList([PyFloat(points[i].lat), PyFloat(points[i].lng)]);
    }
  }

  /**
   * Of everything the application posts, the serializer keeps only the name
   * and the ring: the farm name, crop type and manager flag never reach the
   * stored plot.
   */
  lemma CreateRequestKeepsNameAndRing(request: CreateRequest)
    ensures WritableInput(EncodeCreateRequest(request)).Keys == {"name", "coordinates"}
    ensures WritableInput(EncodeCreateRequest(request))["name"] == PyStr(request.name)
    ensures WritableInput(EncodeCreateRequest(request))["coordinates"] == EncodeCoordinates(request.coordinates)
  {
    var body := EncodeCreateRequest(request);
    assert body["name"] == PyStr(request.name);
    assert body["coordinates"] == EncodeCoordinates(request.coordinates);
  }

  /**
   * Submitting a closed drawing: the drawing-mode effect opens the dialog,
   * the dialog's effect puts it on the form, the user types a name and
   * presses save. A blank name sends nothing and leaves the session drawn; a
   * real one sends the trimmed name with the drawn ring, which the validator
   * sees as a list of at least three pairs. Whatever the server answers, the
   * dialog returns to its menu; only a successful create resets the session.
   */
  method SubmitClosedSession(app: AppState, modal: CreatePlotModal.Modal, typed: string, created: bool)
    returns (request: Option<CreateRequest>)
    requires app.Valid() && app.drawingMode == Closed
    modifies app, modal
    ensures app.Valid() && app.isModalOpen == !(request.Some? && created)
    ensures CreatePlotModal.Trim(typed) == [] ==>
              && request == None && modal.step == CreatePlotModal.Form
              && app.drawingMode == Closed && app.drawingPoints == old(app.drawingPoints)
    ensures CreatePlotModal.Trim(typed) != [] ==>
              && request.Some?
              && request.value.name == CreatePlotModal.Trim(typed)
              && request.value.coordinates == old(app.drawingPoints)
              && |EncodeCoordinates(request.value.coordinates).items| >= 3
              && modal.step == CreatePlotModal.Menu
    ensures request.Some? && created ==> app.drawingMode == Idle && app.drawingPoints == []
    ensures request.Some? && !created ==> app.drawingMode == Closed && app.drawingPoints == old(app.drawingPoints)
  {
    app.DrawingModeEffect();
    modal.OpenEffect(app.isModalOpen, app.drawingMode);
    modal.EditName(typed);
    var calls := modal.HandleSave();
    if calls == [] {
      return None;
    }
    assert calls[0].SavePlotCalled?;
    var sent := app.HandleSavePlot(calls[0].data, created);
    request := Some(sent);
  }
}
