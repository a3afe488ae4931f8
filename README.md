# Plot manager: a Dafny model of the drawing, area, validation and centre logic

This project models the core of a small farm-plot manager. Users draw
polygons (plots) on a map in a React client and save them to a Django REST
backend. The backend stores each plot with a surface area, labelled hectares, and
serves a centre point used to fly the camera to a plot.

The model covers five parts of that system:

- **The application shell's drawing session** (`App.AppState`, in
  `app.dfy`). This is a class with the session state: the drawing mode
  (idle, drawing, closed), the points drawn so far, whether the create
  dialog is open, the selected plot and the camera target. Its methods are
  the click, start, cancel, Escape, save, select and delete handlers. A
  ghost history of clicks backs a session invariant (`Valid`): a closed
  session holds a ring of at least three points, taken from the clicks with
  the closing click dropped.
- **The create-plot dialog** (`CreatePlotModal.Modal`, in
  `create_plot_modal.dfy`). It models the menu, drawing and form steps, the
  open effect, and the trimmed-name submit rule. It also gives JavaScript's
  `trim` as a function with its properties, and the client's area loop
  `calculateArea` as a method proved against the shoelace specification.
- **The shoelace area** (`Shoelace`, in `shoelace.dfy`). This is the
  specification that both the client loop and the server loop compute. It
  is proved not to change when the ring is rotated or reversed, and it is
  checked on a worked triangle.
- **The stored plot** (`Models.Plot`, in `models.dfy`). It covers the
  server's area loop, Python's `round(x, 4)` on exact decimals, and the
  rule that saving recomputes the area only for three or more coordinates.
- **The serializer and the centre endpoint** (`Serializers`, `Views`).
  `validate_coordinates` is a loop returning an accepted value or the first
  error, in the same order of checks and with the same messages. The
  writable field set is modelled too. The centre is the vertex average,
  proved to lie inside the bounding box and not to depend on vertex order.

`EndToEnd` (`end_to_end.dfy`) joins the client and the server. It shows
that a closed session always gives the validator at least three pairs. It
shows that the serializer keeps only the name and the ring of a create
request. It also wires the dialog to the shell for a full submit.

Modelling conventions:

- Numbers are exact reals, not IEEE doubles.
- The auto-close test `sqrt(dlat² + dlng²) < 0.0005` is stated on squares. The two forms are equivalent because both sides are non-negative.
- Network outcomes (`created`, `deleted`), the answer of `confirm`, and the centre the server returned are parameters of the handlers. `created` and `deleted` say whether `createPlot` / `deletePlot` resolved. That includes the plot-list refresh each one awaits, so a create or delete that reached the server but whose refresh failed counts as a failure.
- The drawing mode `'none'` is named `Idle`, so that it does not clash with `Option.None`.

Behaviour worth noting:

- **Failed create.** The dialog's `handleSave` clears the name and returns to the menu step as soon as it hands the data over (CreatePlotModal.tsx:70-71). After a failed create the form is therefore not shown again. Only the application's state (closed ring, dialog open) survives the failure. `EndToEnd.SubmitClosedSession` states exactly this.
- **`id` field.** The serializer's `Meta.fields` lists `id` without marking it read-only. A model serializer makes an auto primary key read-only anyway, so the writable fields are only `name` and `coordinates`.
- **Refresh failure.** `createPlot` and `deletePlot` each await `fetchPlots`, which rethrows when the list cannot be reloaded (frontend/src/hooks/useApi.ts:27-31). A plot the server created or deleted, followed by a failed refresh, is handled as a failure. The ring is kept and the dialog stays open after such a create, and the selection is kept after such a delete.
- **Area unit.** Both area loops call their result hectares, but the factor 12390 is square kilometres per square degree (backend/plots/models.py:46-47). One square degree is about 1 239 000 hectares, so the stored value is on a square-kilometre scale. The model keeps the factor as written (`Shoelace.AreaScale`).
- **Client metadata.** The client posts `farm_name`, `crop_type` and `has_manager`, but they are not in the serializer's fields. The server never stores them (`EndToEnd.CreateRequestKeepsNameAndRing`).

## Model

| member | source | states |
|---|---|---|
| Shoelace.PlanarAreaBounds | frontend/src/components/CreatePlotModal.tsx:29-38 | The area is never negative. The other two clauses unfold the definition for callers: 0 below three points, otherwise \|signed double area\| × 6195. |
| Shoelace.IndexSumIsPathSum | frontend/src/components/CreatePlotModal.tsx:32-36 | After k steps, the loop's accumulator `area` (the index form with the `(i + 1) % n` wrap) equals the sum of the cross products along the first k + 1 points. |
| Shoelace.SignedDoubleAreaIsRingSum | backend/plots/models.py:38-41 | The full wrap-around loop equals the index-free ring sum: the path sum plus the closing edge from the last point back to the first. |
| Shoelace.PathSumFront | backend/plots/models.py:38-41 | The path sum can be peeled from the front as well as from the back. |
| Shoelace.CrossAntisymmetric | backend/plots/models.py:40-41 | Swapping the two points of a shoelace term negates it. |
| Shoelace.RingSumRotateOnce | backend/plots/models.py:38-41 | Moving the first point to the end leaves the ring sum unchanged. |
| Shoelace.PlanarAreaRotation | backend/plots/models.py:38-48 | Starting the ring at any vertex k gives the same area. |
| Shoelace.PathSumReverse | backend/plots/models.py:38-41 | Walking a path backwards negates its sum. |
| Shoelace.RingSumReverse | backend/plots/models.py:38-41 | Walking a ring backwards negates its signed sum. |
| Shoelace.PlanarAreaReverse | backend/plots/models.py:43-48 | Because of the absolute value, a clockwise and a counter-clockwise drawing of the same ring have the same area. |
| Shoelace.TriangleSignedDoubleArea | backend/plots/models.py:38-41 | For three points, the loop's sum is the three edge terms ab, bc and ca. |
| Shoelace.RightTriangleArea | frontend/src/components/CreatePlotModal.tsx:29-38 | The area of (0,0), (0,2), (2,0) is 24780. |
| CreatePlotModal.CalculateArea | frontend/src/components/CreatePlotModal.tsx:29-38 | The client loop returns exactly the shoelace area (0 below three points, since the guard returns early). |
| CreatePlotModal.TrimStart | frontend/src/components/CreatePlotModal.tsx:63 | Drops only leading whitespace, and what is left is a suffix of the input that starts with a non-whitespace character. |
| CreatePlotModal.TrimEnd | frontend/src/components/CreatePlotModal.tsx:63 | Drops only trailing whitespace, and what is left is a prefix of the input that ends with a non-whitespace character. |
| CreatePlotModal.Trim | frontend/src/components/CreatePlotModal.tsx:63-65 | `name.trim()` is no longer than the name, and neither end of a non-empty result is whitespace. That it is the name minus its surrounding whitespace is TrimIsSlice, TrimTrailing and TrimIsCore. |
| CreatePlotModal.TrimIsSlice | frontend/src/components/CreatePlotModal.tsx:65 | The trimmed name is the slice of the name that starts where the leading whitespace ends. |
| CreatePlotModal.TrimTrailing | frontend/src/components/CreatePlotModal.tsx:65 | Everything after the trimmed name is whitespace. |
| CreatePlotModal.TrimIsCore | frontend/src/components/CreatePlotModal.tsx:65 | The trimmed name is a contiguous slice of the name, with only whitespace around it and no whitespace at either end. |
| CreatePlotModal.TrimEmptyIffBlank | frontend/src/components/CreatePlotModal.tsx:249 | The trimmed name is empty (submit disabled, save ignored) if and only if every character of the name is whitespace. |
| CreatePlotModal.TrimIdempotent | frontend/src/components/CreatePlotModal.tsx:63-65 | Trimming an already trimmed name changes nothing. |
| CreatePlotModal.TrimStartPadding | frontend/src/components/CreatePlotModal.tsx:65 | Leading whitespace in front of a name that starts with a non-whitespace character is exactly what the start trim removes. |
| CreatePlotModal.TrimEndPadding | frontend/src/components/CreatePlotModal.tsx:65 | Trailing whitespace after a name that ends with a non-whitespace character is exactly what the end trim removes. |
| CreatePlotModal.TrimPadding | frontend/src/components/CreatePlotModal.tsx:65 | Any whitespace around a name with non-whitespace ends is removed, and the name itself is kept whole. |
| CreatePlotModal.TrimExample | frontend/src/components/CreatePlotModal.tsx:65 | `"  Field A  "` is sent as `"Field A"`. |
| CreatePlotModal.Modal.constructor | frontend/src/components/CreatePlotModal.tsx:21-25 | The dialog starts on the menu with an empty name, farm "Bouskoura", no crop and no manager. |
| CreatePlotModal.Modal.SubmitEnabled | frontend/src/components/CreatePlotModal.tsx:249 | The submit button is enabled if and only if the name holds at least one non-whitespace character. |
| CreatePlotModal.Modal.OpenEffect | frontend/src/components/CreatePlotModal.tsx:42-54 | When open on a closed drawing: step Form, fields kept. When open otherwise: step Menu, every field reset. When closed: nothing changes. |
| CreatePlotModal.Modal.HandleStartDrawing | frontend/src/components/CreatePlotModal.tsx:56-59 | Goes to the drawing step and calls `onStartDrawing` exactly once. |
| CreatePlotModal.Modal.HandleSave | frontend/src/components/CreatePlotModal.tsx:61-73 | With a blank name: no call and no change. Otherwise: exactly one `onSavePlot` with the trimmed name and the farm, crop and manager fields, then name "" and step Menu. |
| CreatePlotModal.Modal.HandleClose | frontend/src/components/CreatePlotModal.tsx:75-79 | Clears the name, returns to the menu and calls `onClose` exactly once. |
| CreatePlotModal.Modal.EditName | frontend/src/components/CreatePlotModal.tsx:178 | The name field takes the typed value. |
| CreatePlotModal.Modal.EditFarmName | frontend/src/components/CreatePlotModal.tsx:200 | The farm field takes the selected value. |
| CreatePlotModal.Modal.EditCropType | frontend/src/components/CreatePlotModal.tsx:214 | The crop field takes the selected value. |
| CreatePlotModal.Modal.EditHasManager | frontend/src/components/CreatePlotModal.tsx:230 | The manager flag takes the checkbox value. |
| CreatePlotModal.BlankNameScenario | frontend/src/components/CreatePlotModal.tsx:61-73 | On a fresh dialog, any whitespace-only name disables submit, and saving with it makes no call. |
| App.ResolveDeleteTarget | frontend/src/App.tsx:115-117 | `id \|\| selectedPlotId` then `if (!targetId) return`. There is no target exactly when the argument is falsy and no non-zero plot is selected. The target is the event exactly when a click event was passed. A non-zero id wins over the selection. A plot target is never 0, and it is either the id passed or, for a falsy argument, the selected plot. |
| App.AppState.constructor | frontend/src/App.tsx:17-21 | Idle, no points, dialog closed, nothing selected, no camera target; the session invariant holds. |
| App.AppState.HandleMapClick | frontend/src/App.tsx:44-65 | Ignored unless drawing. Otherwise the click is recorded. It closes the ring, dropping the closing click, only when there were already three points and the click is within 0.0005 of the first. Otherwise the click is appended. The invariant is kept. |
| App.AppState.HandleStartDrawing | frontend/src/App.tsx:68-72 | From any state: drawing, no points, dialog closed. |
| App.AppState.HandleCancelDrawing | frontend/src/App.tsx:136-140 | From any state: idle, no points, dialog closed. The result does not depend on the old state. |
| App.AppState.HandleEscape | frontend/src/App.tsx:143-153 | Discards a drawing in progress, keeps a closed ring, and always closes the dialog. The invariant is kept. |
| App.AppState.DrawingModeEffect | frontend/src/App.tsx:31-35 | The dialog becomes open when the mode is closed, and stays as it was otherwise. |
| App.AppState.HandleCreateButton | frontend/src/App.tsx:246-248 | The create button exists only when idle, and it opens the dialog. |
| App.AppState.HandleSavePlot | frontend/src/App.tsx:75-94 | The request carries the form data and the current points. On success: idle, no points, dialog closed. On failure: everything unchanged. |
| App.AppState.HandlePlotSelect | frontend/src/App.tsx:97-112 | The plot is selected at once. With a returned centre, the camera flies there at zoom 16; otherwise the camera target is unchanged. |
| App.AppState.HandleDeletePlot | frontend/src/App.tsx:115-133 | With no truthy target, or without confirmation: no request. Otherwise the resolved target is requested, and only a successful delete of the selected plot clears the selection. |
| App.AppState.HandleSidebarDeleteAsWritten | frontend/src/App.tsx:304 | With the click event as argument, a confirmed delete targets the event, and the selection is never cleared. |
| App.AppState.HandleSidebarDelete | frontend/src/App.tsx:115-125 | With no argument, a confirmed delete targets the selected plot, and a successful one clears the selection. |
| App.CloseTriangleScenario | frontend/src/App.tsx:44-65 | Four clicks, the last within the radius of the first, close on the first three points. |
| App.RestartScenario | frontend/src/App.tsx:68-72 | Starting again while drawing discards the earlier points. |
| App.SidebarDeleteScenario | frontend/src/App.tsx:304 | Plot 7 selected and a confirmed delete reported as successful: the as-written wiring still keeps plot 7 selected, while the corrected one clears the selection. For the as-written button that outcome cannot actually occur, because its request never names a plot. |
| Models.RoundHalfEven | backend/plots/models.py:50 | The nearest integer, within 0.5, with ties going to the even neighbour; it is non-negative for a non-negative input. |
| Models.RoundTo4 | backend/plots/models.py:50 | A multiple of 1/10000 within 0.00005 of the input; at a tie the multiple with an even count of ten-thousandths (so 0.03125 gives 0.0312); non-negative for a non-negative input. |
| Models.RoundTo4Ties | backend/plots/models.py:50 | 0.03125 rounds down to the even 0.0312, and 0.03135 rounds up to the even 0.0314. |
| Models.ServerAgreesWithClient | backend/plots/models.py:26-50 | The stored area is the client's estimate rounded to 4 places: within 0.00005 of it, and never negative. |
| Models.SurfaceAreaRotation | backend/plots/models.py:38-50 | The stored area does not depend on which vertex the ring starts at. |
| Models.SurfaceAreaReverse | backend/plots/models.py:38-50 | The stored area does not depend on whether the ring was drawn clockwise or counter-clockwise. |
| Models.RightTriangleSurfaceArea | backend/plots/models.py:26-50 | The worked triangle is stored as 24780. |
| Models.Plot.constructor | backend/plots/models.py:11-16 | A new plot has the model defaults: no farm, no crop, no manager, no area. |
| Models.Plot.CalculateSurfaceArea | backend/plots/models.py:26-50 | Returns 0 below three points, and otherwise the shoelace area rounded to 4 places. The result is non-negative and within 0.00005 of the client's estimate. |
| Models.Plot.Save | backend/plots/models.py:52-56 | With three or more coordinates the stored area is recomputed; otherwise it is left as it was. |
| Serializers.WritableFields | backend/plots/serializers.py:13-16 | The writable fields are exactly `name` and `coordinates`. The farm, crop and manager fields are not among them. |
| Serializers.WritableInputIgnoresOtherKeys | backend/plots/serializers.py:13-16 | Adding or changing any key other than `name` and `coordinates` (such as `id`, `surface_area`, `farm_name` or an unknown key) leaves what the serializer reads unchanged. |
| Serializers.ValidateCoordinates | backend/plots/serializers.py:18-50 | A non-list is rejected first, then a list of fewer than 3. A list is accepted if and only if every element is a 2-element list or tuple of numbers, with lat in [-90, 90] and lng in [-180, 180]. An accepted value is returned unchanged. Otherwise the error names the first bad element and its first failed check. |
| Serializers.RangeBoundaries | backend/plots/serializers.py:28-48 | ±90 and ±180 are accepted, and just past them is rejected. A non-number is caught before the range checks, and a wrong shape before a non-number. |
| Serializers.DigitsOf | backend/plots/serializers.py:29-47 | The index in a message is written as one or more decimal digits, with no leading zero. |
| Serializers.DigitsOfValue | backend/plots/serializers.py:29-47 | Reading the digits back gives the index. |
| Serializers.DigitsExample | backend/plots/serializers.py:29-47 | 0, 12 and 305 are written "0", "12" and "305". |
| Serializers.MessageNamesIndex | backend/plots/serializers.py:22-48 | Two errors of the same kind have the same message only when they are about the same index, so each message names its element unambiguously. |
| Views.Center | backend/plots/views.py:65-92 | No coordinates gives a 400 with "Plot has no coordinates". Otherwise a 200 echoing id, name, coordinates and area, with the centre at the vertex averages. |
| Views.AxisSumBounds | backend/plots/views.py:79-80 | If every coordinate lies in [lo, hi], the sum lies in [n·lo, n·hi]. |
| Views.MeanWithinBounds | backend/plots/views.py:79-84 | The centre lies within any bounds that hold every vertex. |
| Views.SinglePointCenter | backend/plots/views.py:79-84 | A one-point plot is centred on that point. |
| Views.AxisSumAppend | backend/plots/views.py:79-80 | The sum over a concatenation is the sum of the two sums. |
| Views.AxisSumRemove | backend/plots/views.py:79-80 | Removing one element removes its coordinate from the sum. |
| Views.MultisetRemove | backend/plots/views.py:79-80 | Removing the element at k removes exactly one copy of it. |
| Views.AxisSumPermutation | backend/plots/views.py:79-80 | Sums over two orderings of the same vertices are equal. |
| Views.CenterPermutationInvariant | backend/plots/views.py:79-84 | Reordering the coordinates does not move the centre. |
| EndToEnd.EncodeCoordinates | frontend/src/App.tsx:82-85 | The ring goes into the body as a list with one entry per point, and entry i is the list `[lat_i, lng_i]` of numbers. An integral coordinate is written without a fraction and read back by Python as an `int`, which the validator treats like a float. |
| EndToEnd.EncodeCreateRequest | frontend/src/App.tsx:82-85 | The body always has name and coordinates. Each optional field is present if and only if the form supplied it. |
| EndToEnd.ClosedRingMeetsValidator | backend/plots/serializers.py:25-48 | A closed session's ring always passes the length check. The validator accepts it if and only if every point is within the latitude and longitude ranges. |
| EndToEnd.CreateRequestKeepsNameAndRing | backend/plots/serializers.py:13-16 | Of a create request, the serializer reads only the name and the ring, unchanged. |
| EndToEnd.SubmitClosedSession | frontend/src/App.tsx:389-393 | Submitting a closed drawing with a blank name sends nothing and keeps the ring. With a real name it sends the trimmed name with the ring, which has at least three points. The dialog returns to its menu either way. Only success resets the session. |

## Left out

- The HTTP layer (`useApi`, `fetch`, the REST routes, `get_object_or_404`, the ORM and the database) is not modelled. Request outcomes and the returned centre are parameters.
- Notifications and their `setTimeout`, the list/map view switch, the disabled KML import button, the stats panel and all markup and styling are not modelled. They hold no logic that the core depends on.
- The map component is not part of this model. Its clicks are the `lat`/`lng` arguments of `HandleMapClick`, with no wrap of longitudes past ±180.
- The refreshes after a create or delete (`fetchPlotNames`, `fetchPlots`) and `list_names` are not modelled as operations. Their failure is part of the `created`/`deleted` outcome, as the conventions above say.
- React's scheduling (batched updates, stale closures, async interleaving of handlers) is not modelled. Each handler runs to completion on the current state.
- The window keydown listener's registration is not modelled. `HandleEscape` is its body.
- The dialog's backdrop click is not modelled beyond `HandleClose`. It compares the event target to the ref object rather than to `modalRef.current`, so as written it never fires.
- Floating point is not modelled: areas, distances and centres are exact reals, and NaN and infinities do not arise. `Models.RoundTo4`: rounds the exact decimal, not the nearest double, so it can differ from Python's `round` in the last binary digit.
- The `created_at`/`updated_at` timestamps and `ordering` are not modelled. They are set by the database and never read by the core.
- `Models.Plot`: stored coordinates are validated point sequences. The `not self.coordinates` guard for a null or non-list value is covered by the length test, since the model has no such values.
- `Views.Center`: sums the stored points as validated pairs. A stored element that is not indexable would raise in Python, and this is not modelled.

## Findings

| source | as written | input that shows it | evidently intended | confidence | as-written member | corrected member |
|---|---|---|---|---|---|---|
| frontend/src/App.tsx:304 | The selected-plot panel passes `handleDeletePlot` straight to `onClick`, so `id` is the click event. `id \|\| selectedPlotId` is then the event object, the delete request targets it instead of the plot, and `targetId === selectedPlotId` never holds. The request goes to `/plots/[object Object]/` (frontend/src/hooks/useApi.ts:57), which names no plot, so the server does not delete anything, `deletePlot` throws, and the as-written button always shows the failure notice. | Plot 7 selected, delete pressed and confirmed: the request names the event, nothing is deleted, and plot 7 stays selected. | `onClick={() => handleDeletePlot()}`, which targets the selected plot and clears the selection after a successful delete. | high (not executed) | App.AppState.HandleSidebarDeleteAsWritten, App.SidebarDeleteScenario | App.AppState.HandleSidebarDelete |
