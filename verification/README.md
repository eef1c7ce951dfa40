# Add-a-lot mode, modelled in Dafny

This project models the controller behind the "add a lot" mode of a web map
(`src/index.js`). In that mode the user either selects existing land parcels by
clicking them or draws new shapes. They then submit the selection, and the
backend creates one lot record from it.

The controller keeps its state on the map object. The model gives that state
to one class, `AddLotMode.LotAddMap`, with one method per handler:

- `selectedParcels`: the clicked parcels, as `{id, address}` records in click order.
- `drawnLots`: the shapes in the current drawn-shape group.
- `drawControlVisible`: whether the draw control is on the map. Beside it sit
  whether the control exists and which group its edit toolbar works on.
- `window`: the floating window, as the context last given to its template.
- The zoom hint, the `entermode`/`exitmode` notifications fired, and whether
  the buttons are marked disabled.
- The spinners still running and the create requests not yet answered.

The pure parts are separate modules:

- `Selection`: the toggle that a parcel click applies to the list.
- `Payload`: how the selected ids are joined with `,` into the request body.
  A reference splitter and parser read the body back.
- `Submission`: which confirmation prompts appear on submit, and which request,
  if any, is sent.

`Scenarios` chains handler calls and proves the outcome from their contracts.

The browser, the map library, the backend and the user are inputs or outputs:

- The zoom level, the CSRF token and the answers to `confirm()` are parameters.
- The backend's answers are the methods `OnParcelCheckResponse`,
  `OnCreateSucceeded` and `OnCreateFailed`.
- A sent request is a returned `Request` value: the route name, the token, and
  either the joined ids or the drawn shapes.

## Behaviour of the code worth knowing

The model follows the code. These points are behaviour of the code that a
reader of the mode's description might not expect. Some look deliberate (the
cancel handler clears the selection before it exits, src/index.js:252-253,
which suggests a forced exit keeps it on purpose); others, such as the
running spinner, look unintended. The model states each as the code does it:

- Exiting the mode does not clear the selection. Only the cancel control does.
  When another mode enters and then add-a-lot mode is entered again, the old
  selection comes back (`Scenarios.ReenterKeepsSelection`).
- The busy spinner starts on every submit. It is stopped only when a request
  was sent. Declining the prompts leaves it running
  (`Scenarios.DeclinedSubmitLeavesSpinner`).
- The submit handler does not check whether submitting is allowed. With
  nothing selected or drawn it asks nothing and sends nothing, but it still
  starts a spinner (`Submission.NothingToSubmit`).
- Exiting detaches the `zoomend` listener. Entering never attaches it again,
  so after the first exit the hint only changes on entry
  (`Scenarios.ZoomHintFrozenAfterExit`).
- Drawn shapes are not cleared by exiting or by a successful create. Only the
  next entry replaces the group with an empty one.
- The draw control is created once, with the group that is current when the
  control is first shown as the group its edit toolbar works on. Later
  sessions keep that stale group (`Scenarios.EditToolbarKeepsFirstGroup`).
- The close control of the success and failure windows also carries the
  cancel class. A click on it runs the window's own exit handler and then the
  cancel handler, so the mode exits twice and the selection is cleared
  (`ClickCancel`).
- Late answers are not guarded. A create answer that arrives after the mode
  was exited still renders and shows its window.

## Model

| member | source | states |
|---|---|---|
| `Selection.Toggle` | src/index.js:61-79 | the selection after a click; described by `ToggleFacts`, `ToggleFlips`, `ToggleKeepsUnique`, `ToggleRemovesAt`, `ToggleTwiceAbsent`, `ToggleTwicePresent`, `ToggleMembers` and `ToggleCommutes` |
| `Selection.HasId` | src/index.js:61 | true exactly when some entry of the selection carries the clicked id |
| `Selection.Without` | src/index.js:62-64 | the result holds exactly the entries whose id differs, and is never longer |
| `Selection.WithoutAt` | src/index.js:62-64 | with distinct ids, rejecting the id at index k removes that one entry and keeps the others in their order |
| `Selection.ToggleRemovesAt` | src/index.js:61-66 | a click on a selected parcel removes its entry and keeps the remaining entries in order |
| `Selection.ToggleFlips` | src/index.js:61-79 | after a click the id is selected exactly when it was not selected before |
| `Selection.ToggleKeepsUnique` | src/index.js:61-79 | a click keeps the selection free of duplicate ids |
| `Selection.ToggleTwiceAbsent` | src/index.js:61-79 | two clicks on a parcel that was not selected restore the original selection |
| `Selection.ToggleTwicePresent` | src/index.js:61-79 | two clicks on a selected parcel move its entry to the end, with the second click's address |
| `Selection.ToggleFacts` | src/index.js:61-79 | all of the above in one statement: unique ids kept, membership flipped, append at the end or removal in place |
| `Selection.ToggleMembers` | src/index.js:61-79 | an entry is in the result exactly when it was kept, or it is the clicked parcel and that id was absent |
| `Selection.ToggleCommutes` | src/index.js:57-80 | clicks on two different parcels give the same entries in either order |
| `Payload.Decimal` | src/index.js:163 | an id's text is non-empty and made of digits only, so it never contains the separator |
| `Payload.ParseDecimalInverse` | src/index.js:163 | reading an id's decimal text back gives the id |
| `Payload.Ids` | src/index.js:154 | the plucked ids; described by `IdsAt` |
| `Payload.JoinIds` | src/index.js:163 | the comma-joined decimal ids; described by `SplitJoinIds`, `JoinIdsRoundTrip` and `JoinIdsInjective` |
| `Payload.IdsAt` | src/index.js:154 | the plucked id list has one id per entry, in selection order |
| `Payload.SplitCommas` | src/index.js:163 | the reference splitter returns at least one piece, and no piece contains a comma |
| `Payload.SplitJoinIds` | src/index.js:163 | splitting a joined non-empty id list gives back each id's text, in order |
| `Payload.JoinIdsRoundTrip` | src/index.js:163 | a joined non-empty id list parses back to the same ids in the same order |
| `Payload.JoinIdsInjective` | src/index.js:163 | different non-empty id lists are joined into different bodies |
| `Submission.CanSubmit` | src/index.js:190-193 | the window's submit flag; described by `CanSubmitIffRequestPossible` and `NothingToSubmit` |
| `Submission.Decide` | src/index.js:162-171 | the prompts shown and the source chosen on submit; described by `DecideParcelsFirst`, `DecideDrawnSecond`, `DecideRequestIff`, `CanSubmitIffRequestPossible` and `NothingToSubmit` |
| `Submission.Endpoint` | src/index.js:162-169 | the route a body is posted to: `lots:create_by_parcels` for ids, `lots:create_by_geom` for drawn shapes; used by `SubmitLotAdd` |
| `Submission.DecideParcelsFirst` | src/index.js:162-165 | selected and confirmed parcels win: one prompt, and the body parses back to the selected ids in selection order |
| `Submission.DecideDrawnSecond` | src/index.js:166-169 | otherwise the drawn shapes are sent exactly when some exist and the second prompt is confirmed; that prompt appears exactly when shapes exist |
| `Submission.DecideRequestIff` | src/index.js:162-171 | a request is made exactly when one source is present and confirmed |
| `Submission.CanSubmitIffRequestPossible` | src/index.js:189-196 | the window's submit flag is on exactly when some answers to the prompts lead to a request |
| `Submission.NothingToSubmit` | src/index.js:153-187 | with nothing selected or drawn, submit asks nothing and sends nothing, whatever the answers |
| `AddLotMode.HasCloseHandler` | src/index.js:199-221 | whether the window on screen is the success or failure window, whose close control carries its own exit handler; used by `ClickCancel` |
| `AddLotMode.LotAddMap.constructor` | src/index.js:236-269 | a fresh map has an empty selection, no group or draw control, and the zoom listener attached |
| `AddLotMode.LotAddMap.UpdateLotAddWindow` | src/index.js:189-197 | the window shows the selection, whether shapes were drawn, and submit enabled exactly when either is non-empty |
| `AddLotMode.LotAddMap.ClickParcel` | src/index.js:57-81 | an absent parcel is appended at the end and an existence check is sent for its id. A present one is removed and the others keep their order. Ids stay distinct and the window is re-rendered |
| `AddLotMode.LotAddMap.OnParcelCheckResponse` | src/index.js:69-73 | any answer other than "None" opens the popup for that lot. "None" changes nothing |
| `AddLotMode.LotAddMap.EnterDrawLotMode` | src/index.js:97-112 | a no-op when the control is visible. Otherwise the control is visible afterwards, and it is bound to the current group only when newly created |
| `AddLotMode.LotAddMap.RemoveDrawControl` | src/index.js:114-119 | a no-op when the control is hidden. Otherwise the control and the drawn group leave the map |
| `AddLotMode.LotAddMap.LotAddZoomHandler` | src/index.js:132-139 | the hint is shown exactly when the zoom is below 16 |
| `AddLotMode.LotAddMap.OnZoomEnd` | src/index.js:242 | a zoom change moves the hint only while the listener is attached |
| `AddLotMode.LotAddMap.EnterLotAddMode` | src/index.js:121-130 | the parcels are shown and a fresh empty group is started. The window is rendered, the mode is announced, and the hint follows the zoom. The selection is kept |
| `AddLotMode.LotAddMap.NewDrawnGroup` | src/index.js:124 | the new group is empty and on the map |
| `AddLotMode.LotAddMap.ExitLotAddMode` | src/index.js:223-230 | exit is announced and the window hidden. The zoom listener, the parcels and the draw control are removed. Selection and shapes are unchanged |
| `AddLotMode.LotAddMap.OnEnterMode` | src/index.js:244-248 | its own name changes nothing. Any other name makes the mode exit, keeping the selection |
| `AddLotMode.LotAddMap.ClickCancel` | src/index.js:251-256 | the selection is emptied and the mode exits, twice when the success or failure window's own close handler is bound |
| `AddLotMode.LotAddMap.OnDrawCreated` | src/index.js:237-240 | the shape is appended to the group. The window is re-rendered with submit enabled |
| `AddLotMode.LotAddMap.SubmitLotAdd` | src/index.js:153-187 | prompts and request are those of `Decide`, with the route named after the source. One spinner starts. Buttons are disabled and a request is sent only when a source was chosen |
| `AddLotMode.LotAddMap.OnCreateSucceeded` | src/index.js:176-182 | the spinner stops and the success window is rendered with a context carrying the new lot's id (from which the view and edit links are built). Selection and shapes are kept |
| `AddLotMode.LotAddMap.OnCreateFailed` | src/index.js:183-185 | the spinner stops and the failure window is shown. Selection and shapes are kept |
| `Scenarios.ReenterKeepsSelection` | src/index.js:244-253 | exit forced by another mode, then re-entry, shows the earlier selection again |
| `Scenarios.CancelThenReenterClears` | src/index.js:251-253 | cancel, then re-entry, starts with nothing selected or drawn |
| `Scenarios.EditToolbarKeepsFirstGroup` | src/index.js:97-112 | after re-entry the visible draw control still edits the first session's group |
| `Scenarios.ZoomHintFrozenAfterExit` | src/index.js:227 | after an exit and re-entry, zooming leaves the hint as the entry set it |
| `Scenarios.ZoomHintFrozenAfterForcedExit` | src/index.js:244-247 | after an exit forced by another mode and re-entry, zooming leaves the hint as the entry set it |
| `Scenarios.DeclinedSubmitLeavesSpinner` | src/index.js:153-179 | declining the parcel prompt sends nothing and disables nothing, and leaves one spinner running |
| `Scenarios.FailedCreateKeepsSelection` | src/index.js:176-185 | a failed create of one parcel stops its spinner and shows the failure window. The selection is kept |

## Left out

- The DOM work is left out: class toggling, show and hide, and the removal and
  re-insertion of the window. So is the `lotaddwindowchange` event, the
  mouseover status line (src/index.js:83-87) and the parcel styles. The model
  keeps only what the handlers decide: the window content, whether it is
  shown, and whether the buttons are marked disabled.
- The `disabled` marker is only a mark. No handler reads it, so the model lets
  every control be clicked at any time.
- Each re-render creates a new zoom hint element. Its visibility then comes
  from the stylesheet, which is not modelled. The flag records the handler's
  last decision.
- src/templates.js is not part of this model. It is generated template code
  that runs on the template library. The window is modelled as the context
  passed to its template, and the model assumes each template name
  (`window.hbs`, `success.hbs`, `failure.hbs`, `existspopup.hbs`) maps to its
  template, as a build that writes a keyed namespace would produce. The file
  as given does not: its exported function returns at its first `return`
  (src/templates.js:3), so `templates` is the popup template itself and every
  lookup by name is undefined. Read literally, each render call then throws:
  `enterLotAddMode` stops at src/index.js:125 before announcing the mode,
  setting the zoom hint or adding the `on` class; a parcel click changes the
  selection and then throws at src/index.js:80; the success and failure
  windows and the "already in a lot" popup never appear. The model renders
  in all of these places.
- The map library is left out: layers, styles, popups, the draw control's
  options and GeoJSON serialisation. A drawn shape is an opaque value, and
  the geometry body carries the shapes rather than their JSON text. The popup
  records only the lot id, not its position. Groups of earlier sessions left
  on the map are not tracked.
- Routes are kept by name (`lots:create_by_parcels`, `lots:create_by_geom`).
  The view and edit links of the success window are left out; both come from
  the lot id the window carries.
- Network timing is left out. Each answer is a method call, and the model does
  not order answers against other events.
- The `entermode` notification fired by `EnterLotAddMode` is recorded but not
  delivered to listeners. Its delivery to this mode's own listener is
  `OnEnterMode(ModeName)`, which is proved to change nothing. Other modes'
  listeners, and listeners of `exitmode`, are not modelled.
- Handlers that read the drawn group require that a group exists
  (`groupGeneration > 0`). The group is created when the mode is entered, and
  the controls and parcel shapes that trigger these handlers appear only then.
- The selection is shared through the map prototype and the draw-control flag
  is module-global. The model has one map, so sharing across map instances is
  left out.
- The draw control is created with the drawn group as its edit group
  (src/index.js:106-109), so its edit toolbar can also move or delete drawn
  shapes, and no handler re-renders the window afterwards. Those edits are
  not modelled: in the model `drawnLots` only grows (`OnDrawCreated`) or is
  replaced by an empty group (`EnterLotAddMode`).
- The zoom level is a `real`. `getZoom()` returns a JavaScript number, which
  may also be `NaN` or infinite; those values are not modelled.
- Parcel ids are natural numbers written in decimal. JavaScript writes numbers
  of 10^21 or more in exponent form; that case is not modelled.
