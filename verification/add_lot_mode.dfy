/**
 * The add-a-lot controller that extends the map: the selection, the group of
 * drawn shapes, the draw control, the floating window, the zoom hint and the
 * create request, with one method per handler.
 *
 * The browser side is reduced to what the handlers record: the window is the
 * context passed to its template, the draw control and layers are flags, the
 * spinner is a count of spinners started and not yet stopped, the zoom level,
 * the CSRF token and the answers to the two prompts are parameters.
 */
module AddLotMode {
  import opened Wrappers
  import opened Selection
  import opened Payload
  import opened Submission

  /** The name this mode announces in `entermode` and `exitmode`. */
  const ModeName := "addlot"

  /** Below this zoom level the "zoom in" hint is shown; zoom levels are numbers and may be fractional. */
  const ZoomThreshold: real := 16.0

  /** The content of the floating window, as last rendered. */
  datatype Window =
    | Selecting(canSubmit: bool, drawnLots: bool, parcels: seq<Parcel>)
    | Succeeded(pk: string)
    | Failed

  /** The success and failure windows bind an exit handler directly to their close control. */
  predicate HasCloseHandler(w: Option<Window>)
  {
    w.Some? && (w.value.Succeeded? || w.value.Failed?)
  }

  /** The mode notifications the map fires to other listeners. */
  datatype ModeEvent = EnterMode(name: string) | ExitMode(name: string)

  class LotAddMap {
    /** `selectedParcels`, in click order. */
    var selectedParcels: seq<Parcel>
    /** The layers of the current `_drawnLots` group. */
    var drawnLots: seq<DrawnShape>
    /** How many `_drawnLots` groups were created; the current one is number `groupGeneration`, 0 means none yet. */
    var groupGeneration: nat
    /** Whether the current group is on the map. */
    var drawnGroupOnMap: bool
    /** Whether `_drawControl` exists. */
    var drawControlCreated: bool
    /** The flag `drawControlVisible`: the draw control is on the map. */
    var drawControlVisible: bool
    /** The group the draw control's edit toolbar was given when it was created. */
    var editGroup: nat
    /** Whether the parcels layer is on the map. */
    var parcelsLayerOn: bool
    /** Whether the `zoomend` listener is attached. */
    var zoomHandlerBound: bool
    /** Whether the "zoom in to see parcel outlines" hint is shown. */
    var zoomHintShown: bool
    /** The window content last rendered; `None` before the first rendering. */
    var window: Option<Window>
    /** Whether the window container is shown (exit hides it). */
    var windowShown: bool
    /** Whether the window's parent carries the `on` class. */
    var modeOn: bool
    /** The `entermode`/`exitmode` notifications fired so far. */
    var events: seq<ModeEvent>
    /** Whether submission has marked the cancel, draw and submit buttons disabled. */
    var buttonsDisabled: bool
    /** Spinners started and not stopped. */
    var spinnersRunning: nat
    /** Create requests sent and not yet answered. */
    var outstanding: nat
    /** The lot id shown by the "parcel already in a lot" popup, if one was opened. */
    var existsPopup: Option<string>

    ghost predicate Valid()
      reads this
    {
      && UniqueIds(selectedParcels)
      && (groupGeneration == 0 ==> drawnLots == [] && !drawnGroupOnMap && !drawControlCreated)
      && (drawControlVisible ==> drawControlCreated && drawnGroupOnMap)
      && (groupGeneration > 0 && !drawControlCreated ==> drawnGroupOnMap)
      && (drawControlCreated ==> 1 <= editGroup <= groupGeneration)
      && outstanding <= spinnersRunning
    }

    /** A map with the prototype's empty selection and the handlers of the init hook attached. */
    constructor ()
      ensures Valid()
      ensures selectedParcels == [] && drawnLots == [] && groupGeneration == 0
      ensures !drawControlCreated && !drawControlVisible && !parcelsLayerOn && !drawnGroupOnMap
      ensures zoomHandlerBound && !zoomHintShown
      ensures window.None? && !windowShown && !modeOn && events == []
      ensures !buttonsDisabled && spinnersRunning == 0 && outstanding == 0 && existsPopup.None?
    {
      selectedParcels := [];
      drawnLots := [];
      groupGeneration := 0;
      drawnGroupOnMap := false;
      drawControlCreated := false;
      drawControlVisible := false;
      editGroup := 0;
      parcelsLayerOn := false;
      zoomHandlerBound := true;
      zoomHintShown := false;
      window := None;
      windowShown := false;
      modeOn := false;
      events := [];
      buttonsDisabled := false;
      spinnersRunning := 0;
      outstanding := 0;
      existsPopup := None;
    }

    /** `updateLotAddWindow`: re-renders the selection window from the current state. */
    method UpdateLotAddWindow()
      requires Valid() && groupGeneration > 0
      modifies this`window, this`windowShown, this`buttonsDisabled
      ensures Valid()
      ensures window == Some(Selecting(CanSubmit(|drawnLots|, selectedParcels), |drawnLots| > 0, selectedParcels))
      ensures windowShown && !buttonsDisabled
    {
      var drawn := |drawnLots| > 0;
      window := Some(Selecting(drawn || |selectedParcels| > 0, drawn, selectedParcels));
      windowShown := true;
      buttonsDisabled := false;
    }

    /**
     * A click on a parcel shape. An unselected parcel is appended and an
     * existence check is sent for its id (returned as `check`); a selected one
     * is removed. Either way the window is re-rendered.
     */
    method ClickParcel(p: Parcel) returns (check: Option<nat>)
      requires Valid() && groupGeneration > 0
      modifies this`selectedParcels, this`window, this`windowShown, this`buttonsDisabled
      ensures Valid()
      ensures selectedParcels == Toggle(old(selectedParcels), p)
      ensures !HasId(old(selectedParcels), p.id) ==>
        selectedParcels == old(selectedParcels) + [p] && check == Some(p.id)
      ensures HasId(old(selectedParcels), p.id) ==> (check.None? &&
        forall k :: 0 <= k < |old(selectedParcels)| && old(selectedParcels)[k].id == p.id ==>
          selectedParcels == old(selectedParcels)[..k] + old(selectedParcels)[k + 1..])
      ensures HasId(selectedParcels, p.id) <==> !HasId(old(selectedParcels), p.id)
      ensures window == Some(Selecting(CanSubmit(|drawnLots|, selectedParcels), |drawnLots| > 0, selectedParcels))
      ensures windowShown && !buttonsDisabled
    {
      ToggleFacts(selectedParcels, p);
      if HasId(selectedParcels, p.id) {
        selectedParcels := Without(selectedParcels, p.id);
        check := None;
      } else {
        check := Some(p.id);
        selectedParcels := selectedParcels + [p];
      }
      UpdateLotAddWindow();
    }

    /** The answer to the existence check: any answer but "None" is a lot id, shown in a popup. */
    method OnParcelCheckResponse(data: string)
      modifies this`existsPopup
      ensures data != "None" ==> existsPopup == Some(data)
      ensures data == "None" ==> existsPopup == old(existsPopup)
    {
      if data != "None" {
        existsPopup := Some(data);
      }
    }

    /**
     * `enterDrawLotMode`: shows the draw control, creating it on first use
     * with the current group as the group its edit toolbar works on.
     */
    method EnterDrawLotMode()
      requires Valid() && groupGeneration > 0
      modifies this`drawControlVisible, this`drawControlCreated, this`editGroup, this`drawnGroupOnMap
      ensures Valid()
      ensures old(drawControlVisible) ==> unchanged(this)
      ensures drawControlVisible && drawControlCreated && drawnGroupOnMap
      ensures editGroup == if old(drawControlCreated) then old(editGroup) else groupGeneration
    {
      if drawControlVisible {
        return;
      }
      if drawControlCreated {
        drawnGroupOnMap := true;
        drawControlVisible := true;
        return;
      }
      editGroup := groupGeneration;
      drawControlCreated := true;
      drawControlVisible := true;
    }

    /** `removeDrawControl`: takes the draw control and the drawn group off the map. */
    method RemoveDrawControl()
      requires Valid()
      modifies this`drawControlVisible, this`drawnGroupOnMap
      ensures Valid()
      ensures !old(drawControlVisible) ==> unchanged(this)
      ensures !drawControlVisible
      ensures old(drawControlVisible) ==> !drawnGroupOnMap
    {
      if !drawControlVisible {
        return;
      }
      drawControlVisible := false;
      drawnGroupOnMap := false;
    }

    /** `lotAddZoomHandler`: the hint is shown exactly below the threshold. */
    method LotAddZoomHandler(zoom: real)
      modifies this`zoomHintShown
      ensures zoomHintShown <==> zoom < ZoomThreshold
    {
      if zoom < ZoomThreshold {
        zoomHintShown := true;
      } else {
        zoomHintShown := false;
      }
    }

    /** A `zoomend` event: reaches the zoom handler only while it is attached. */
    method OnZoomEnd(zoom: real)
      modifies this`zoomHintShown
      ensures zoomHandlerBound ==> (zoomHintShown <==> zoom < ZoomThreshold)
      ensures !zoomHandlerBound ==> zoomHintShown == old(zoomHintShown)
    {
      if zoomHandlerBound {
        LotAddZoomHandler(zoom);
      }
    }

    /**
     * `enterLotAddMode`: shows the parcels, starts a fresh empty drawn group,
     * renders the window, announces the mode and sets the zoom hint. The
     * selection is kept as it was.
     */
    method EnterLotAddMode(zoom: real)
      requires Valid()
      modifies this`parcelsLayerOn, this`groupGeneration, this`drawnLots, this`drawnGroupOnMap,
        this`window, this`windowShown, this`buttonsDisabled, this`events, this`modeOn,
        this`zoomHintShown
      ensures Valid()
      ensures parcelsLayerOn && modeOn && windowShown && !buttonsDisabled
      ensures groupGeneration == old(groupGeneration) + 1 && drawnLots == [] && drawnGroupOnMap
      ensures selectedParcels == old(selectedParcels)
      ensures window == Some(Selecting(|selectedParcels| > 0, false, selectedParcels))
      ensures events == old(events) + [EnterMode(ModeName)]
      ensures zoomHintShown <==> zoom < ZoomThreshold
    {
      parcelsLayerOn := true;
      NewDrawnGroup();
      UpdateLotAddWindow();
      // `fire('entermode', ...)`: other modes' listeners exit; this mode's own
      // listener, OnEnterMode, leaves everything as it is for its own name.
      events := events + [EnterMode(ModeName)];
      LotAddZoomHandler(zoom);
      modeOn := true;
    }

    /** `_drawnLots = L.featureGroup().addTo(map)`: a fresh empty group of drawn shapes, put on the map. */
    method NewDrawnGroup()
      requires Valid()
      modifies this`groupGeneration, this`drawnLots, this`drawnGroupOnMap
      ensures Valid()
      ensures groupGeneration == old(groupGeneration) + 1 && drawnLots == [] && drawnGroupOnMap
    {
      groupGeneration := groupGeneration + 1;
      drawnLots := [];
      drawnGroupOnMap := true;
    }

    /**
     * `exitLotAddMode`: announces the exit, hides the window, detaches the zoom
     * listener, removes the parcels and the draw control. The selection is kept.
     */
    method ExitLotAddMode()
      requires Valid()
      modifies this`modeOn, this`events, this`windowShown, this`zoomHandlerBound,
        this`parcelsLayerOn, this`drawControlVisible, this`drawnGroupOnMap
      ensures Valid()
      ensures !modeOn && !windowShown && !zoomHandlerBound && !parcelsLayerOn && !drawControlVisible
      ensures events == old(events) + [ExitMode(ModeName)]
      ensures selectedParcels == old(selectedParcels) && drawnLots == old(drawnLots)
      ensures drawnGroupOnMap == (old(drawnGroupOnMap) && !old(drawControlVisible))
    {
      modeOn := false;
      events := events + [ExitMode(ModeName)];
      windowShown := false;
      zoomHandlerBound := false;
      parcelsLayerOn := false;
      RemoveDrawControl();
    }

    /** An `entermode` notification: any other mode entering makes this one exit. */
    method OnEnterMode(name: string)
      requires Valid()
      modifies this`modeOn, this`events, this`windowShown, this`zoomHandlerBound,
        this`parcelsLayerOn, this`drawControlVisible, this`drawnGroupOnMap
      ensures Valid()
      ensures name == ModeName ==> unchanged(this)
      ensures name != ModeName ==>
        !modeOn && !windowShown && !parcelsLayerOn && !drawControlVisible &&
        events == old(events) + [ExitMode(ModeName)]
      ensures name != ModeName ==>
        !zoomHandlerBound && drawnGroupOnMap == (old(drawnGroupOnMap) && !old(drawControlVisible))
      ensures selectedParcels == old(selectedParcels)
    {
      if name != ModeName {
        ExitLotAddMode();
      }
    }

    /**
     * A click on a control with the cancel class: empties the selection and
     * exits. The close control of the success and failure windows has that
     * class too and carries its own exit handler, which runs first.
     */
    method ClickCancel()
      requires Valid()
      modifies this`selectedParcels, this`modeOn, this`events, this`windowShown, this`zoomHandlerBound,
        this`parcelsLayerOn, this`drawControlVisible, this`drawnGroupOnMap
      ensures Valid()
      ensures selectedParcels == [] && drawnLots == old(drawnLots)
      ensures !modeOn && !windowShown && !parcelsLayerOn && !drawControlVisible && !zoomHandlerBound
      ensures drawnGroupOnMap == (old(drawnGroupOnMap) && !old(drawControlVisible))
      ensures events == old(events) +
        if HasCloseHandler(old(window)) then [ExitMode(ModeName), ExitMode(ModeName)] else [ExitMode(ModeName)]
    {
      if HasCloseHandler(window) {
        ExitLotAddMode();
      }
      selectedParcels := [];
      ExitLotAddMode();
    }

    /** `draw:created`: the new shape joins the current group and the window is re-rendered. */
    method OnDrawCreated(shape: DrawnShape)
      requires Valid() && groupGeneration > 0
      modifies this`drawnLots, this`window, this`windowShown, this`buttonsDisabled
      ensures Valid()
      ensures drawnLots == old(drawnLots) + [shape]
      ensures window == Some(Selecting(true, true, selectedParcels))
      ensures windowShown && !buttonsDisabled
    {
      drawnLots := drawnLots + [shape];
      UpdateLotAddWindow();
    }

    /**
     * `submitLotAdd`: starts a spinner, asks the prompts the state calls for
     * (`okParcels` and `okDrawn` are the answers) and, when a source was
     * chosen, disables the buttons and sends one create request.
     */
    method SubmitLotAdd(csrf: string, okParcels: bool, okDrawn: bool) returns (prompts: seq<Prompt>, req: Option<Request>)
      requires Valid() && groupGeneration > 0
      modifies this`spinnersRunning, this`outstanding, this`buttonsDisabled
      ensures Valid()
      ensures var d := Decide(selectedParcels, drawnLots, okParcels, okDrawn);
        prompts == d.prompts &&
        (req.Some? <==> d.source.Some?) &&
        (req.Some? ==> req.value == Request(Endpoint(d.source.value), csrf, d.source.value))
      ensures spinnersRunning == old(spinnersRunning) + 1
      ensures outstanding == old(outstanding) + (if req.Some? then 1 else 0)
      ensures buttonsDisabled == (req.Some? || old(buttonsDisabled))
    {
      var parcelPks := Ids(selectedParcels);
      IdsAt(selectedParcels);
      spinnersRunning := spinnersRunning + 1;
      var url: Option<string> := None;
      var body: Source := ByGeometry([]);
      prompts := [];
      var takeParcels := false;
      if |parcelPks| > 0 {
        prompts := prompts + [ConfirmParcels];
        takeParcels := okParcels;
      }
      if takeParcels {
        body := ByParcels(JoinIds(parcelPks));
        url := Some("lots:create_by_parcels");
      } else {
        var takeDrawn := false;
        if |drawnLots| > 0 {
          prompts := prompts + [ConfirmDrawn];
          takeDrawn := okDrawn;
        }
        if takeDrawn {
          body := ByGeometry(drawnLots);
          url := Some("lots:create_by_geom");
        }
      }
      if url.Some? {
        buttonsDisabled := true;
        outstanding := outstanding + 1;
        req := Some(Request(url.value, csrf, body));
      } else {
        req := None;
      }
    }

    /** A create request succeeded with lot id `pk`: stop its spinner, show the success window. */
    method OnCreateSucceeded(pk: string)
      requires Valid() && outstanding > 0
      modifies this`spinnersRunning, this`outstanding, this`window, this`windowShown, this`buttonsDisabled
      ensures Valid()
      ensures spinnersRunning == old(spinnersRunning) - 1 && outstanding == old(outstanding) - 1
      ensures window == Some(Succeeded(pk)) && windowShown && !buttonsDisabled
      ensures selectedParcels == old(selectedParcels) && drawnLots == old(drawnLots)
    {
      spinnersRunning := spinnersRunning - 1;
      outstanding := outstanding - 1;
      window := Some(Succeeded(pk));
      windowShown := true;
      buttonsDisabled := false;
    }

    /** A create request failed: stop its spinner, show the failure window. */
    method OnCreateFailed()
      requires Valid() && outstanding > 0
      modifies this`spinnersRunning, this`outstanding, this`window, this`windowShown, this`buttonsDisabled
      ensures Valid()
      ensures spinnersRunning == old(spinnersRunning) - 1 && outstanding == old(outstanding) - 1
      ensures window == Some(Failed) && windowShown && !buttonsDisabled
      ensures selectedParcels == old(selectedParcels) && drawnLots == old(drawnLots)
    {
      spinnersRunning := spinnersRunning - 1;
      outstanding := outstanding - 1;
      window := Some(Failed);
      windowShown := true;
      buttonsDisabled := false;
    }
  }
}
