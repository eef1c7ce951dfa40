/**
 * Short chains of handler calls whose outcome is proved from the handlers'
 * contracts, each showing how the handlers combine, including behaviour a
 * reader might not expect.
 */
module Scenarios {
  import opened Wrappers
  import opened Selection
  import opened Submission
  import opened AddLotMode

  /** Another mode entering makes this one exit without clearing the selection; re-entering shows it again. */
  method ReenterKeepsSelection(p: Parcel, other: string, zoom: real) returns (m: LotAddMap)
    requires other != ModeName
    ensures m.modeOn && m.selectedParcels == [p]
    ensures m.window == Some(Selecting(true, false, [p]))
  {
    m := new LotAddMap();
    m.EnterLotAddMode(zoom);
    var _ := m.ClickParcel(p);
    m.OnEnterMode(other);
    assert m.selectedParcels == [p];
    m.EnterLotAddMode(zoom);
  }

  /** Cancel, unlike an exit caused by another mode, leaves an empty selection for the next session. */
  method CancelThenReenterClears(p: Parcel, zoom: real) returns (m: LotAddMap)
    ensures m.modeOn && m.selectedParcels == [] && m.drawnLots == []
    ensures m.window == Some(Selecting(false, false, []))
  {
    m := new LotAddMap();
    m.EnterLotAddMode(zoom);
    var _ := m.ClickParcel(p);
    m.ClickCancel();
    m.EnterLotAddMode(zoom);
  }

  /** The draw control created in the first session keeps editing that session's group after re-entry. */
  method EditToolbarKeepsFirstGroup(zoom: real) returns (m: LotAddMap)
    ensures m.drawControlVisible && m.groupGeneration == 2 && m.editGroup == 1
  {
    m := new LotAddMap();
    m.EnterLotAddMode(zoom);
    m.EnterDrawLotMode();
    m.ClickCancel();
    m.EnterLotAddMode(zoom);
    m.EnterDrawLotMode();
  }

  /** After the first exit the zoom listener is gone, so zooming no longer moves the hint. */
  method ZoomHintFrozenAfterExit(z1: real, z2: real) returns (m: LotAddMap)
    ensures m.modeOn && !m.zoomHandlerBound
    ensures m.zoomHintShown <==> z1 < ZoomThreshold
  {
    m := new LotAddMap();
    m.EnterLotAddMode(z1);
    m.ClickCancel();
    m.EnterLotAddMode(z1);
    m.OnZoomEnd(z2);
  }

  /** The same holds when the exit was forced by another mode entering. */
  method ZoomHintFrozenAfterForcedExit(other: string, z1: real, z2: real) returns (m: LotAddMap)
    requires other != ModeName
    ensures m.modeOn && !m.zoomHandlerBound
    ensures m.zoomHintShown <==> z1 < ZoomThreshold
  {
    m := new LotAddMap();
    m.EnterLotAddMode(z1);
    m.OnEnterMode(other);
    m.EnterLotAddMode(z1);
    m.OnZoomEnd(z2);
  }

  /** Declining the only prompt sends nothing and disables nothing, but the spinner keeps running. */
  method DeclinedSubmitLeavesSpinner(p: Parcel, csrf: string, zoom: real)
    returns (m: LotAddMap, prompts: seq<Prompt>, req: Option<Request>)
    ensures prompts == [ConfirmParcels] && req.None?
    ensures m.spinnersRunning == 1 && m.outstanding == 0 && !m.buttonsDisabled
  {
    m := new LotAddMap();
    m.EnterLotAddMode(zoom);
    var _ := m.ClickParcel(p);
    prompts, req := m.SubmitLotAdd(csrf, false, true);
  }

  /** A failed create stops its spinner, shows the failure window and keeps the selection. */
  method FailedCreateKeepsSelection(p: Parcel, csrf: string, zoom: real)
    returns (m: LotAddMap, req: Option<Request>)
    ensures req == Some(Request("lots:create_by_parcels", csrf, ByParcels(Payload.Decimal(p.id))))
    ensures m.window == Some(Failed) && m.selectedParcels == [p]
    ensures m.spinnersRunning == 0 && m.outstanding == 0
  {
    m := new LotAddMap();
    m.EnterLotAddMode(zoom);
    var _ := m.ClickParcel(p);
    assert m.selectedParcels == [p] && m.drawnLots == [];
    assert Payload.Ids([p]) == [p.id];
    assert Decide([p], [], true, false).source == Some(ByParcels(Payload.Decimal(p.id)));
    var prompts;
    prompts, req := m.SubmitLotAdd(csrf, true, false);
    m.OnCreateFailed();
  }
}
