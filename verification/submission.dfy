/**
 * What a click on "add lot" decides: which confirmation prompts are shown,
 * and which create request, if any, is sent. The answers the user would give
 * to the two prompts are inputs.
 */
module Submission {
  import opened Wrappers
  import opened Selection
  import opened Payload

  /** A shape the user drew; its geometry belongs to the drawing library and is left opaque. */
  datatype DrawnShape = DrawnShape(layerId: nat)

  /** The two confirmation prompts, in the order they can appear. */
  datatype Prompt = ConfirmParcels | ConfirmDrawn

  /** The body of a create request: the comma-joined parcel ids, or the drawn shapes. */
  datatype Source = ByParcels(pks: string) | ByGeometry(shapes: seq<DrawnShape>)

  /** The prompts shown, in order, and the source chosen (`None`: no request). */
  datatype Decision = Decision(prompts: seq<Prompt>, source: Option<Source>)

  /** A create request as sent: the named route, the CSRF token and the body. */
  datatype Request = Request(url: string, csrf: string, body: Source)

  /** The named backend route a request body is posted to. */
  function Endpoint(s: Source): string
  {
    match s
    case ByParcels(_) => "lots:create_by_parcels"
    case ByGeometry(_) => "lots:create_by_geom"
  }

  /** Whether the window offers the submit control: something drawn or something selected. */
  function CanSubmit(drawnCount: nat, parcels: seq<Parcel>): bool
  {
    drawnCount > 0 || |parcels| > 0
  }

  /**
   * The choice made on submit. The parcel prompt is shown only when parcels are
   * selected; the drawn-shape prompt only when the parcel source was not taken
   * and a shape was drawn (`&&` short-circuits before `confirm` is called).
   */
  function Decide(parcels: seq<Parcel>, drawn: seq<DrawnShape>, okParcels: bool, okDrawn: bool): Decision
  {
    var first := if |parcels| > 0 then [ConfirmParcels] else [];
    if |parcels| > 0 && okParcels then
      Decision(first, Some(ByParcels(JoinIds(Ids(parcels)))))
    else
      var second := if |drawn| > 0 then [ConfirmDrawn] else [];
      if |drawn| > 0 && okDrawn then Decision(first + second, Some(ByGeometry(drawn)))
      else Decision(first + second, None)
  }

  /** Parcels win: selected and confirmed, the request carries exactly the selected ids in selection order. */
  lemma DecideParcelsFirst(parcels: seq<Parcel>, drawn: seq<DrawnShape>, okDrawn: bool)
    requires |parcels| > 0
    ensures var d := Decide(parcels, drawn, true, okDrawn);
      d.prompts == [ConfirmParcels] && d.source.Some? && d.source.value.ByParcels? &&
      ParseIds(d.source.value.pks) == Some(Ids(parcels)) &&
      |Ids(parcels)| == |parcels| &&
      forall i :: 0 <= i < |parcels| ==> Ids(parcels)[i] == parcels[i].id
  {
    IdsAt(parcels);
    assert Ids(parcels) != [];
    JoinIdsRoundTrip(Ids(parcels));
  }

  /** Otherwise the drawn shapes are posted when some were drawn and the second prompt is confirmed. */
  lemma DecideDrawnSecond(parcels: seq<Parcel>, drawn: seq<DrawnShape>, okParcels: bool, okDrawn: bool)
    requires !(|parcels| > 0 && okParcels)
    ensures var d := Decide(parcels, drawn, okParcels, okDrawn);
      (d.source == Some(ByGeometry(drawn)) <==> |drawn| > 0 && okDrawn) &&
      (d.source.None? <==> !(|drawn| > 0 && okDrawn)) &&
      (ConfirmDrawn in d.prompts <==> |drawn| > 0)
  {
  }

  /** A request is made exactly when one of the two sources is both present and confirmed. */
  lemma DecideRequestIff(parcels: seq<Parcel>, drawn: seq<DrawnShape>, okParcels: bool, okDrawn: bool)
    ensures Decide(parcels, drawn, okParcels, okDrawn).source.Some? <==>
      (|parcels| > 0 && okParcels) || (|drawn| > 0 && okDrawn)
  {
  }

  /** The submit control is offered exactly when some answers to the prompts lead to a request. */
  lemma CanSubmitIffRequestPossible(parcels: seq<Parcel>, drawn: seq<DrawnShape>)
    ensures CanSubmit(|drawn|, parcels) <==>
      exists okParcels: bool, okDrawn: bool :: Decide(parcels, drawn, okParcels, okDrawn).source.Some?
  {
    if CanSubmit(|drawn|, parcels) {
      assert Decide(parcels, drawn, true, true).source.Some?;
    }
  }

  /** With nothing selected or drawn, submit asks nothing and sends nothing, whatever the answers. */
  lemma NothingToSubmit(parcels: seq<Parcel>, drawn: seq<DrawnShape>, okParcels: bool, okDrawn: bool)
    requires !CanSubmit(|drawn|, parcels)
    ensures Decide(parcels, drawn, okParcels, okDrawn) == Decision([], None)
  {
  }
}
