/** The delivery details page (`src/pages/DeliveryDetails.tsx`): the
    four-step progress track and the status colour scheme with its
    fallback. */
module DeliveryDetails {
  import opened Common

  /** The keys of the progress track, in order. */
  const StatusSteps: seq<string> := ["pending", "picked_up", "on_route", "delivered"]

  /** `findIndex` of a key: the first position holding it, or -1. */
  function FindIndex(keys: seq<string>, status: string): (r: int)
    ensures -1 <= r < |keys|
    ensures r == -1 <==> status !in keys
    ensures r >= 0 ==> keys[r] == status && forall j :: 0 <= j < r ==> keys[j] != status
  {
    if keys == [] then -1
    else if keys[0] == status then 0
    else
      var i := FindIndex(keys[1..], status);
      if i == -1 then -1 else i + 1
  }

  /** `getCurrentStepIndex`: 0 with no delivery loaded or a status off the
      track, otherwise the status's position on the track. */
  function CurrentStepIndex(status: Option<string>): (r: nat)
    ensures r <= 3
    ensures status.None? ==> r == 0
    ensures status.Some? && status.value in StatusSteps ==> StatusSteps[r] == status.value
    ensures status.Some? && status.value !in StatusSteps ==> r == 0
  {
    match status
    case None => 0
    case Some(s) =>
      var i := FindIndex(StatusSteps, s);
      if i == -1 then 0 else i
  }

  /** The concrete positions: scheduled, on hold, failed and redelivered
      all show as the first step. */
  lemma StepPositions()
    ensures CurrentStepIndex(Some("pending")) == 0 && CurrentStepIndex(Some("picked_up")) == 1
    ensures CurrentStepIndex(Some("on_route")) == 2 && CurrentStepIndex(Some("delivered")) == 3
    ensures CurrentStepIndex(Some("scheduled")) == 0 && CurrentStepIndex(Some("on_hold")) == 0
    ensures CurrentStepIndex(Some("failed")) == 0 && CurrentStepIndex(Some("redelivered")) == 0
  {
    assert StatusSteps[1] == "picked_up";
    assert StatusSteps[2] == "on_route";
    assert StatusSteps[3] == "delivered";
  }

  /** A track step is drawn as reached up to and including the current one,
      and as done strictly before it. */
  predicate StepReached(index: nat, status: Option<string>) {
    index <= CurrentStepIndex(status)
  }

  predicate StepDone(index: nat, status: Option<string>) {
    index < CurrentStepIndex(status)
  }

  /** The first step is always reached; a delivered parcel reaches every
      step, and no other status marks the last one done. */
  lemma TrackShape(status: Option<string>)
    ensures StepReached(0, status)
    ensures status == Some("delivered") ==> forall k: nat :: k < 4 ==> StepReached(k, status)
    ensures !StepDone(3, status)
  {
  }

  datatype StatusStyle = SlateStyle | BlueStyle | IndigoStyle | AmberStyle | GreenStyle | OrangeStyle
                       | RedStyle | PurpleStyle

  /** `statusConfig[status] || statusConfig.pending`: the eight known
      statuses have their own colour scheme; any other falls back to the
      pending one. */
  function StatusStyleOf(status: string): (r: StatusStyle)
    ensures r == SlateStyle <==> status == "pending" || !KnownStatus(status)
    ensures KnownStatus(status) && status != "pending" ==> r != SlateStyle
  {
    if status == "scheduled" then BlueStyle
    else if status == "picked_up" then IndigoStyle
    else if status == "on_route" then AmberStyle
    else if status == "delivered" then GreenStyle
    else if status == "on_hold" then OrangeStyle
    else if status == "failed" then RedStyle
    else if status == "redelivered" then PurpleStyle
    else SlateStyle
  }

  predicate KnownStatus(s: string) {
    s == "pending" || s == "scheduled" || s == "picked_up" || s == "on_route" || s == "delivered"
    || s == "on_hold" || s == "failed" || s == "redelivered"
  }
}
