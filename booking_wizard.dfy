/** The booking wizard page (`src/pages/BookingWizard.tsx`): the catalogue of
    nine delivery services, the per-service list of wizard steps and the
    navigation between them, the price estimate, and the edits the page makes
    to its draft collections (extra stops, e-waste items, shred-container
    quantities, white-glove options, recurring days, the volume choice and the
    container delivery / pickup-only pair of checkboxes). */
module BookingWizard {
  import opened Common

  // ---------------------------------------------------------------------------
  // Service catalogue and steps

  datatype ServiceOption = ServiceOption(id: string, name: string, available: bool)

  /** The services offered, in display order. */
  const ServiceTypeOptions: seq<ServiceOption> := [
    ServiceOption("zoom2u_network", "Zoom2u Network", true),
    ServiceOption("large_freight", "Large Freight", true),
    ServiceOption("recurring", "Recurring Booking", true),
    ServiceOption("multi_stop", "Multi-Pickup / Multi-Delivery", true),
    ServiceOption("white_glove", "White Glove Service", true),
    ServiceOption("signature_service", "Signature Service", true),
    ServiceOption("document_destruction", "Document Destruction", true),
    ServiceOption("rubbish_removal", "Rubbish Removal", true),
    ServiceOption("electronic_recycling", "Electronic Recycling", true)]

  predicate IsServiceId(id: string) {
    id in {"zoom2u_network", "large_freight", "recurring", "multi_stop", "white_glove",
           "signature_service", "document_destruction", "rubbish_removal", "electronic_recycling"}
  }

  /** `serviceTypeOptions.find(s => s.id === id)`. */
  function FindService(options: seq<ServiceOption>, id: string): (r: Option<ServiceOption>)
    ensures r.Some? ==> r.value in options && r.value.id == id
    ensures r.None? <==> forall i :: 0 <= i < |options| ==> options[i].id != id
  {
    if options == [] then None
    else if options[0].id == id then Some(options[0])
    else FindService(options[1..], id)
  }

  /** Every catalogue entry is available, so selecting any listed service
      succeeds and the "coming soon" branch is never taken for them. */
  lemma CatalogueAllAvailable(id: string)
    ensures FindService(ServiceTypeOptions, id).Some? <==> IsServiceId(id)
    ensures FindService(ServiceTypeOptions, id).Some? ==> FindService(ServiceTypeOptions, id).value.available
  {
    var o := ServiceTypeOptions;
    CatalogueIds();
    if IsServiceId(id) {
      assert exists i :: 0 <= i < |o| && o[i].id == id;
    } else {
      assert forall i :: 0 <= i < |o| ==> o[i].id != id;
    }
    forall i | 0 <= i < |o|
      ensures o[i].available
    {
    }
  }

  /** The catalogue lists exactly the nine service ids. */
  lemma CatalogueIds()
    ensures forall id :: IsServiceId(id) <==> exists i :: 0 <= i < |ServiceTypeOptions| && ServiceTypeOptions[i].id == id
  {
    var o := ServiceTypeOptions;
    var ids := ["zoom2u_network", "large_freight", "recurring", "multi_stop", "white_glove",
                "signature_service", "document_destruction", "rubbish_removal", "electronic_recycling"];
    assert forall i :: 0 <= i < 9 ==> o[i].id == ids[i];
    assert forall id :: IsServiceId(id) <==> id in ids;
  }

  datatype StepId =
    | ServiceStep | PickupStep | DropoffStep | PackageStep | ReviewStep | FreightStep | ScheduleStep
    | StopsStep | OptionsStep | DocumentStep | SignatureStep | ReturnStep | ContainersStep
    | LocationStep | RubbishStep | ItemsStep

  datatype Step = Step(id: StepId, title: string)

  /** `getStepsForService` for the selected service (None for no selection).
      Every known service opens with the service step and closes with the
      review, in three to six steps; anything else has the service step alone. */
  function StepsFor(service: Option<string>): (steps: seq<Step>)
    ensures |steps| >= 1 && steps[0].id == ServiceStep
    ensures service.Some? && IsServiceId(service.value) ==>
              3 <= |steps| <= 6 && steps[|steps| - 1].id == ReviewStep
    ensures !(service.Some? && IsServiceId(service.value)) ==> steps == [Step(ServiceStep, "Service")]
  {
    var pickup, dropoff, review := Step(PickupStep, "Pickup"), Step(DropoffStep, "Drop-off"), Step(ReviewStep, "Review");
    var first := Step(ServiceStep, "Service");
    match service
    case None => [first]
    case Some(s) =>
      if s == "zoom2u_network" then
        [Step(ServiceStep, "Service Type"), pickup, dropoff, Step(PackageStep, "Package"), review]
      else if s == "large_freight" then [first, Step(FreightStep, "Freight Details"), pickup, dropoff, review]
      else if s == "recurring" then [first, Step(ScheduleStep, "Schedule"), pickup, dropoff, review]
      else if s == "multi_stop" then [first, Step(StopsStep, "Stops"), review]
      else if s == "white_glove" then [first, Step(OptionsStep, "Options"), pickup, dropoff, review]
      else if s == "signature_service" then
        [first, Step(DocumentStep, "Document"), pickup, Step(SignatureStep, "Signature"),
         Step(ReturnStep, "Return"), review]
      else if s == "document_destruction" then
        [first, Step(ContainersStep, "Containers"), Step(LocationStep, "Location"),
         Step(ScheduleStep, "Schedule"), review]
      else if s == "rubbish_removal" then [first, Step(RubbishStep, "Details"), Step(LocationStep, "Location"), review]
      else if s == "electronic_recycling" then [first, Step(ItemsStep, "Items"), Step(LocationStep, "Location"), review]
      else [first]
  }

  /** The wizard's position is meaningful: a step of the selected service's
      list, and step 0 while nothing is selected. */
  predicate NavValid(service: Option<string>, step: int) {
    0 <= step < |StepsFor(service)|
  }

  /** `handleNext`: one step forward unless already on the last step. */
  function NextStep(service: Option<string>, step: int): (r: int)
    ensures r == step || r == step + 1
    ensures r == step + 1 <==> step < |StepsFor(service)| - 1
    ensures NavValid(service, step) ==> NavValid(service, r)
  {
    if step < |StepsFor(service)| - 1 then step + 1 else step
  }

  /** `handleBack`: one step back, or, at step 0, leave the service choice. */
  datatype Nav = Nav(service: Option<string>, step: int)

  function BackNav(service: Option<string>, step: int): (r: Nav)
    ensures step > 0 ==> r == Nav(service, step - 1)
    ensures step <= 0 ==> r.service == None && r.step == step
    ensures NavValid(service, step) ==> NavValid(r.service, r.step)
  {
    if step > 0 then Nav(service, step - 1) else Nav(None, step)
  }

  /** Back undoes Next wherever Next moved. */
  lemma BackUndoesNext(service: Option<string>, step: int)
    requires NavValid(service, step) && step < |StepsFor(service)| - 1
    ensures BackNav(service, NextStep(service, step)) == Nav(service, step)
  {
  }

  /** Next undoes Back from any step after the first. */
  lemma NextUndoesBack(service: Option<string>, step: int)
    requires NavValid(service, step) && step > 0
    ensures var b := BackNav(service, step);
            b.service == service && NextStep(b.service, b.step) == step
  {
  }

  /** Backing out from step k of a service takes k presses to reach step 0 and
      one more to drop the service. */
  function BackTimes(nav: Nav, k: nat): Nav
    decreases k
  {
    if k == 0 then nav else BackTimes(BackNav(nav.service, nav.step), k - 1)
  }

  lemma {:induction false} BackOutCompletely(service: Option<string>, step: nat)
    ensures BackTimes(Nav(service, step), step) == Nav(service, 0)
    ensures BackTimes(Nav(service, step), step + 1) == Nav(None, 0)
  {
    if step > 0 {
      assert BackNav(service, step) == Nav(service, step - 1);
      BackOutCompletely(service, step - 1);
    }
  }

  /** The progress bar: clicking step `index` goes there only if it lies
      before the current step. */
  function JumpStep(step: int, index: int): (r: int)
    ensures r <= step
    ensures r == index <==> index < step || index == step
    ensures r == step || r == index
  {
    if index < step then index else step
  }

  // ---------------------------------------------------------------------------
  // Draft collections

  datatype Location = Location(streetAddress: string, suburb: string, state: string, postcode: string,
                               contactName: string, phone: string, email: string, notes: string)

  const EmptyLocation := Location("", "", "", "", "", "", "", "")

  datatype EwasteItem = EwasteItem(itemType: string, quantity: int)

  /** The item types offered as quick-add buttons. */
  const QuickAddTypes: set<string> :=
    {"Computer", "Laptop", "Monitor", "TV", "Printer", "Phone", "Tablet", "Server", "Battery"}

  /** Total number of e-waste units over a list of items. */
  function EwasteUnits(items: seq<EwasteItem>): (n: int)
    ensures (forall i :: 0 <= i < |items| ==> items[i].quantity >= 1) ==> n >= |items|
  {
    if items == [] then 0 else EwasteUnits(items[..|items| - 1]) + items[|items| - 1].quantity
  }

  /** No two items share a type other than the empty type of a fresh row. */
  predicate TypesUnique(items: seq<EwasteItem>) {
    forall i, j :: 0 <= i < j < |items| && items[i].itemType == items[j].itemType ==> items[i].itemType == ""
  }

  function HasType(items: seq<EwasteItem>, t: string): bool {
    exists i :: 0 <= i < |items| && items[i].itemType == t
  }

  /** The quick-add button for type t: every item of that type gains one unit
      if there is one, otherwise a new item with one unit is appended. */
  function QuickAdd(items: seq<EwasteItem>, t: string): (r: seq<EwasteItem>)
    ensures !HasType(items, t) ==> r == items + [EwasteItem(t, 1)]
    ensures HasType(items, t) ==>
              && |r| == |items|
              && forall i :: 0 <= i < |items| ==>
                   r[i] == if items[i].itemType == t then items[i].(quantity := items[i].quantity + 1) else items[i]
  {
    if HasType(items, t) then
      seq(|items|, i requires 0 <= i < |items| =>
        if items[i].itemType == t then items[i].(quantity := items[i].quantity + 1) else items[i])
    else items + [EwasteItem(t, 1)]
  }

  lemma {:induction false} EwasteUnitsAppend(items: seq<EwasteItem>, x: EwasteItem)
    ensures EwasteUnits(items + [x]) == EwasteUnits(items) + x.quantity
  {
    assert (items + [x])[..|items|] == items;
  }

  /** Raising the quantity of exactly the items of one type, where exactly one
      item has it, adds one unit in all. */
  lemma {:induction false} EwasteUnitsBump(items: seq<EwasteItem>, r: seq<EwasteItem>, t: string, k: int)
    requires |r| == |items| && 0 <= k < |items| && items[k].itemType == t
    requires forall i :: 0 <= i < |items| && i != k ==> items[i].itemType != t
    requires forall i :: 0 <= i < |items| ==>
               r[i] == if items[i].itemType == t then items[i].(quantity := items[i].quantity + 1) else items[i]
    ensures EwasteUnits(r) == EwasteUnits(items) + 1
    decreases |items|
  {
    var n := |items| - 1;
    if n == k {
      assert r[..n] == items[..n];
    } else {
      EwasteUnitsBump(items[..n], r[..n], t, k);
    }
  }

  /** Quick-add of a named type adds exactly one unit to the order, so the
      electronic-recycling estimate rises by exactly $10. */
  lemma QuickAddAddsOneUnit(items: seq<EwasteItem>, t: string)
    requires TypesUnique(items) && t != ""
    ensures EwasteUnits(QuickAdd(items, t)) == EwasteUnits(items) + 1
    ensures TypesUnique(QuickAdd(items, t))
  {
    if HasType(items, t) {
      var k :| 0 <= k < |items| && items[k].itemType == t;
      EwasteUnitsBump(items, QuickAdd(items, t), t, k);
    } else {
      EwasteUnitsAppend(items, EwasteItem(t, 1));
    }
  }

  /** The minus button on item `index`: one unit fewer, or the item goes
      when it has a single unit left. */
  function DecrementItem(items: seq<EwasteItem>, index: int): (r: seq<EwasteItem>)
    requires 0 <= index < |items|
    ensures items[index].quantity > 1 ==> r == items[index := items[index].(quantity := items[index].quantity - 1)]
    ensures items[index].quantity <= 1 ==> r == items[..index] + items[index + 1..]
  {
    if items[index].quantity > 1 then items[index := items[index].(quantity := items[index].quantity - 1)]
    else RemoveAt(items, index)
  }

  /** Plus then minus on the same item leaves the list as it was. */
  lemma DecrementUndoesIncrement(items: seq<EwasteItem>, index: int)
    requires 0 <= index < |items| && items[index].quantity >= 1
    ensures DecrementItem(items[index := items[index].(quantity := items[index].quantity + 1)], index) == items
  {
  }

  // ---------------------------------------------------------------------------
  // Shred containers

  datatype ContainerOffer = ContainerOffer(id: string, price: real)

  /** The container types on offer with their unit prices. */
  const ShredContainerTypes: seq<ContainerOffer> := [
    ContainerOffer("shred_bag", 33.00),
    ContainerOffer("secure_bin_240", 55.00),
    ContainerOffer("secure_bin_120", 45.00),
    ContainerOffer("archive_box", 8.80),
    ContainerOffer("banker_box", 8.80)]

  /** `shredContainers[id] || 0`. */
  function QtyOf(m: map<string, int>, id: string): int {
    if id in m then m[id] else 0
  }

  /** `updateContainerQty`: add `delta`, never going below zero. */
  function UpdateQty(m: map<string, int>, id: string, delta: int): (r: map<string, int>)
    ensures id in r && r[id] >= 0
    ensures r[id] == if QtyOf(m, id) + delta < 0 then 0 else QtyOf(m, id) + delta
    ensures forall k :: k != id ==> QtyOf(r, k) == QtyOf(m, k)
    ensures r.Keys == m.Keys + {id}
  {
    var q := QtyOf(m, id) + delta;
    m[id := if q < 0 then 0 else q]
  }

  /** One more then one fewer of a container type restores every quantity. */
  lemma RemoveUndoesAdd(m: map<string, int>, id: string)
    requires QtyOf(m, id) >= 0
    ensures forall k :: QtyOf(UpdateQty(UpdateQty(m, id, 1), id, -1), k) == QtyOf(m, k)
  {
  }

  /** Sum of unit price times quantity over the listed container types. */
  function ContainerTotal(types: seq<ContainerOffer>, m: map<string, int>): real {
    if types == [] then 0.0
    else ContainerTotal(types[..|types| - 1], m) + types[|types| - 1].price * QtyOf(m, types[|types| - 1].id) as real
  }

  /** `Object.values(shredContainers).some(q => q > 0)`. */
  predicate AnyPositive(m: map<string, int>) {
    exists k :: k in m && m[k] > 0
  }

  // ---------------------------------------------------------------------------
  // Price estimate

  const DefaultBaseFee: real := 9.90
  const DefaultKmRate: real := 1.80
  const EstimatedDistanceKm: real := 12.5

  /** The number of white-glove extras: assembly, disassembly, packaging,
      unpacking, room placement, debris removal, two-person lift, wait and
      return. */
  const WhiteGloveOptionCount := 8

  function CountSelected(opts: seq<bool>): (n: int)
    ensures 0 <= n <= |opts|
  {
    if opts == [] then 0 else CountSelected(opts[..|opts| - 1]) + (if opts[|opts| - 1] then 1 else 0)
  }

  /** The rubbish volume buttons. */
  const VolumeChoices: set<string> := {"1", "2", "3", "4+"}

  /** `parseFloat(estimatedVolume) || 1` on the values the page can hold: the
      initial empty string (not a number, so 1) and the four buttons (`4+`
      parses as 4). */
  function VolumeFactor(v: string): (r: real)
    ensures 1.0 <= r <= 4.0
  {
    if v == "2" then 2.0 else if v == "3" then 3.0 else if v == "4+" then 4.0 else 1.0
  }

  /** What the price depends on. */
  datatype PriceInputs = PriceInputs(
    service: Option<string>,
    stopCount: nat,
    whiteGloveOptions: seq<bool>,
    shredContainers: map<string, int>,
    requiresDelivery: bool,
    estimatedVolume: string,
    ewasteItems: seq<EwasteItem>)

  datatype Tariff = Tariff(baseFee: real, kmRate: real)

  /** The base fee and per-km rate `calculatePrice` settles on. */
  function ServiceTariff(p: PriceInputs): Tariff {
    var s := p.service.GetOr("");
    if s == "large_freight" then Tariff(89.00, 3.50)
    else if s == "recurring" then Tariff(7.50, DefaultKmRate)
    else if s == "multi_stop" then Tariff(14.90 + p.stopCount as real * 5.00, DefaultKmRate)
    else if s == "white_glove" then Tariff(49.00 + CountSelected(p.whiteGloveOptions) as real * 25.00, DefaultKmRate)
    else if s == "signature_service" then Tariff(29.00, DefaultKmRate)
    else if s == "document_destruction" then
      Tariff(ContainerTotal(ShredContainerTypes, p.shredContainers)
             + (if p.requiresDelivery && AnyPositive(p.shredContainers) then 15.00 else 0.0), 0.0)
    else if s == "rubbish_removal" then Tariff(75.00 + VolumeFactor(p.estimatedVolume) * 50.0, DefaultKmRate)
    else if s == "electronic_recycling" then Tariff(45.00 + EwasteUnits(p.ewasteItems) as real * 10.0, DefaultKmRate)
    else Tariff(DefaultBaseFee, DefaultKmRate)
  }

  /** The estimate shown beside Continue: base fee plus 12.5 km at the rate. */
  function EstimatedPrice(p: PriceInputs): real {
    var t := ServiceTariff(p);
    t.baseFee + EstimatedDistanceKm * t.kmRate
  }

  /** No service, an unknown one and the standard network all cost
      9.90 + 12.5 x 1.80 = 32.40. */
  lemma StandardNetworkPrice(p: PriceInputs)
    requires p.service == Some("zoom2u_network") || p.service == None
             || (p.service.Some? && !IsServiceId(p.service.value))
    ensures EstimatedPrice(p) == 32.40
  {
  }

  /** Multi-stop: 14.90 plus 5.00 per extra stop plus the distance charge;
      each added stop adds exactly 5.00. */
  lemma MultiStopPrice(p: PriceInputs)
    requires p.service == Some("multi_stop")
    ensures EstimatedPrice(p) == 37.40 + 5.00 * p.stopCount as real
    ensures EstimatedPrice(p.(stopCount := p.stopCount + 1)) == EstimatedPrice(p) + 5.00
  {
  }

  /** White glove: 49.00 plus a flat 25.00 per selected extra plus the
      distance charge, whatever the per-option price the page displays. */
  lemma WhiteGlovePrice(p: PriceInputs)
    requires p.service == Some("white_glove")
    ensures EstimatedPrice(p) == 71.50 + 25.00 * CountSelected(p.whiteGloveOptions) as real
    ensures 71.50 <= EstimatedPrice(p) <= 71.50 + 25.00 * |p.whiteGloveOptions| as real
  {
  }

  lemma {:induction false} ContainerTotalNonNegative(types: seq<ContainerOffer>, m: map<string, int>)
    requires forall i :: 0 <= i < |types| ==> types[i].price >= 0.0
    requires forall k :: k in m ==> m[k] >= 0
    ensures ContainerTotal(types, m) >= 0.0
  {
    if types != [] {
      var last := types[|types| - 1];
      ContainerTotalNonNegative(types[..|types| - 1], m);
      assert QtyOf(m, last.id) >= 0;
      assert last.price * QtyOf(m, last.id) as real >= 0.0;
    }
  }

  /** Document destruction has no distance charge: 2 shred bags and 1 archive
      box delivered come to 2 x 33.00 + 8.80 + 15.00 = 89.80. */
  lemma DocumentDestructionExample(p: PriceInputs)
    requires p.service == Some("document_destruction") && p.requiresDelivery
    requires p.shredContainers == map["shred_bag" := 2, "archive_box" := 1]
    ensures EstimatedPrice(p) == 89.80
  {
    var t := ShredContainerTypes;
    var m := p.shredContainers;
    assert QtyOf(m, "shred_bag") == 2 && QtyOf(m, "archive_box") == 1;
    assert QtyOf(m, "secure_bin_240") == 0 && QtyOf(m, "secure_bin_120") == 0 && QtyOf(m, "banker_box") == 0;
    assert ContainerTotal(t[..1], m) == 66.00 by {
      assert t[..1][..0] == [];
    }
    assert ContainerTotal(t[..2], m) == 66.00 by { assert t[..2][..1] == t[..1]; }
    assert ContainerTotal(t[..3], m) == 66.00 by { assert t[..3][..2] == t[..2]; }
    assert ContainerTotal(t[..4], m) == 74.80 by { assert t[..4][..3] == t[..3]; }
    assert ContainerTotal(t[..5], m) == 74.80 by { assert t[..5][..4] == t[..4]; }
    assert t[..5] == t;
    assert AnyPositive(m) by { assert m["shred_bag"] > 0; }
    assert ServiceTariff(p) == Tariff(89.80, 0.0);
  }

  /** Every estimate is non-negative once quantities are. */
  lemma PriceNonNegative(p: PriceInputs)
    requires forall k :: k in p.shredContainers ==> p.shredContainers[k] >= 0
    requires forall i :: 0 <= i < |p.ewasteItems| ==> p.ewasteItems[i].quantity >= 1
    ensures EstimatedPrice(p) >= 0.0
  {
    ContainerTotalNonNegative(ShredContainerTypes, p.shredContainers);
  }

  // ---------------------------------------------------------------------------
  // The page's state

  datatype SelectOutcome = Selected | ComingSoon

  /** Everything the page's handlers read and write. */
  datatype WizardState = WizardState(
    selectedService: Option<string>,
    currentStep: int,
    additionalStops: seq<Location>,
    whiteGloveOptions: seq<bool>,
    shredContainers: map<string, int>,
    requiresDelivery: bool,
    requiresPickupOnly: bool,
    estimatedVolume: string,
    ewasteItems: seq<EwasteItem>,
    recurringDays: seq<string>)

  predicate NoDuplicates(s: seq<string>) {
    forall i, j :: 0 <= i < j < |s| ==> s[i] != s[j]
  }

  /** What every handler keeps true. */
  predicate ValidState(s: WizardState) {
    && NavValid(s.selectedService, s.currentStep)
    && |s.whiteGloveOptions| == WhiteGloveOptionCount
    && (forall k :: k in s.shredContainers ==> s.shredContainers[k] >= 0)
    && !(s.requiresDelivery && s.requiresPickupOnly)
    && (s.estimatedVolume == "" || s.estimatedVolume in VolumeChoices)
    && (forall i :: 0 <= i < |s.ewasteItems| ==> s.ewasteItems[i].quantity >= 1)
    && TypesUnique(s.ewasteItems)
    && NoDuplicates(s.recurringDays)
  }

  /** A quick-add keeps every page invariant. */
  lemma QuickAddKeepsValid(s: WizardState, t: string)
    requires ValidState(s) && t in QuickAddTypes
    ensures ValidState(s.(ewasteItems := QuickAdd(s.ewasteItems, t)))
    ensures EwasteUnits(QuickAdd(s.ewasteItems, t)) == EwasteUnits(s.ewasteItems) + 1
  {
    QuickAddAddsOneUnit(s.ewasteItems, t);
  }

  class Wizard {
    var selectedService: Option<string>
    var currentStep: int
    var additionalStops: seq<Location>
    var whiteGloveOptions: seq<bool>
    var shredContainers: map<string, int>
    var requiresDelivery: bool
    var requiresPickupOnly: bool
    var estimatedVolume: string
    var ewasteItems: seq<EwasteItem>
    var recurringDays: seq<string>

    function State(): WizardState
      reads this
    {
      WizardState(selectedService, currentStep, additionalStops, whiteGloveOptions, shredContainers,
                  requiresDelivery, requiresPickupOnly, estimatedVolume, ewasteItems, recurringDays)
    }

    predicate Valid()
      reads this
    {
      ValidState(State())
    }

    function Inputs(): PriceInputs
      reads this
    {
      PriceInputs(selectedService, |additionalStops|, whiteGloveOptions, shredContainers,
                  requiresDelivery, estimatedVolume, ewasteItems)
    }

    /** The page's initial state: nothing selected, container delivery on. */
    constructor()
      ensures Valid()
      ensures State() == WizardState(None, 0, [], seq(WhiteGloveOptionCount, _ => false), map[],
                                     true, false, "", [], [])
    {
      selectedService := None;
      currentStep := 0;
      additionalStops := [];
      whiteGloveOptions := seq(WhiteGloveOptionCount, _ => false);
      shredContainers := map[];
      requiresDelivery := true;
      requiresPickupOnly := false;
      estimatedVolume := "";
      ewasteItems := [];
      recurringDays := [];
    }

    /** `handleServiceSelect`: an available service is selected and the
        wizard moves to its first form (step 1, past the service step). */
    method ServiceSelect(serviceId: string) returns (outcome: SelectOutcome)
      requires Valid()
      modifies this
      ensures Valid()
      ensures var found := FindService(ServiceTypeOptions, serviceId);
              if found.Some? && found.value.available
              then outcome == Selected
                   && State() == old(State()).(selectedService := Some(serviceId), currentStep := 1)
              else outcome == ComingSoon && State() == old(State())
    {
      var service := FindService(ServiceTypeOptions, serviceId);
      if service.Some? && service.value.available {
        CatalogueAllAvailable(serviceId);
        selectedService := Some(serviceId);
        currentStep := 1;
        outcome := Selected;
      } else {
        outcome := ComingSoon;
      }
    }

    /** `handleNext`. */
    method Next()
      requires Valid()
      modifies this
      ensures Valid()
      ensures State() == old(State()).(currentStep := NextStep(old(selectedService), old(currentStep)))
    {
      var maxSteps := |StepsFor(selectedService)|;
      if currentStep < maxSteps - 1 {
        currentStep := currentStep + 1;
      }
    }

    /** `handleBack`. */
    method Back()
      requires Valid()
      modifies this
      ensures Valid()
      ensures var b := BackNav(old(selectedService), old(currentStep));
              State() == old(State()).(selectedService := b.service, currentStep := b.step)
    {
      if currentStep > 0 {
        currentStep := currentStep - 1;
      } else {
        selectedService := None;
      }
    }

    /** A click on step `index` of the progress bar. */
    method JumpTo(index: nat)
      requires Valid()
      modifies this
      ensures Valid()
      ensures State() == old(State()).(currentStep := JumpStep(old(currentStep), index))
    {
      if index < currentStep {
        currentStep := index;
      }
    }

    /** `addStop`. */
    method AddStop()
      requires Valid()
      modifies this
      ensures Valid()
      ensures State() == old(State()).(additionalStops := old(additionalStops) + [EmptyLocation])
    {
      additionalStops := additionalStops + [EmptyLocation];
    }

    /** `removeStop`: every position but `index` is kept, in order. */
    method RemoveStop(index: int)
      requires Valid()
      modifies this
      ensures Valid()
      ensures State() == old(State()).(additionalStops := RemoveAt(old(additionalStops), index))
    {
      additionalStops := RemoveAt(additionalStops, index);
    }

    /** `updateStop`: only position `index` changes. */
    method UpdateStop(index: int, location: Location)
      requires Valid() && 0 <= index < |additionalStops|
      modifies this
      ensures Valid()
      ensures State() == old(State()).(additionalStops := old(additionalStops)[index := location])
    {
      additionalStops := additionalStops[index := location];
    }

    /** `addEwasteItem`: a fresh row of one unit with no type yet. */
    method AddEwasteItem()
      requires Valid()
      modifies this
      ensures Valid()
      ensures State() == old(State()).(ewasteItems := old(ewasteItems) + [EwasteItem("", 1)])
    {
      ewasteItems := ewasteItems + [EwasteItem("", 1)];
    }

    /** A quick-add button. */
    method QuickAddEwaste(itemType: string)
      requires Valid() && itemType in QuickAddTypes
      modifies this
      ensures Valid()
      ensures State() == old(State()).(ewasteItems := QuickAdd(old(ewasteItems), itemType))
      ensures EwasteUnits(ewasteItems) == EwasteUnits(old(ewasteItems)) + 1
    {
      QuickAddKeepsValid(State(), itemType);
      ewasteItems := QuickAdd(ewasteItems, itemType);
    }

    /** The minus button of item `index`. */
    method DecrementEwaste(index: int)
      requires Valid() && 0 <= index < |ewasteItems|
      modifies this
      ensures Valid()
      ensures State() == old(State()).(ewasteItems := DecrementItem(old(ewasteItems), index))
    {
      var item := ewasteItems[index];
      if item.quantity > 1 {
        ewasteItems := ewasteItems[index := item.(quantity := item.quantity - 1)];
      } else {
        ewasteItems := RemoveAt(ewasteItems, index);
      }
    }

    /** The plus button of item `index`. */
    method IncrementEwaste(index: int)
      requires Valid() && 0 <= index < |ewasteItems|
      modifies this
      ensures Valid()
      ensures State() == old(State()).(ewasteItems := old(ewasteItems)[index := old(ewasteItems)[index].(quantity := old(ewasteItems)[index].quantity + 1)])
    {
      var item := ewasteItems[index];
      ewasteItems := ewasteItems[index := item.(quantity := item.quantity + 1)];
    }

    /** The remove button of item `index`. */
    method RemoveEwaste(index: int)
      requires Valid()
      modifies this
      ensures Valid()
      ensures State() == old(State()).(ewasteItems := RemoveAt(old(ewasteItems), index))
    {
      ewasteItems := RemoveAt(ewasteItems, index);
    }

    /** `updateContainerQty`. */
    method UpdateContainerQty(containerId: string, delta: int)
      requires Valid()
      modifies this
      ensures Valid()
      ensures State() == old(State()).(shredContainers := UpdateQty(old(shredContainers), containerId, delta))
    {
      var currentQty := QtyOf(shredContainers, containerId);
      var newQty := if currentQty + delta < 0 then 0 else currentQty + delta;
      shredContainers := shredContainers[containerId := newQty];
    }

    /** The "deliver empty containers" checkbox: checking it unchecks
        pickup-only. */
    method SetRequiresDelivery(checked: bool)
      requires Valid()
      modifies this
      ensures Valid()
      ensures State() == old(State()).(requiresDelivery := checked,
                                       requiresPickupOnly := if checked then false else old(requiresPickupOnly))
    {
      requiresDelivery := checked;
      if checked {
        requiresPickupOnly := false;
      }
    }

    /** The "pickup only" checkbox: checking it unchecks delivery. */
    method SetRequiresPickupOnly(checked: bool)
      requires Valid()
      modifies this
      ensures Valid()
      ensures State() == old(State()).(requiresPickupOnly := checked,
                                       requiresDelivery := if checked then false else old(requiresDelivery))
    {
      requiresPickupOnly := checked;
      if checked {
        requiresDelivery := false;
      }
    }

    /** A white-glove option checkbox. */
    method SetWhiteGloveOption(option: int, checked: bool)
      requires Valid() && 0 <= option < WhiteGloveOptionCount
      modifies this
      ensures Valid()
      ensures State() == old(State()).(whiteGloveOptions := old(whiteGloveOptions)[option := checked])
    {
      whiteGloveOptions := whiteGloveOptions[option := checked];
    }

    /** A rubbish volume button. */
    method SetEstimatedVolume(volume: string)
      requires Valid() && volume in VolumeChoices
      modifies this
      ensures Valid()
      ensures State() == old(State()).(estimatedVolume := volume)
    {
      estimatedVolume := volume;
    }

    /** A weekday button of a recurring booking: removes the day if chosen,
        adds it at the end otherwise. */
    method ToggleRecurringDay(day: string)
      requires Valid()
      modifies this
      ensures Valid()
      ensures day in old(recurringDays) ==>
                State() == old(State()).(recurringDays := Filter(old(recurringDays), d => d != day))
      ensures day !in old(recurringDays) ==>
                State() == old(State()).(recurringDays := old(recurringDays) + [day])
      ensures forall d :: d in recurringDays <==> (d in old(recurringDays) <==> d != day)
    {
      if day in recurringDays {
        FilterIsSubsequence(recurringDays, d => d != day);
        SubsequenceNoDuplicates(Filter(recurringDays, d => d != day), recurringDays);
        recurringDays := Filter(recurringDays, d => d != day);
      } else {
        recurringDays := recurringDays + [day];
      }
    }

    /** `calculatePrice`: the switch over the selected service with its
        `forEach` accumulations. */
    method CalculatePrice() returns (price: real)
      ensures price == EstimatedPrice(Inputs())
    {
      var baseFee := DefaultBaseFee;
      var kmRate := DefaultKmRate;
      var s := selectedService.GetOr("");
      if s == "large_freight" {
        baseFee := 89.00;
        kmRate := 3.50;
      } else if s == "recurring" {
        baseFee := 7.50;
      } else if s == "multi_stop" {
        baseFee := 14.90;
        baseFee := baseFee + |additionalStops| as real * 5.00;
      } else if s == "white_glove" {
        baseFee := 49.00;
        var i := 0;
        while i < |whiteGloveOptions|
          invariant 0 <= i <= |whiteGloveOptions|
          invariant baseFee == 49.00 + CountSelected(whiteGloveOptions[..i]) as real * 25.00
        {
          assert whiteGloveOptions[..i + 1][..i] == whiteGloveOptions[..i];
          if whiteGloveOptions[i] {
            baseFee := baseFee + 25.00;
          }
          i := i + 1;
        }
        assert whiteGloveOptions[..i] == whiteGloveOptions;
      } else if s == "signature_service" {
        baseFee := 29.00;
      } else if s == "document_destruction" {
        baseFee := 0.0;
        var i := 0;
        while i < |ShredContainerTypes|
          invariant 0 <= i <= |ShredContainerTypes|
          invariant baseFee == ContainerTotal(ShredContainerTypes[..i], shredContainers)
        {
          var container := ShredContainerTypes[i];
          var qty := QtyOf(shredContainers, container.id);
          assert ShredContainerTypes[..i + 1][..i] == ShredContainerTypes[..i];
          baseFee := baseFee + container.price * qty as real;
          i := i + 1;
        }
        assert ShredContainerTypes[..i] == ShredContainerTypes;
        if requiresDelivery {
          var some := AnyPositiveQty(shredContainers);
          if some {
            baseFee := baseFee + 15.00;
          }
        }
        kmRate := 0.0;
      } else if s == "rubbish_removal" {
        var volume := VolumeFactor(estimatedVolume);
        baseFee := 75.00 + volume * 50.0;
      } else if s == "electronic_recycling" {
        baseFee := 45.00;
        var i := 0;
        while i < |ewasteItems|
          invariant 0 <= i <= |ewasteItems|
          invariant baseFee == 45.00 + EwasteUnits(ewasteItems[..i]) as real * 10.0
        {
          assert ewasteItems[..i + 1][..i] == ewasteItems[..i];
          baseFee := baseFee + (ewasteItems[i].quantity * 10) as real;
          i := i + 1;
        }
        assert ewasteItems[..i] == ewasteItems;
      }
      price := baseFee + EstimatedDistanceKm * kmRate;
    }
  }

  /** `Object.values(m).some(q => q > 0)`, key by key. */
  method AnyPositiveQty(m: map<string, int>) returns (found: bool)
    ensures found == AnyPositive(m)
  {
    found := false;
    var keys := m.Keys;
    while keys != {} && !found
      invariant keys <= m.Keys
      invariant found ==> AnyPositive(m)
      invariant !found ==> forall k :: k in m && k !in keys ==> m[k] <= 0
      decreases |keys|
    {
      var k :| k in keys;
      if m[k] > 0 {
        found := true;
      }
      keys := keys - {k};
    }
  }

  lemma {:induction false} SubsequenceNoDuplicates(r: seq<string>, s: seq<string>)
    requires IsSubsequence(r, s) && NoDuplicates(s)
    ensures NoDuplicates(r)
    decreases |s|
  {
    if r != [] && s != [] {
      assert NoDuplicates(s[1..]);
      if r[0] == s[0] {
        SubsequenceNoDuplicates(r[1..], s[1..]);
        SubsequenceElements(r[1..], s[1..]);
        forall j | 1 <= j < |r|
          ensures r[0] != r[j]
        {
          assert r[j] == r[1..][j - 1];
        }
        assert NoDuplicates(r) by {
          forall i, j | 0 <= i < j < |r|
            ensures r[i] != r[j]
          {
            if i > 0 {
              assert r[i] == r[1..][i - 1] && r[j] == r[1..][j - 1];
            }
          }
        }
      } else {
        SubsequenceNoDuplicates(r, s[1..]);
      }
    }
  }

  lemma {:induction false} SubsequenceElements<T>(r: seq<T>, s: seq<T>)
    requires IsSubsequence(r, s)
    ensures forall i :: 0 <= i < |r| ==> r[i] in s
    decreases |s|
  {
    if r != [] && s != [] {
      if r[0] == s[0] {
        SubsequenceElements(r[1..], s[1..]);
        forall i | 1 <= i < |r|
          ensures r[i] in s
        {
          assert r[i] == r[1..][i - 1];
        }
      } else {
        SubsequenceElements(r, s[1..]);
      }
    }
  }
}
