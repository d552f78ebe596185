/** The delivery store (`src/stores/deliveryStore.ts`): the delivery list with
    its filters, and the booking flow's draft, batch list, step and
    estimates. Each action replaces some fields of the store and keeps the
    others. */
module DeliveryStore {
  import opened Common
  import opened Types

  /** A JSON-like field value of a delivery row or a partial address. */
  datatype Value = Str(s: string) | Num(n: real) | Bool(b: bool) | Null

  /** A delivery row: its id and its other columns by name. */
  datatype Delivery = Delivery(id: string, fields: map<string, Value>)

  /** `Partial<Delivery>`: the columns an update supplies. */
  datatype DeliveryPatch = DeliveryPatch(id: Option<string>, fields: map<string, Value>)

  /** `{ ...d, ...updates }`: supplied columns win, the rest are kept. */
  function MergeDelivery(d: Delivery, updates: DeliveryPatch): (r: Delivery)
    ensures r.id == updates.id.GetOr(d.id)
    ensures r.fields.Keys == d.fields.Keys + updates.fields.Keys
    ensures forall k :: k in updates.fields ==> r.fields[k] == updates.fields[k]
    ensures forall k :: k in d.fields && k !in updates.fields ==> r.fields[k] == d.fields[k]
  {
    Delivery(updates.id.GetOr(d.id), d.fields + updates.fields)
  }

  /** `updateDelivery`'s map: each delivery with the id is merged with the
      update, the others are untouched, and the list keeps its length and
      order. */
  function UpdateWhere(ds: seq<Delivery>, id: string, updates: DeliveryPatch): (r: seq<Delivery>)
    ensures |r| == |ds|
    ensures forall i :: 0 <= i < |ds| && ds[i].id != id ==> r[i] == ds[i]
    ensures forall i :: 0 <= i < |ds| && ds[i].id == id ==> r[i] == MergeDelivery(ds[i], updates)
  {
    seq(|ds|, i requires 0 <= i < |ds| => if ds[i].id == id then MergeDelivery(ds[i], updates) else ds[i])
  }

  /** An update that supplies nothing changes nothing. */
  lemma UpdateWithNothing(ds: seq<Delivery>, id: string)
    ensures UpdateWhere(ds, id, DeliveryPatch(None, map[])) == ds
  {
    var r := UpdateWhere(ds, id, DeliveryPatch(None, map[]));
    forall i | 0 <= i < |ds|
      ensures r[i] == ds[i]
    {
      if ds[i].id == id {
        assert ds[i].fields + map[] == ds[i].fields;
      }
    }
  }

  /** Repeating the same update changes nothing more, as long as it keeps
      the id it matched. */
  lemma UpdateIdempotent(ds: seq<Delivery>, id: string, updates: DeliveryPatch)
    requires updates.id.None? || updates.id == Some(id)
    ensures UpdateWhere(UpdateWhere(ds, id, updates), id, updates) == UpdateWhere(ds, id, updates)
  {
    var r1 := UpdateWhere(ds, id, updates);
    var r2 := UpdateWhere(r1, id, updates);
    forall i | 0 <= i < |ds|
      ensures r2[i] == r1[i]
    {
      if ds[i].id == id {
        assert ds[i].fields + updates.fields + updates.fields == ds[i].fields + updates.fields;
      }
    }
  }

  datatype DateRange = DateRange(start: Option<int>, end: Option<int>)

  /** The list filters; `status` and `serviceType` hold `all` or a value. */
  datatype DeliveryFilters = DeliveryFilters(status: string, serviceType: string, dateRange: DateRange, search: string)

  const DefaultFilters := DeliveryFilters("all", "all", DateRange(None, None), "")

  /** `Partial<DeliveryFilters>`. */
  datatype FiltersPatch = FiltersPatch(status: Option<string>, serviceType: Option<string>,
                                       dateRange: Option<DateRange>, search: Option<string>)

  /** `{ ...state.filters, ...filters }`. */
  function MergeFilters(f: DeliveryFilters, p: FiltersPatch): (r: DeliveryFilters)
    ensures p.status.Some? ==> r.status == p.status.value
    ensures p.status.None? ==> r.status == f.status
    ensures p.serviceType.Some? ==> r.serviceType == p.serviceType.value
    ensures p.serviceType.None? ==> r.serviceType == f.serviceType
    ensures p.dateRange.Some? ==> r.dateRange == p.dateRange.value
    ensures p.dateRange.None? ==> r.dateRange == f.dateRange
    ensures p.search.Some? ==> r.search == p.search.value
    ensures p.search.None? ==> r.search == f.search
  {
    DeliveryFilters(p.status.GetOr(f.status), p.serviceType.GetOr(f.serviceType),
                    p.dateRange.GetOr(f.dateRange), p.search.GetOr(f.search))
  }

  /** `Partial<Address>`, column by column. */
  type PartialAddress = map<string, Value>

  datatype BookingDraft = BookingDraft(
    serviceType: Option<string>,
    serviceLevel: Option<ServiceLevel>,
    pickupAddress: Option<PartialAddress>,
    dropoffAddress: Option<PartialAddress>,
    packageDescription: string,
    packageWeight: Option<real>,
    specialInstructions: string,
    pickupNotes: string,
    dropoffNotes: string,
    requiresSignature: bool,
    requiresPhoto: bool,
    freightProtection: bool,
    freightValue: Option<real>,
    suggestedPrice: Option<real>,
    isMarketplace: bool,
    preferredDriverId: Option<string>,
    namedDriverRequested: bool)

  /** A fresh booking: standard level, photo proof on, everything else empty. */
  const DefaultBookingDraft := BookingDraft(None, Some(Standard), None, None, "", None, "", "", "",
                                            false, true, false, None, None, false, None, false)

  /** `Partial<BookingDraft>`: a field is Some exactly when the update
      supplies it (possibly with a null value). */
  datatype DraftPatch = DraftPatch(
    serviceType: Option<Option<string>>,
    serviceLevel: Option<Option<ServiceLevel>>,
    pickupAddress: Option<Option<PartialAddress>>,
    dropoffAddress: Option<Option<PartialAddress>>,
    packageDescription: Option<string>,
    packageWeight: Option<Option<real>>,
    specialInstructions: Option<string>,
    pickupNotes: Option<string>,
    dropoffNotes: Option<string>,
    requiresSignature: Option<bool>,
    requiresPhoto: Option<bool>,
    freightProtection: Option<bool>,
    freightValue: Option<Option<real>>,
    suggestedPrice: Option<Option<real>>,
    isMarketplace: Option<bool>,
    preferredDriverId: Option<Option<string>>,
    namedDriverRequested: Option<bool>)

  const EmptyDraftPatch := DraftPatch(None, None, None, None, None, None, None, None, None,
                                      None, None, None, None, None, None, None, None)

  /** `{ ...state.bookingDraft, ...updates }`. */
  function MergeDraft(d: BookingDraft, p: DraftPatch): BookingDraft {
    BookingDraft(
      p.serviceType.GetOr(d.serviceType),
      p.serviceLevel.GetOr(d.serviceLevel),
      p.pickupAddress.GetOr(d.pickupAddress),
      p.dropoffAddress.GetOr(d.dropoffAddress),
      p.packageDescription.GetOr(d.packageDescription),
      p.packageWeight.GetOr(d.packageWeight),
      p.specialInstructions.GetOr(d.specialInstructions),
      p.pickupNotes.GetOr(d.pickupNotes),
      p.dropoffNotes.GetOr(d.dropoffNotes),
      p.requiresSignature.GetOr(d.requiresSignature),
      p.requiresPhoto.GetOr(d.requiresPhoto),
      p.freightProtection.GetOr(d.freightProtection),
      p.freightValue.GetOr(d.freightValue),
      p.suggestedPrice.GetOr(d.suggestedPrice),
      p.isMarketplace.GetOr(d.isMarketplace),
      p.preferredDriverId.GetOr(d.preferredDriverId),
      p.namedDriverRequested.GetOr(d.namedDriverRequested))
  }

  /** Two updates in a row act as one update where the later one's fields
      win. */
  function ThenPatch(p: DraftPatch, q: DraftPatch): DraftPatch {
    DraftPatch(
      if q.serviceType.Some? then q.serviceType else p.serviceType,
      if q.serviceLevel.Some? then q.serviceLevel else p.serviceLevel,
      if q.pickupAddress.Some? then q.pickupAddress else p.pickupAddress,
      if q.dropoffAddress.Some? then q.dropoffAddress else p.dropoffAddress,
      if q.packageDescription.Some? then q.packageDescription else p.packageDescription,
      if q.packageWeight.Some? then q.packageWeight else p.packageWeight,
      if q.specialInstructions.Some? then q.specialInstructions else p.specialInstructions,
      if q.pickupNotes.Some? then q.pickupNotes else p.pickupNotes,
      if q.dropoffNotes.Some? then q.dropoffNotes else p.dropoffNotes,
      if q.requiresSignature.Some? then q.requiresSignature else p.requiresSignature,
      if q.requiresPhoto.Some? then q.requiresPhoto else p.requiresPhoto,
      if q.freightProtection.Some? then q.freightProtection else p.freightProtection,
      if q.freightValue.Some? then q.freightValue else p.freightValue,
      if q.suggestedPrice.Some? then q.suggestedPrice else p.suggestedPrice,
      if q.isMarketplace.Some? then q.isMarketplace else p.isMarketplace,
      if q.preferredDriverId.Some? then q.preferredDriverId else p.preferredDriverId,
      if q.namedDriverRequested.Some? then q.namedDriverRequested else p.namedDriverRequested)
  }

  /** Draft updates: the empty update changes nothing, an update applied
      twice acts once, and two updates compose into one. */
  lemma DraftMergeLaws(d: BookingDraft, p: DraftPatch, q: DraftPatch)
    ensures MergeDraft(d, EmptyDraftPatch) == d
    ensures MergeDraft(MergeDraft(d, p), p) == MergeDraft(d, p)
    ensures MergeDraft(MergeDraft(d, p), q) == MergeDraft(d, ThenPatch(p, q))
  {
  }

  /** One more booking in batch mode. */
  datatype BatchDelivery = BatchDelivery(dropoffAddress: string, recipientName: string,
                                         recipientPhone: string, notes: string)

  /** Removing the entry just added restores the batch. */
  lemma RemoveUndoesAddBatch(bs: seq<BatchDelivery>, b: BatchDelivery)
    ensures RemoveAt(bs + [b], |bs|) == bs
  {
  }

  /** Everything the store holds; `estimatedDeliveryTime` is a time stamp. */
  datatype StoreState = StoreState(
    deliveries: seq<Delivery>,
    selectedDelivery: Option<Delivery>,
    isLoadingDeliveries: bool,
    filters: DeliveryFilters,
    bookingDraft: BookingDraft,
    batchDeliveries: seq<BatchDelivery>,
    isBatchMode: bool,
    currentStep: int,
    estimatedDistance: Option<real>,
    estimatedPrice: Option<real>,
    estimatedDeliveryTime: Option<int>)

  class Store {
    var deliveries: seq<Delivery>
    var selectedDelivery: Option<Delivery>
    var isLoadingDeliveries: bool
    var filters: DeliveryFilters
    var bookingDraft: BookingDraft
    var batchDeliveries: seq<BatchDelivery>
    var isBatchMode: bool
    var currentStep: int
    var estimatedDistance: Option<real>
    var estimatedPrice: Option<real>
    var estimatedDeliveryTime: Option<int>

    function State(): StoreState
      reads this
    {
      StoreState(deliveries, selectedDelivery, isLoadingDeliveries, filters, bookingDraft,
                 batchDeliveries, isBatchMode, currentStep, estimatedDistance, estimatedPrice,
                 estimatedDeliveryTime)
    }

    constructor()
      ensures State() == StoreState([], None, false, DefaultFilters, DefaultBookingDraft, [], false, 0,
                                    None, None, None)
    {
      deliveries := [];
      selectedDelivery := None;
      isLoadingDeliveries := false;
      filters := DefaultFilters;
      bookingDraft := DefaultBookingDraft;
      batchDeliveries := [];
      isBatchMode := false;
      currentStep := 0;
      estimatedDistance := None;
      estimatedPrice := None;
      estimatedDeliveryTime := None;
    }

    method SetDeliveries(list: seq<Delivery>)
      modifies this
      ensures State() == old(State()).(deliveries := list)
    {
      deliveries := list;
    }

    /** `addDelivery`: the new delivery goes first. */
    method AddDelivery(delivery: Delivery)
      modifies this
      ensures State() == old(State()).(deliveries := [delivery] + old(deliveries))
    {
      deliveries := [delivery] + deliveries;
    }

    method UpdateDelivery(id: string, updates: DeliveryPatch)
      modifies this
      ensures State() == old(State()).(deliveries := UpdateWhere(old(deliveries), id, updates))
    {
      var ds := deliveries;
      deliveries := seq(|ds|, i requires 0 <= i < |ds| =>
        if ds[i].id == id then MergeDelivery(ds[i], updates) else ds[i]);
    }

    method SelectDelivery(delivery: Option<Delivery>)
      modifies this
      ensures State() == old(State()).(selectedDelivery := delivery)
    {
      selectedDelivery := delivery;
    }

    method SetLoadingDeliveries(loading: bool)
      modifies this
      ensures State() == old(State()).(isLoadingDeliveries := loading)
    {
      isLoadingDeliveries := loading;
    }

    method SetFilters(patch: FiltersPatch)
      modifies this
      ensures State() == old(State()).(filters := MergeFilters(old(filters), patch))
    {
      filters := MergeFilters(filters, patch);
    }

    method UpdateBookingDraft(updates: DraftPatch)
      modifies this
      ensures State() == old(State()).(bookingDraft := MergeDraft(old(bookingDraft), updates))
    {
      bookingDraft := MergeDraft(bookingDraft, updates);
    }

    /** `resetBookingDraft`: the booking flow starts over; the delivery list
        and its filters are kept. */
    method ResetBookingDraft()
      modifies this
      ensures State() == old(State()).(bookingDraft := DefaultBookingDraft, batchDeliveries := [],
                                       isBatchMode := false, currentStep := 0, estimatedDistance := None,
                                       estimatedPrice := None, estimatedDeliveryTime := None)
    {
      bookingDraft := DefaultBookingDraft;
      batchDeliveries := [];
      isBatchMode := false;
      currentStep := 0;
      estimatedDistance := None;
      estimatedPrice := None;
      estimatedDeliveryTime := None;
    }

    method SetBatchMode(isBatch: bool)
      modifies this
      ensures State() == old(State()).(isBatchMode := isBatch)
    {
      isBatchMode := isBatch;
    }

    method SetBatchDeliveries(list: seq<BatchDelivery>)
      modifies this
      ensures State() == old(State()).(batchDeliveries := list)
    {
      batchDeliveries := list;
    }

    /** `addBatchDelivery`: appended at the end. */
    method AddBatchDelivery(delivery: BatchDelivery)
      modifies this
      ensures State() == old(State()).(batchDeliveries := old(batchDeliveries) + [delivery])
    {
      batchDeliveries := batchDeliveries + [delivery];
    }

    /** `removeBatchDelivery`: exactly position `index` goes, if it exists. */
    method RemoveBatchDelivery(index: int)
      modifies this
      ensures State() == old(State()).(batchDeliveries := RemoveAt(old(batchDeliveries), index))
      ensures 0 <= index < |old(batchDeliveries)| ==> |batchDeliveries| == |old(batchDeliveries)| - 1
      ensures !(0 <= index < |old(batchDeliveries)|) ==> batchDeliveries == old(batchDeliveries)
    {
      batchDeliveries := RemoveAt(batchDeliveries, index);
    }

    /** `setCurrentStep`: any number is stored as given. */
    method SetCurrentStep(step: int)
      modifies this
      ensures State() == old(State()).(currentStep := step)
    {
      currentStep := step;
    }

    method SetEstimatedDistance(distance: Option<real>)
      modifies this
      ensures State() == old(State()).(estimatedDistance := distance)
    {
      estimatedDistance := distance;
    }

    method SetEstimatedPrice(price: Option<real>)
      modifies this
      ensures State() == old(State()).(estimatedPrice := price)
    {
      estimatedPrice := price;
    }

    method SetEstimatedDeliveryTime(time: Option<int>)
      modifies this
      ensures State() == old(State()).(estimatedDeliveryTime := time)
    {
      estimatedDeliveryTime := time;
    }
  }
}
