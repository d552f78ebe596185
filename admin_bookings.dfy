/** The admin bookings list (`src/pages/admin/AdminBookings.tsx`): the
    search, status and tenant filter, which row actions each status offers,
    and the action modal (hold, fail, re-deliver) with its notes. */
module AdminBookings {
  import opened Common

  /** The fields of a listed booking the page filters and acts on. */
  datatype Booking = Booking(id: string, trackingId: string, status: string,
                             tenantId: string, tenantName: string, customerName: string)

  /** Case-insensitive search over tracking id, customer name and tenant
      name. */
  predicate MatchesSearch(b: Booking, query: string) {
    var q := ToLower(query);
    Includes(ToLower(b.trackingId), q) || Includes(ToLower(b.customerName), q) || Includes(ToLower(b.tenantName), q)
  }

  /** All three filters must hold; `all` disables the status or tenant one. */
  predicate Matches(b: Booking, query: string, statusFilter: string, tenantFilter: string) {
    && MatchesSearch(b, query)
    && (statusFilter == "all" || b.status == statusFilter)
    && (tenantFilter == "all" || b.tenantId == tenantFilter)
  }

  /** `filteredBookings`: the matching bookings in their order. */
  function Filtered(bs: seq<Booking>, query: string, statusFilter: string, tenantFilter: string): (r: seq<Booking>)
    ensures forall i :: 0 <= i < |r| ==> Matches(r[i], query, statusFilter, tenantFilter) && r[i] in bs
    ensures forall i :: 0 <= i < |bs| && Matches(bs[i], query, statusFilter, tenantFilter) ==> bs[i] in r
    ensures IsSubsequence(r, bs)
  {
    FilterIsSubsequence(bs, (b: Booking) => Matches(b, query, statusFilter, tenantFilter));
    Filter(bs, (b: Booking) => Matches(b, query, statusFilter, tenantFilter))
  }

  /** Narrowing the tenant filter from `all` to one tenant keeps a subset:
      every booking listed for the tenant is listed for `all`. */
  lemma TenantFilterNarrows(bs: seq<Booking>, query: string, statusFilter: string, tenant: string)
    ensures forall i :: 0 <= i < |Filtered(bs, query, statusFilter, tenant)| ==>
              Filtered(bs, query, statusFilter, tenant)[i] in Filtered(bs, query, statusFilter, "all")
  {
    var narrow := Filtered(bs, query, statusFilter, tenant);
    forall i | 0 <= i < |narrow|
      ensures narrow[i] in Filtered(bs, query, statusFilter, "all")
    {
      var j :| 0 <= j < |bs| && bs[j] == narrow[i];
      assert Matches(bs[j], query, statusFilter, "all");
    }
  }

  datatype Action = Hold | Fail | Redeliver

  /** The actions a row offers: hold and fail while the booking is neither
      delivered nor failed, re-delivery once it has failed. */
  function OfferedActions(status: string): (r: set<Action>)
    ensures Hold in r <==> status != "delivered" && status != "failed"
    ensures Fail in r <==> Hold in r
    ensures Redeliver in r <==> status == "failed"
    ensures !(Redeliver in r && Hold in r)
    ensures status == "delivered" ==> r == {}
  {
    if status == "failed" then {Redeliver}
    else if status == "delivered" then {}
    else {Hold, Fail}
  }

  /** The submit button is disabled while the notes are blank. */
  predicate SubmitDisabled(notes: string): (r: bool)
    ensures r <==> forall i :: 0 <= i < |notes| ==> IsWhitespace(notes[i])
    ensures notes == "" ==> r
  {
    IsBlank(notes)
  }

  /** A note of white space only keeps the button disabled; one character
      that is not white space enables it. */
  lemma SubmitDisabledBlank(notes: string, c: char)
    ensures IsBlank(notes) ==> SubmitDisabled(notes)
    ensures !IsWhitespace(c) ==> !SubmitDisabled(notes + [c]) && !SubmitDisabled([c] + notes)
  {
    if !IsWhitespace(c) {
      assert (notes + [c])[|notes|] == c;
      assert ([c] + notes)[0] == c;
    }
  }

  datatype PanelState = PanelState(selectedBooking: Option<Booking>, showActionModal: bool,
                                   actionType: Option<Action>, actionNotes: string)

  const ClosedPanel := PanelState(None, false, None, "")

  /** The action modal's state. */
  class ActionPanel {
    var selectedBooking: Option<Booking>
    var showActionModal: bool
    var actionType: Option<Action>
    var actionNotes: string

    function State(): PanelState
      reads this
    {
      PanelState(selectedBooking, showActionModal, actionType, actionNotes)
    }

    constructor()
      ensures State() == ClosedPanel
    {
      selectedBooking := None;
      showActionModal := false;
      actionType := None;
      actionNotes := "";
    }

    /** `handleAction`: the modal opens on that booking and action; the
        notes are left as they were. */
    method HandleAction(booking: Booking, action: Action)
      modifies this
      ensures State() == old(State()).(selectedBooking := Some(booking), actionType := Some(action),
                                       showActionModal := true)
    {
      selectedBooking := Some(booking);
      actionType := Some(action);
      showActionModal := true;
    }

    method SetNotes(notes: string)
      modifies this
      ensures State() == old(State()).(actionNotes := notes)
    {
      actionNotes := notes;
    }

    /** Cancel only hides the modal. */
    method Cancel()
      modifies this
      ensures State() == old(State()).(showActionModal := false)
    {
      showActionModal := false;
    }

    /** `submitAction`: the modal closes and the selection, action and notes
        are all cleared. */
    method SubmitAction()
      modifies this
      ensures State() == ClosedPanel
    {
      showActionModal := false;
      selectedBooking := None;
      actionType := None;
      actionNotes := "";
    }
  }
}
