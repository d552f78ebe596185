/** The customer's deliveries list (`src/pages/Deliveries.tsx`): the search
    and status filter, the "active" and "past" sections drawn from the
    filtered list, the empty-state card and the status badge lookup. */
module Deliveries {
  import opened Common

  /** The fields of a listed delivery the page filters and groups on. */
  datatype DeliveryRow = DeliveryRow(id: string, trackingId: string, status: string,
                                     pickupText: string, dropoffText: string)

  /** Case-insensitive search over the tracking id and the two addresses. */
  predicate MatchesSearch(d: DeliveryRow, query: string) {
    var q := ToLower(query);
    Includes(ToLower(d.trackingId), q) || Includes(ToLower(d.pickupText), q) || Includes(ToLower(d.dropoffText), q)
  }

  /** The status filter: `all`, or exactly the delivery's status. */
  predicate MatchesStatus(d: DeliveryRow, statusFilter: string) {
    statusFilter == "all" || d.status == statusFilter
  }

  predicate Matches(d: DeliveryRow, query: string, statusFilter: string) {
    MatchesSearch(d, query) && MatchesStatus(d, statusFilter)
  }

  /** `filteredDeliveries`: the deliveries matching both, in their order. */
  function Filtered(ds: seq<DeliveryRow>, query: string, statusFilter: string): (r: seq<DeliveryRow>)
    ensures forall i :: 0 <= i < |r| ==> Matches(r[i], query, statusFilter) && r[i] in ds
    ensures forall i :: 0 <= i < |ds| && Matches(ds[i], query, statusFilter) ==> ds[i] in r
    ensures IsSubsequence(r, ds)
  {
    FilterIsSubsequence(ds, (d: DeliveryRow) => Matches(d, query, statusFilter));
    Filter(ds, (d: DeliveryRow) => Matches(d, query, statusFilter))
  }

  /** With an empty search and the `all` status the whole list shows. */
  lemma UnfilteredShowsAll(ds: seq<DeliveryRow>)
    ensures Filtered(ds, "", "all") == ds
  {
    forall i | 0 <= i < |ds|
      ensures Matches(ds[i], "", "all")
    {
      assert OccursAt(ToLower(ds[i].trackingId), ToLower(""), 0);
    }
    FilterAll(ds, (d: DeliveryRow) => Matches(d, "", "all"));
  }

  predicate IsActiveStatus(s: string) {
    s == "pending" || s == "scheduled" || s == "picked_up" || s == "on_route"
  }

  predicate IsPastStatus(s: string) {
    s == "delivered" || s == "failed" || s == "on_hold"
  }

  /** No status is both active and past, and `redelivered` is neither. */
  lemma StatusGroups(s: string)
    ensures !(IsActiveStatus(s) && IsPastStatus(s))
    ensures s == "redelivered" ==> !IsActiveStatus(s) && !IsPastStatus(s)
  {
  }

  function ActiveSection(ds: seq<DeliveryRow>): (r: seq<DeliveryRow>)
    ensures forall i :: 0 <= i < |r| ==> IsActiveStatus(r[i].status) && r[i] in ds
    ensures forall i :: 0 <= i < |ds| && IsActiveStatus(ds[i].status) ==> ds[i] in r
  {
    Filter(ds, (d: DeliveryRow) => IsActiveStatus(d.status))
  }

  function PastSection(ds: seq<DeliveryRow>): (r: seq<DeliveryRow>)
    ensures forall i :: 0 <= i < |r| ==> IsPastStatus(r[i].status) && r[i] in ds
    ensures forall i :: 0 <= i < |ds| && IsPastStatus(ds[i].status) ==> ds[i] in r
  {
    Filter(ds, (d: DeliveryRow) => IsPastStatus(d.status))
  }

  /** Each section is drawn only when some filtered delivery belongs to it
      (the `some` guard), i.e. when its list is not empty. */
  lemma SectionShownIffNonEmpty(ds: seq<DeliveryRow>)
    ensures (exists i :: 0 <= i < |ds| && IsActiveStatus(ds[i].status)) <==> ActiveSection(ds) != []
    ensures (exists i :: 0 <= i < |ds| && IsPastStatus(ds[i].status)) <==> PastSection(ds) != []
  {
    var a := ActiveSection(ds);
    var p := PastSection(ds);
    if a != [] {
      assert a[0] in ds;
    }
    if p != [] {
      assert p[0] in ds;
    }
  }

  /** The sections never show a delivery twice: together they hold at most
      the filtered list, and strictly less when it holds a delivery of
      neither group (such as a `redelivered` one). */
  lemma {:induction false} SectionSizes(ds: seq<DeliveryRow>)
    ensures |ActiveSection(ds)| + |PastSection(ds)| <= |ds|
    ensures (exists i :: 0 <= i < |ds| && !IsActiveStatus(ds[i].status) && !IsPastStatus(ds[i].status))
            ==> |ActiveSection(ds)| + |PastSection(ds)| < |ds|
  {
    if ds != [] {
      SectionSizes(ds[1..]);
      if exists i :: 0 <= i < |ds| && !IsActiveStatus(ds[i].status) && !IsPastStatus(ds[i].status) {
        var i :| 0 <= i < |ds| && !IsActiveStatus(ds[i].status) && !IsPastStatus(ds[i].status);
        if i > 0 {
          assert ds[1..][i - 1] == ds[i];
        }
      }
    }
  }

  /** The "no deliveries found" card is shown when the filtered list is
      empty; a list holding only deliveries of neither group shows neither
      a section nor that card. */
  predicate EmptyStateShown(filtered: seq<DeliveryRow>) {
    filtered == []
  }

  lemma OnlyOtherStatusesShowNothing(filtered: seq<DeliveryRow>)
    requires filtered != []
    requires forall i :: 0 <= i < |filtered| ==> !IsActiveStatus(filtered[i].status) && !IsPastStatus(filtered[i].status)
    ensures ActiveSection(filtered) == [] && PastSection(filtered) == [] && !EmptyStateShown(filtered)
  {
    SectionShownIffNonEmpty(filtered);
  }

  datatype BadgeVariant = PendingBadge | ScheduledBadge | PickedUpBadge | OnRouteBadge | DeliveredBadge | FailedBadge

  /** `statusVariants[status]`; None for a status the table lacks. */
  function StatusVariant(status: string): (r: Option<BadgeVariant>)
    ensures status == "on_hold" || status == "failed" <==> r == Some(FailedBadge)
    ensures status == "on_route" || status == "redelivered" <==> r == Some(OnRouteBadge)
    ensures r.None? <==> !IsActiveStatus(status) && !IsPastStatus(status) && status != "redelivered"
  {
    if status == "pending" then Some(PendingBadge)
    else if status == "scheduled" then Some(ScheduledBadge)
    else if status == "picked_up" then Some(PickedUpBadge)
    else if status == "on_route" then Some(OnRouteBadge)
    else if status == "delivered" then Some(DeliveredBadge)
    else if status == "on_hold" then Some(FailedBadge)
    else if status == "failed" then Some(FailedBadge)
    else if status == "redelivered" then Some(OnRouteBadge)
    else None
  }
}
