# zoom2u portal — a verified model of its client-side logic

The zoom2u portal is a React single-page application for booking and
tracking courier deliveries. Most of it is markup. The behaviour it does own
is what this project models in Dafny:

- the booking wizard's per-service step machine, its price estimator and its
  in-place edits of stops, e-waste items, shred containers and delivery flags
  (`booking_wizard.dfy`);
- the pure helpers of `src/lib/utils.ts`: money rounding, delivery and batch
  prices, tracking ids, status lookups, the email and Australian-phone
  validators, text truncation and the relative-time thresholds (`utils.dfy`);
- the three Zustand stores, as classes whose actions reassign their fields
  (`delivery_store.dfy`, `ui_store.dfy`, `auth_store.dfy`);
- the list-editing pages as classes over their component state: platform
  updates, team members, the address book over an abstract table, shred
  container types and the settings page (`admin_updates.dfy`, `team.dfy`,
  `address_book.dfy`, `shred_services.dfy`, `settings.dfy`);
- the pure decision functions: the landing quote, delivery and booking
  filters, admin actions per status, the tracking progress index, the route
  guards and route table, the sidebar menu and the avatar initials
  (`landing.dfy`, `deliveries.dfy`, `admin_bookings.dfy`,
  `delivery_details.dfy`, `routes.dfy`, `sidebar.dfy`, `avatar.dfy`).

`common.dfy` holds Option, string and sequence helpers. `types.dfy` holds
the user roles, service levels and the profile, user and tenant records.

Modelling conventions:

- Money is a Dafny `real`, since every constant in the source is an exact
  decimal. `Math.round(x * 100) / 100` becomes `Floor(x * 100 + 1/2) / 100`.
- Statuses, service ids and team roles are strings, as in the source, which
  compares them as strings at run time. A profile's role is the `UserRole`
  datatype.
- Randomness, clocks, generated ids, parsed numbers and the success flags of
  backend calls are parameters of the operations that need them.
- A page's toast is returned as an outcome value rather than pushed into the
  UI store.
- The backend tables behind the address book and the shred-container page
  are maps from id to row.
- Each stateful page or store is a class with a `State()` function. Every
  method's `ensures` gives its whole new state in terms of the old state and
  of specification functions. The properties the source promises are proved
  about those functions as lemmas.

## Model

| member | source | states |
|---|---|---|
| Utils.Round2 | src/lib/utils.ts:55 | the result is a whole number of cents within half a cent of the input |
| Utils.Round2OfCents | src/lib/utils.ts:55 | rounding leaves a value that is already in whole cents unchanged |
| Utils.Round2Idempotent | src/lib/utils.ts:55 | rounding twice equals rounding once |
| Utils.Round2Monotonic | src/lib/utils.ts:55 | rounding preserves order |
| Utils.CalculateDeliveryPrice | src/lib/utils.ts:48-56 | the price is in whole cents and is the rounded base fee plus distance × rate × multiplier, with the multiplier defaulting to 1 |
| Utils.DeliveryPriceMonotonicInDistance | src/lib/utils.ts:48-56 | with non-negative rate and multiplier, a longer distance never costs less |
| Utils.StandardDeliveryPrice | src/lib/utils.ts:48-56 | 12.5 km at 9.90 base and 1.80 per km costs exactly 32.40 |
| Utils.CalculateBatchDeliveryPrice | src/lib/utils.ts:58-69 | the total is the rounded base fee × count plus distance × rate; a per-delivery price exists exactly when the count is non-zero, and is then the rounded total ÷ count |
| Utils.BatchOfOne | src/lib/utils.ts:58-69 | a batch of one has a per-delivery price, and it equals the batch total |
| Utils.TrackingAlphabetShape | src/lib/utils.ts:40 | the alphabet has 32 characters, each an upper-case letter other than I and O or a digit from 2 to 9 |
| Utils.PickChar | src/lib/utils.ts:43 | any random value in [0,1) picks a character of the alphabet |
| Utils.GenerateTrackingId | src/lib/utils.ts:39-46 | the id is `Z2U-` followed by 8 alphabet characters, 12 in all, the i-th chosen by the i-th random value |
| Utils.StatusColor | src/lib/utils.ts:71-83 | known statuses get their fixed class; any other status falls back to `status-pending` (for `Object.prototype` names see Left out) |
| Utils.StatusLabel | src/lib/utils.ts:85-97 | known statuses get their fixed label, which differs from the key; any other status is returned unchanged (for `Object.prototype` names see Left out) |
| Utils.StatusLabelIdempotent | src/lib/utils.ts:85-97 | labelling a label changes nothing more |
| Utils.ValidateEmailIsPattern | src/lib/utils.ts:110-113 | an address is accepted iff it has no whitespace, exactly one `@`, a non-empty local part, and a domain with a `.` that is neither first nor last |
| Utils.ValidateAustralianPhoneShape | src/lib/utils.ts:115-118 | once whitespace is stripped, a number is accepted iff it is `+61` or `0`, then one of 2, 3, 4, 7, 8, then exactly 8 digits |
| Utils.SliceTo | src/lib/utils.ts:122 | JavaScript `slice(0, end)`: a prefix, counting from the end when `end` is negative |
| Utils.TruncateText | src/lib/utils.ts:120-123 | text that fits is unchanged; with max ≥ 3 a longer text becomes exactly max characters ending in `...`; with max < 3 the output is longer than max |
| Utils.FloorDivChain | src/lib/utils.ts:28-30 | flooring minutes to hours and hours to days equals flooring the milliseconds directly |
| Utils.FormatRelativeTime | src/lib/utils.ts:24-37 | under a minute (the future included) is `Just now`; then minutes below an hour, hours below a day, days below a week; each case holds iff its threshold holds |
| Utils.NatToString | src/lib/utils.ts:33-35 | the decimal text of a count is a non-empty run of digits that denotes the count, with no leading zero |
| Utils.RelativeTimeText | src/lib/utils.ts:32-36 | `Just now`, or the count's digits followed by `m ago`, `h ago` or `d ago`, the digits denoting the count; a full date has no such text |
| Utils.RelativeTextShown | src/lib/utils.ts:24-37 | a moment is shown as relative text iff it lies less than a week before now |
| BookingWizard.FindService | src/pages/BookingWizard.tsx:391 | finds an option with the given id, or reports that none has it |
| BookingWizard.CatalogueAllAvailable | src/pages/BookingWizard.tsx:51-133 | every catalogue id is found and available, so the "coming soon" branch is unreachable |
| BookingWizard.CatalogueIds | src/pages/BookingWizard.tsx:51-133 | the known service ids are exactly the nine catalogue ids |
| BookingWizard.StepsFor | src/pages/BookingWizard.tsx:446-520 | for a known service the steps start with `service`, end with `review` and number 3 to 6; a missing or unknown service gives `[service]` only |
| BookingWizard.NextStep | src/pages/BookingWizard.tsx:400-405 | the step moves up by one iff it is below the last step, otherwise stays, and stays within range |
| BookingWizard.BackNav | src/pages/BookingWizard.tsx:407-413 | above step 0 the step moves down by one; at step 0 the service is cleared and the step stays 0; validity is kept |
| BookingWizard.BackUndoesNext | src/pages/BookingWizard.tsx:400-413 | Back after an advancing Next returns to the same step |
| BookingWizard.NextUndoesBack | src/pages/BookingWizard.tsx:400-413 | Next after Back from a step above 0 returns to the same step |
| BookingWizard.BackOutCompletely | src/pages/BookingWizard.tsx:407-413 | step+1 presses of Back from any step clear the service and return to step 0 |
| BookingWizard.JumpStep | src/pages/BookingWizard.tsx:1969-1970 | the progress bar never moves forward: it moves to the clicked index only when that index is below the current step |
| BookingWizard.EwasteUnits | src/pages/BookingWizard.tsx:377-381 | when every quantity is at least 1, the unit count is at least the number of items |
| BookingWizard.QuickAdd | src/pages/BookingWizard.tsx:1446-1455 | a new type is appended with quantity 1; an existing type has its quantity raised by one |
| BookingWizard.EwasteUnitsAppend | src/pages/BookingWizard.tsx:377-381 | appending an item adds its quantity to the unit count |
| BookingWizard.EwasteUnitsBump | src/pages/BookingWizard.tsx:1446-1455 | raising the quantity of the one item of a type adds one unit |
| BookingWizard.QuickAddAddsOneUnit | src/pages/BookingWizard.tsx:1446-1455 | with types unique, a quick-add adds exactly one unit and keeps types unique |
| BookingWizard.QuickAddKeepsValid | src/pages/BookingWizard.tsx:1446-1455 | a quick-add of an offered type keeps every page invariant and adds exactly one unit |
| BookingWizard.DecrementItem | src/pages/BookingWizard.tsx:1475-1482 | above 1 the quantity drops by one; at 1 the item is removed and the others keep their order |
| BookingWizard.DecrementUndoesIncrement | src/pages/BookingWizard.tsx:1475-1493 | `-` after `+` restores the list |
| BookingWizard.UpdateQty | src/pages/BookingWizard.tsx:1068-1072 | the quantity changes by delta and is clamped at 0; all other container ids keep their quantity |
| BookingWizard.RemoveUndoesAdd | src/pages/BookingWizard.tsx:1068-1072 | `+1` then `-1` restores every quantity |
| BookingWizard.CountSelected | src/pages/BookingWizard.tsx:354-356 | the number of ticked options lies between 0 and the option count |
| BookingWizard.VolumeFactor | src/pages/BookingWizard.tsx:374 | the parsed rubbish volume lies between 1 and 4 |
| BookingWizard.ContainerTotalNonNegative | src/pages/BookingWizard.tsx:363-367 | non-negative prices and quantities give a non-negative container total |
| BookingWizard.StandardNetworkPrice | src/pages/BookingWizard.tsx:335-386 | the default network service costs 9.90 + 12.5 × 1.80 = 32.40 |
| BookingWizard.MultiStopPrice | src/pages/BookingWizard.tsx:348-351 | multi-stop costs 37.40 + 5.00 per extra stop, so each added stop costs exactly 5.00 more |
| BookingWizard.WhiteGlovePrice | src/pages/BookingWizard.tsx:352-357 | white glove costs 71.50 + 25.00 per ticked option, between 71.50 and 71.50 + 25 × options |
| BookingWizard.DocumentDestructionExample | src/pages/BookingWizard.tsx:361-372 | 2 shred bags + 1 archive box + delivery cost 89.80, with no distance term |
| BookingWizard.PriceNonNegative | src/pages/BookingWizard.tsx:335-386 | in any valid page state the estimate is non-negative |
| BookingWizard.Wizard.constructor | src/pages/BookingWizard.tsx:262-332 | the page starts with no service, step 0 and empty collections, container delivery on, and satisfies the page invariant |
| BookingWizard.Wizard.ServiceSelect | src/pages/BookingWizard.tsx:390-398 | an available service is selected and the step becomes 1, not 0; otherwise nothing changes and a notice is reported |
| BookingWizard.Wizard.Next | src/pages/BookingWizard.tsx:400-405 | the step advances as NextStep says, and the page invariant (step within the service's steps) is kept |
| BookingWizard.Wizard.Back | src/pages/BookingWizard.tsx:407-413 | service and step change as BackNav says; the invariant is kept |
| BookingWizard.Wizard.JumpTo | src/pages/BookingWizard.tsx:1969-1970 | the step changes as JumpStep says; the invariant is kept |
| BookingWizard.Wizard.AddStop | src/pages/BookingWizard.tsx:428-430 | one empty stop is appended; nothing else changes |
| BookingWizard.Wizard.RemoveStop | src/pages/BookingWizard.tsx:432-434 | the stop at the index is removed and the others keep their order |
| BookingWizard.Wizard.UpdateStop | src/pages/BookingWizard.tsx:436-440 | only the indexed stop is replaced |
| BookingWizard.Wizard.AddEwasteItem | src/pages/BookingWizard.tsx:442-444 | an item of empty type and quantity 1 is appended |
| BookingWizard.Wizard.QuickAddEwaste | src/pages/BookingWizard.tsx:1446-1455 | the list becomes QuickAdd of the old list, and the unit count grows by exactly one |
| BookingWizard.Wizard.DecrementEwaste | src/pages/BookingWizard.tsx:1475-1482 | the list becomes DecrementItem of the old list; every quantity stays at least 1 |
| BookingWizard.Wizard.IncrementEwaste | src/pages/BookingWizard.tsx:1488-1492 | only the indexed item's quantity grows by one |
| BookingWizard.Wizard.RemoveEwaste | src/pages/BookingWizard.tsx:1499-1501 | the indexed item is removed and the rest keep their order |
| BookingWizard.Wizard.UpdateContainerQty | src/pages/BookingWizard.tsx:1068-1072 | container quantities become UpdateQty of the old ones, so none is negative |
| BookingWizard.Wizard.SetRequiresDelivery | src/pages/BookingWizard.tsx:1181-1184 | ticking delivery unticks pickup-only, so the two are never both set |
| BookingWizard.Wizard.SetRequiresPickupOnly | src/pages/BookingWizard.tsx:1198-1201 | ticking pickup-only unticks delivery, so the two are never both set |
| BookingWizard.Wizard.SetWhiteGloveOption | src/pages/BookingWizard.tsx:944 | only the named option's flag changes |
| BookingWizard.Wizard.SetEstimatedVolume | src/pages/BookingWizard.tsx:1377-1380 | the volume becomes the chosen button value |
| BookingWizard.Wizard.ToggleRecurringDay | src/pages/BookingWizard.tsx:718-724 | a chosen day is removed and an unchosen one is appended: membership of that day flips, and no day is listed twice |
| BookingWizard.Wizard.CalculatePrice | src/pages/BookingWizard.tsx:335-386 | the accumulating loops compute exactly EstimatedPrice of the page's inputs |
| BookingWizard.AnyPositiveQty | src/pages/BookingWizard.tsx:368 | the loop finds a positive quantity iff one exists |
| DeliveryStore.MergeDelivery | src/stores/deliveryStore.ts:127 | supplied fields overwrite; every other field is kept |
| DeliveryStore.UpdateWhere | src/stores/deliveryStore.ts:125-129 | length is preserved; only entries with the matching id are merged |
| DeliveryStore.UpdateWithNothing | src/stores/deliveryStore.ts:125-129 | an empty update changes nothing |
| DeliveryStore.UpdateIdempotent | src/stores/deliveryStore.ts:125-129 | applying the same update twice equals applying it once |
| DeliveryStore.MergeFilters | src/stores/deliveryStore.ts:132-134 | each filter field is overwritten when supplied and kept otherwise |
| DeliveryStore.DraftMergeLaws | src/stores/deliveryStore.ts:137-139 | draft merging has the empty patch as identity, is idempotent, and two merges equal one merge of the combined patch |
| DeliveryStore.RemoveUndoesAddBatch | src/stores/deliveryStore.ts:151-156 | removing the index just appended restores the batch |
| DeliveryStore.Store.constructor | src/stores/deliveryStore.ts:79-118 | the store starts empty with the default filters and draft |
| DeliveryStore.Store.SetDeliveries | src/stores/deliveryStore.ts:121 | only the list is replaced |
| DeliveryStore.Store.AddDelivery | src/stores/deliveryStore.ts:122-124 | the delivery is prepended |
| DeliveryStore.Store.UpdateDelivery | src/stores/deliveryStore.ts:125-129 | the list becomes UpdateWhere of the old list |
| DeliveryStore.Store.SelectDelivery | src/stores/deliveryStore.ts:130 | only the selection changes |
| DeliveryStore.Store.SetLoadingDeliveries | src/stores/deliveryStore.ts:131 | only the loading flag changes |
| DeliveryStore.Store.SetFilters | src/stores/deliveryStore.ts:132-134 | filters become MergeFilters of the old filters |
| DeliveryStore.Store.UpdateBookingDraft | src/stores/deliveryStore.ts:137-139 | the draft becomes MergeDraft of the old draft |
| DeliveryStore.Store.ResetBookingDraft | src/stores/deliveryStore.ts:140-148 | default draft, empty batch, batch mode off, step 0 and all three estimates null; list, selection and filters are kept |
| DeliveryStore.Store.SetBatchMode | src/stores/deliveryStore.ts:149 | only batch mode changes |
| DeliveryStore.Store.SetBatchDeliveries | src/stores/deliveryStore.ts:150 | only the batch is replaced |
| DeliveryStore.Store.AddBatchDelivery | src/stores/deliveryStore.ts:151-153 | the delivery is appended |
| DeliveryStore.Store.RemoveBatchDelivery | src/stores/deliveryStore.ts:154-156 | exactly the index is removed: length −1 in range, unchanged otherwise, order kept |
| DeliveryStore.Store.SetCurrentStep | src/stores/deliveryStore.ts:157 | any integer is stored, with no bounds check |
| DeliveryStore.Store.SetEstimatedDistance | src/stores/deliveryStore.ts:160 | only the distance changes |
| DeliveryStore.Store.SetEstimatedPrice | src/stores/deliveryStore.ts:161 | only the price changes |
| DeliveryStore.Store.SetEstimatedDeliveryTime | src/stores/deliveryStore.ts:162 | only the time changes |
| UIStore.DismissDelay | src/stores/uiStore.ts:73-78 | the timer runs for the given duration or 5000 ms; no timer is started for a non-positive duration |
| UIStore.WithoutToast | src/stores/uiStore.ts:80-82 | every toast with the id is removed and the others keep their order |
| UIStore.WithoutToastCount | src/stores/uiStore.ts:80-82 | every copy of a toast with another id is kept, and no copy of one with the id |
| UIStore.WithoutModal | src/stores/uiStore.ts:90-92 | every modal with the id is removed and the others keep their order |
| UIStore.DismissUndoesAdd | src/stores/uiStore.ts:68-82 | removing a toast whose id was fresh restores the list it was added to |
| UIStore.Store.constructor | src/stores/uiStore.ts:54-60 | sidebar open and expanded, no toasts or modals, not loading, light theme |
| UIStore.Store.ToggleSidebar | src/stores/uiStore.ts:63 | `sidebarOpen` flips and nothing else changes |
| UIStore.Store.SetSidebarOpen | src/stores/uiStore.ts:64 | only `sidebarOpen` changes |
| UIStore.Store.SetSidebarCollapsed | src/stores/uiStore.ts:65 | only `sidebarCollapsed` changes |
| UIStore.Store.AddToast | src/stores/uiStore.ts:68-79 | exactly one toast with the given fields and the fresh id is appended; the dismissal delay is DismissDelay |
| UIStore.Store.RemoveToast | src/stores/uiStore.ts:80-82 | the toasts become WithoutToast of the old ones |
| UIStore.Store.ClearToasts | src/stores/uiStore.ts:83 | the toast list is emptied |
| UIStore.Store.OpenModal | src/stores/uiStore.ts:86-89 | one modal is appended: the caller's component and props with the fresh id |
| UIStore.WithoutModalCount | src/stores/uiStore.ts:90-92 | every copy of a modal with another id is kept, and no copy of one with the id |
| UIStore.Store.CloseModal | src/stores/uiStore.ts:90-92 | modals become WithoutModal of the old ones |
| UIStore.Store.CloseAllModals | src/stores/uiStore.ts:93 | the modal list is emptied |
| UIStore.Store.SetGlobalLoading | src/stores/uiStore.ts:96-97 | sets the flag and the message, which is null when omitted |
| UIStore.Store.SetTheme | src/stores/uiStore.ts:100 | only the theme changes |
| UIStore.Store.Success | src/stores/uiStore.ts:108-109 | appends a success toast that is dismissed after 5000 ms |
| UIStore.Store.Error | src/stores/uiStore.ts:110-111 | appends an error toast that is dismissed after 5000 ms |
| UIStore.Store.Warning | src/stores/uiStore.ts:112-113 | appends a warning toast that is dismissed after 5000 ms |
| UIStore.Store.Info | src/stores/uiStore.ts:114-115 | appends an info toast that is dismissed after 5000 ms |
| AuthStore.Store.constructor | src/stores/authStore.ts:22-26 | signed out: null user, profile and tenant, not loading, not authenticated |
| AuthStore.Store.SetUser | src/stores/authStore.ts:27 | authenticated iff a user is given, loading ends, and `isAuthenticated ⇔ user ≠ null` is kept |
| AuthStore.Store.SetProfile | src/stores/authStore.ts:28 | only the profile changes; the invariant is kept |
| AuthStore.Store.SetTenant | src/stores/authStore.ts:29 | only the tenant changes; the invariant is kept |
| AuthStore.Store.SetLoading | src/stores/authStore.ts:30 | only the loading flag changes; the invariant is kept |
| AuthStore.Store.Logout | src/stores/authStore.ts:31-37 | back to the signed-out initial state; the invariant is kept |
| Landing.Multiplier | src/pages/Landing.tsx:21-25 | every multiplier is at least 1, and it is exactly 1 iff the level is standard |
| Landing.QuotePrice | src/pages/Landing.tsx:42-46 | the multiplier scales only the distance term; the quote is never below the standard rate |
| Landing.QuoteValues | src/pages/Landing.tsx:21-25 | the quotes are 37.80 standard, 43.38 same-day and 60.12 VIP |
| Landing.QuoteIncreasing | src/pages/Landing.tsx:42-46 | one quote is below another iff its multiplier is |
| Landing.LandingPage.constructor | src/pages/Landing.tsx:37-40 | empty addresses, standard level, quote hidden |
| Landing.LandingPage.SetPickup | src/pages/Landing.tsx:37 | only the pickup text changes |
| Landing.LandingPage.SetDropoff | src/pages/Landing.tsx:38 | only the dropoff text changes |
| Landing.LandingPage.SelectService | src/pages/Landing.tsx:39 | only the service level changes |
| Landing.LandingPage.HandleQuote | src/pages/Landing.tsx:48-52 | the quote flag is set only when both addresses are non-empty, and the quote is then shown iff both are non-empty |
| AdminUpdates.FormOf | src/pages/admin/AdminUpdates.tsx:103-117 | the edit form copies title, content, type and active flag |
| AdminUpdates.ApplyForm | src/pages/admin/AdminUpdates.tsx:136-141 | an edit keeps id and creation time, stamps the update time, and carries exactly the form's fields |
| AdminUpdates.NewUpdate | src/pages/admin/AdminUpdates.tsx:143-150 | a new update carries the form, the fresh id and the current time for both timestamps |
| AdminUpdates.EditWhere | src/pages/admin/AdminUpdates.tsx:136-141 | length is kept; only the entry with the matching id is edited; every id and creation time is kept |
| AdminUpdates.ToggleWhere | src/pages/admin/AdminUpdates.tsx:174-176 | length is kept; `is_active` flips on matching ids only |
| AdminUpdates.DeleteWhere | src/pages/admin/AdminUpdates.tsx:164 | entries with the id are removed and the others keep their order |
| AdminUpdates.ActiveUpdates | src/pages/admin/AdminUpdates.tsx:183 | holds exactly the active updates |
| AdminUpdates.InactiveUpdates | src/pages/admin/AdminUpdates.tsx:184 | holds exactly the inactive updates |
| AdminUpdates.PartitionSizes | src/pages/admin/AdminUpdates.tsx:183-184 | the two lists' sizes sum to the total |
| AdminUpdates.ToggleTwice | src/pages/admin/AdminUpdates.tsx:174-176 | toggling twice restores the list |
| AdminUpdates.ToggleAbsent | src/pages/admin/AdminUpdates.tsx:174-176 | toggling an absent id changes nothing |
| AdminUpdates.ToggleMovesOne | src/pages/admin/AdminUpdates.tsx:174-184 | with unique ids, a toggle moves exactly one update between the active and inactive lists |
| AdminUpdates.UpdatesPage.constructor | src/pages/admin/AdminUpdates.tsx:84-89 | the list is loaded, the modal is closed and the form is empty |
| AdminUpdates.UpdatesPage.OpenModal | src/pages/admin/AdminUpdates.tsx:103-117 | opening for an update prefills the form from it; otherwise the form is empty |
| AdminUpdates.UpdatesPage.CloseModal | src/pages/admin/AdminUpdates.tsx:119-123 | the modal closes, the edited update is cleared and the form reset |
| AdminUpdates.UpdatesPage.SetForm | src/pages/admin/AdminUpdates.tsx:84-89 | only the form changes |
| AdminUpdates.UpdatesPage.HandleSave | src/pages/admin/AdminUpdates.tsx:125-160 | empty title or content is refused and nothing changes; otherwise the edited entry is updated in place, or one new update is prepended; the modal then closes |
| AdminUpdates.UpdatesPage.ConfirmDelete | src/pages/admin/AdminUpdates.tsx:95-101 | only the pending confirmation changes |
| AdminUpdates.UpdatesPage.HandleDelete | src/pages/admin/AdminUpdates.tsx:162-171 | the list becomes DeleteWhere of the old one and the confirmation is cleared |
| AdminUpdates.UpdatesPage.HandleToggleActive | src/pages/admin/AdminUpdates.tsx:172-182 | the list becomes ToggleWhere of the old one; the notice says "published" iff the update was inactive |
| Team.IsOwnerRoles | src/pages/Team.tsx:103 | a user is an owner iff their role is `admin` or `super_admin` |
| Team.CanManage | src/pages/Team.tsx:263 | the per-member actions are offered iff the signed-in user is an `admin` or `super_admin` and the member is not that user; never on oneself |
| Team.AdminCount | src/pages/Team.tsx:198 | the count is at most the team size, and 0 iff no member is an admin or super admin |
| Team.PendingCount | src/pages/Team.tsx:192 | the count is at most the team size, and 0 iff every member is active |
| Team.Invited | src/pages/Team.tsx:120-128 | an invited member is inactive, has no phone and no sign-in, and carries the form's email, name and role |
| Team.InviteCounts | src/pages/Team.tsx:120-132 | an invite raises the pending count by one, and the admin count by one iff the invited role is an admin role |
| Team.UpdateRole | src/pages/Team.tsx:143-145 | only the matching member's role changes |
| Team.UpdateRoleKeepsPending | src/pages/Team.tsx:143-145 | a role change leaves the pending count unchanged |
| Team.RemoveMember | src/pages/Team.tsx:154 | the matching member is removed and the others keep their order |
| Team.TeamPage.constructor | src/pages/Team.tsx:30-39 | the list is loaded, no modal or confirmation is open, and the invite form is empty with role `customer` |
| Team.TeamPage.SetShowInviteModal | src/pages/Team.tsx:30-39 | only the modal flag changes |
| Team.TeamPage.SetInviteForm | src/pages/Team.tsx:30-39 | only the form changes |
| Team.TeamPage.SetDeleteConfirm | src/pages/Team.tsx:30-39 | only the confirmation changes |
| Team.TeamPage.HandleInvite | src/pages/Team.tsx:105-139 | an empty email or name is refused and nothing changes; otherwise one invited member is appended, the modal closes and the form resets to role `customer` |
| Team.TeamPage.HandleUpdateRole | src/pages/Team.tsx:141-150 | the members become UpdateRole of the old ones |
| Team.TeamPage.HandleRemoveMember | src/pages/Team.tsx:152-161 | the members become RemoveMember of the old ones and the confirmation is cleared |
| AddressBook.FormOf | src/pages/AddressBook.tsx:109-131 | opening a row copies its fields, and null contact and note fields become empty strings |
| AddressBook.FieldsOf | src/pages/AddressBook.tsx:160-175 | saving a form writes empty optional fields as null and copies the rest |
| AddressBook.SaveThenOpen | src/pages/AddressBook.tsx:119-173 | reopening a saved form gives back the same form |
| AddressBook.UnsetDefaults | src/pages/AddressBook.tsx:238-242 | all of the user's rows lose the default flag; other users' rows are untouched |
| AddressBook.SetDefault | src/pages/AddressBook.tsx:234-258 | among the user's rows, exactly the chosen id is the default; other rows are untouched |
| AddressBook.SetDefaultSingle | src/pages/AddressBook.tsx:238-248 | afterwards the user has at most one default |
| AddressBook.SaveRowEffect | src/pages/AddressBook.tsx:151-199 | saving clears the user's defaults first when the form is a default, then updates the edited row or inserts at the fresh id |
| AddressBook.SaveDefaultSingle | src/pages/AddressBook.tsx:151-199 | a save with the default box ticked, as a new address or over one of the user's own, leaves the saved address as the user's only default |
| AddressBook.SaveUntickedKeepsSingle | src/pages/AddressBook.tsx:151-199 | a save with the box unticked keeps a user with at most one default at most one |
| AddressBook.Search | src/pages/AddressBook.tsx:261-265 | keeps exactly the addresses whose label, street or suburb contains the lower-cased query, in order |
| AddressBook.EmptySearchKeepsAll | src/pages/AddressBook.tsx:261-265 | an empty query keeps every address |
| AddressBook.AddressBookPage.constructor | src/pages/AddressBook.tsx:54-67 | the table is loaded, the modal is closed and the form is the empty address with country `Australia` |
| AddressBook.AddressBookPage.OpenModal | src/pages/AddressBook.tsx:109-131 | an existing address prefills the form via FormOf; otherwise the form is empty |
| AddressBook.AddressBookPage.CloseModal | src/pages/AddressBook.tsx:133-137 | the modal closes and the form resets to the empty address |
| AddressBook.AddressBookPage.SetForm | src/pages/AddressBook.tsx:54-67 | only the form changes |
| AddressBook.AddressBookPage.HandleSave | src/pages/AddressBook.tsx:139-214 | without a user or profile, or with a required field empty, nothing changes; otherwise the table becomes SaveRow of the old one and the modal closes |
| AddressBook.AddressBookPage.SetDeleteConfirm | src/pages/AddressBook.tsx:216-232 | only the confirmation changes |
| AddressBook.AddressBookPage.HandleDelete | src/pages/AddressBook.tsx:216-232 | the row is removed from the table and the confirmation cleared |
| AddressBook.AddressBookPage.HandleSetDefault | src/pages/AddressBook.tsx:234-258 | without a user nothing changes; otherwise the table becomes SetDefault of the old one |
| ShredServices.FormOf | src/pages/admin/AdminShredServices.tsx:88-95 | the edit form copies the container, null description and capacity become empty, and the price is shown as text |
| ShredServices.CheckSave | src/pages/admin/AdminShredServices.tsx:110-121 | refused without a tenant, then with an empty name or price text, then when the parsed price is missing or negative; accepted otherwise, and 0 is accepted |
| ShredServices.MaxSortOrder | src/pages/admin/AdminShredServices.tsx:142-144 | the maximum is at least every sort order and is one of them |
| ShredServices.NextSortOrder | src/pages/admin/AdminShredServices.tsx:142-144 | 1 for an empty list, otherwise the maximum + 1, so always above every existing sort order |
| ShredServices.ApplyForm | src/pages/admin/AdminShredServices.tsx:126-136 | an edit keeps tenant and sort order, writes the form's fields, and writes empty description and capacity as null |
| ShredServices.EditThenOpen | src/pages/admin/AdminShredServices.tsx:88-136 | reopening an edited container gives back the same form |
| ShredServices.ShredServicesPage.constructor | src/pages/admin/AdminShredServices.tsx:28-46 | the table is given, the displayed list is empty, the modal is closed and the form is empty |
| ShredServices.ShredServicesPage.Loaded | src/pages/admin/AdminShredServices.tsx:76 | only the displayed list changes |
| ShredServices.ShredServicesPage.OpenModal | src/pages/admin/AdminShredServices.tsx:85-101 | editing prefills via FormOf; creating starts from the empty form |
| ShredServices.ShredServicesPage.CloseModal | src/pages/admin/AdminShredServices.tsx:103-107 | the modal closes and the form resets |
| ShredServices.ShredServicesPage.SetForm | src/pages/admin/AdminShredServices.tsx:39-46 | only the form changes |
| ShredServices.ShredServicesPage.HandleSave | src/pages/admin/AdminShredServices.tsx:109-171 | a refused check changes nothing; otherwise the edited row is updated, or a new row is inserted with the next sort order; the modal closes |
| ShredServices.ShredServicesPage.SetDeleteConfirm | src/pages/admin/AdminShredServices.tsx:173-189 | only the confirmation changes |
| ShredServices.ShredServicesPage.HandleDelete | src/pages/admin/AdminShredServices.tsx:173-189 | the row is removed from the table and the confirmation cleared |
| ShredServices.ShredServicesPage.ToggleActive | src/pages/admin/AdminShredServices.tsx:191-205 | the stored row's active flag becomes the negation of the displayed one |
| ShredServices.ShredServicesPage.TogglePopular | src/pages/admin/AdminShredServices.tsx:206-220 | the stored row's popular flag becomes the negation of the displayed one |
| Settings.InitialProfileForm | src/pages/Settings.tsx:46-50 | the form starts from the profile's name, email and phone, with a missing phone as empty |
| Settings.MergeProfile | src/pages/Settings.tsx:101-103 | the form's name, email and phone overwrite the profile; id, tenant, role and company are kept |
| Settings.SaveUntouchedProfile | src/pages/Settings.tsx:101-103 | saving an untouched form changes nothing, except that a null phone becomes the empty string |
| Settings.CheckPassword | src/pages/Settings.tsx:158-165 | a mismatch is reported before length; under 8 characters is too short; each verdict holds iff its condition does |
| Settings.CheckLogo | src/pages/Settings.tsx:184-196 | no file, wrong type (only JPEG, PNG or GIF), too large (over 2,097,152 bytes) or accepted, each iff its condition holds |
| Settings.SettingsPage.constructor | src/pages/Settings.tsx:46-86 | the profile form is prefilled and the password form is empty |
| Settings.SettingsPage.SetProfileForm | src/pages/Settings.tsx:46-50 | only the profile form changes |
| Settings.SettingsPage.SetSecurityForm | src/pages/Settings.tsx:82-86 | only the password form changes |
| Settings.SettingsPage.HandleSaveProfile | src/pages/Settings.tsx:88-111 | after a successful save the store's profile becomes MergeProfile of the old one; otherwise the store is unchanged; the auth invariant is kept |
| Settings.SettingsPage.HandleChangePassword | src/pages/Settings.tsx:157-182 | a refused check changes nothing and makes no backend call; a failed backend call changes nothing; success clears the three password fields |
| Settings.SettingsPage.HandleLogoUpload | src/pages/Settings.tsx:184-201 | the verdict is CheckLogo, and only an accepted file is stored with its preview |
| Deliveries.Filtered | src/pages/Deliveries.tsx:144-153 | keeps exactly the rows that match the search and the status filter, in their original order |
| Deliveries.UnfilteredShowsAll | src/pages/Deliveries.tsx:144-153 | an empty search with status `all` keeps every row |
| Deliveries.StatusGroups | src/pages/Deliveries.tsx:199-338 | the active and past groups are disjoint, and `redelivered` is in neither |
| Deliveries.ActiveSection | src/pages/Deliveries.tsx:199-200 | holds exactly the rows with an active status |
| Deliveries.PastSection | src/pages/Deliveries.tsx:337-338 | holds exactly the rows with a past status |
| Deliveries.SectionShownIffNonEmpty | src/pages/Deliveries.tsx:195-332 | each section's heading shows iff its list is non-empty |
| Deliveries.SectionSizes | src/pages/Deliveries.tsx:195-338 | the two sections together never exceed the list, and fall short of it when some row is in neither |
| Deliveries.OnlyOtherStatusesShowNothing | src/pages/Deliveries.tsx:195-395 | a non-empty result of only `redelivered` rows shows no section and no empty-state message |
| Deliveries.StatusVariant | src/pages/Deliveries.tsx:118-127 | `on_hold` and `failed` use the failed badge, `on_route` and `redelivered` the on-route badge; unknown statuses have none (for `Object.prototype` names see Left out) |
| AdminBookings.Filtered | src/pages/admin/AdminBookings.tsx:178-188 | keeps exactly the bookings matching search, status and tenant, in order |
| AdminBookings.TenantFilterNarrows | src/pages/admin/AdminBookings.tsx:178-188 | choosing a tenant only removes bookings from the unrestricted list |
| AdminBookings.SubmitDisabled | src/pages/admin/AdminBookings.tsx:456 | the submit button is disabled iff every character of the note is white space, so iff trimming leaves it empty; an empty note disables it |
| AdminBookings.SubmitDisabledBlank | src/pages/admin/AdminBookings.tsx:456 | a note of white space only keeps submit disabled; adding one character that is not white space enables it |
| AdminBookings.OfferedActions | src/pages/admin/AdminBookings.tsx:370-388 | hold and fail are offered iff the status is neither delivered nor failed; redeliver iff failed; never redeliver with hold |
| AdminBookings.ActionPanel.constructor | src/pages/admin/AdminBookings.tsx:170-176 | the panel starts closed and empty |
| AdminBookings.ActionPanel.HandleAction | src/pages/admin/AdminBookings.tsx:190-194 | the booking and action are selected and the modal opens |
| AdminBookings.ActionPanel.SetNotes | src/pages/admin/AdminBookings.tsx:170-176 | only the notes change |
| AdminBookings.ActionPanel.Cancel | src/pages/admin/AdminBookings.tsx:449 | only the modal flag is cleared |
| AdminBookings.ActionPanel.SubmitAction | src/pages/admin/AdminBookings.tsx:196-203 | the modal closes and booking, action and notes are reset |
| DeliveryDetails.FindIndex | src/pages/DeliveryDetails.tsx:142 | the first position of the status, or −1 iff it is absent |
| DeliveryDetails.CurrentStepIndex | src/pages/DeliveryDetails.tsx:140-144 | lies in [0, 3]; 0 with no delivery; a tracked status gives its position and any other status gives 0 |
| DeliveryDetails.StepPositions | src/pages/DeliveryDetails.tsx:108-144 | the eight statuses map to 0, 1, 2, 3, or 0 for scheduled, on hold, failed and redelivered |
| DeliveryDetails.TrackShape | src/pages/DeliveryDetails.tsx:244-267 | the first step is always reached, a delivered status reaches all four, and the last step is never shown as done |
| DeliveryDetails.StatusStyleOf | src/pages/DeliveryDetails.tsx:97-167 | the pending style is used iff the status is pending or unknown (for `Object.prototype` names see Left out) |
| Sidebar.MenusApart | src/components/layout/Sidebar.tsx:25-45 | every admin link is under `/admin`, and no customer link is |
| Sidebar.NavItems | src/components/layout/Sidebar.tsx:52-53 | the admin menu is shown iff the profile is staff and the path starts with `/admin`; otherwise the customer menu |
| Sidebar.NonStaffSeeCustomerMenu | src/components/layout/Sidebar.tsx:52-53 | a missing profile, customer or driver sees the customer menu even on an `/admin` path |
| Routes.ProtectedRoute | src/App.tsx:35-54 | a loader while loading, whatever the auth state; otherwise a redirect to `/login` iff unauthenticated, and the page iff authenticated |
| Routes.AdminRoute | src/App.tsx:56-81 | a loader while loading, then `/login` when unauthenticated, `/dashboard` for non-staff, and the page iff staff |
| Routes.AdminGuardStricter | src/App.tsx:35-81 | whatever the admin guard lets through the customer guard lets through, and for staff the two agree |
| Routes.AdminPatterns | src/App.tsx:146-202 | every admin-guarded route lies under `admin` |
| Routes.Segments | src/App.tsx:146-202 | a path's segments are non-empty and contain no `/` |
| Routes.Lookup | src/App.tsx:146-202 | no route is found iff no pattern matches; a found route comes from a matching pattern |
| Routes.Visit | src/App.tsx:35-202 | unknown paths go to `/`; public and sign-in pages render for everybody; guarded pages show the loader while loading, send a signed-out visitor to `/login` and a signed-in non-staff visitor of an admin page to `/dashboard`, and render iff their guard admits the session |
| Routes.NonAdminPatterns | src/App.tsx:146-202 | no route outside the admin guard starts with `admin` |
| Routes.AdminAreaGuarded | src/App.tsx:56-202 | any page rendered at a path under `/admin` is an admin page, seen by an authenticated staff user |
| Avatar.WordStarts | src/components/ui/Avatar.tsx:37 | the word initials contain no space and come from the text |
| Avatar.HeadsOfSplit | src/components/ui/Avatar.tsx:36-37 | the first characters of the space-split words are the characters that follow a space or the start |
| Avatar.Initials | src/components/ui/Avatar.tsx:34-41 | no fallback or an empty one gives none; otherwise the upper-cased word initials cut to 2 |
| Avatar.InitialsShape | src/components/ui/Avatar.tsx:34-41 | initials have at most 2 characters and no space; an all-space fallback gives empty initials |
| Avatar.RenderChoice | src/components/ui/Avatar.tsx:45-55 | a non-empty image source wins; otherwise non-empty initials; otherwise the generic icon, each iff its condition holds |

## Left out

- Supabase reads, writes, auth calls and realtime listeners are network I/O. Their outcomes enter the model as success flags, abstract tables, or lists loaded by the page.
- Timers and async waiting are not modelled: simulated save delays, `handleSubmit`, toast auto-dismiss and `debounce`. Handlers take effect at once; a toast's timer is returned as its delay.
- Random ids and clocks are parameters: `Math.random`, `Date.now()` and `new Date()`.
- `Intl` formatting is a library call: `formatCurrency`, `formatDate`, and the week-or-older branch of `formatRelativeTime`.
- `cn` with clsx and tailwind-merge is a library call.
- `parseFloat` is not modelled. The shred-container price arrives already parsed, with NaN as a missing value. The rubbish volume is modelled only on the four values its buttons can set.
- JavaScript floating point is replaced by exact reals.
- The zod schemas of the login and register pages live in an unseen library.
- The Zustand `persist` middleware and localStorage are not modelled.
- Markup, animation and the static mock data and badge maps of the dashboards are not modelled.
- React Router's route ranking and case-insensitive matching are not modelled. Routes.Lookup takes the first matching pattern; the table has no overlapping patterns.
- Loading and saving flags (`isLoading`, `isSaving`) and error toasts on failed backend calls are outcome values only.
- The company, booking-defaults and notification saves on the settings page are not modelled. They write form fields straight to the backend.
- Utils.CalculateBatchDeliveryPrice: a batch of 0 deliveries yields no per-delivery price. The source would divide by zero and produce NaN, which has no counterpart in exact reals.
- BookingWizard.QuickAdd: raises every item of that type, as the source's `map` does. The page invariant keeps types unique, so this is the first and only such item.
- Utils.TruncateText: for a maximum below 3, only the shape of the result is stated. It is longer than the maximum, as the source's `slice` makes it.
- AddressBook.SetDefault: the chosen row is flagged even when another user owns it, as the source's update by id does. Only the signed-in user's rows are stated to have a single default.
- Settings.MergeProfile: the merged profile takes the form's email and an empty phone as `""`, not null, as the source's spread does.
- Deliveries.OnlyOtherStatusesShowNothing: a filter result made only of `redelivered` rows shows an empty page with no message. This is how the source behaves, not a modelling gap.
- Utils.SliceTo: positions count Unicode code points, one per Dafny character. JavaScript's `slice` counts UTF-16 code units, so text with characters outside the Basic Multilingual Plane is cut at a different place, and the source can split a surrogate pair.
- Utils.TruncateText: lengths count code points, not UTF-16 code units. Text whose UTF-16 length exceeds the maximum but whose code-point count does not is left whole by the model and truncated by the source.
- AddressBook.Search: case folding covers ASCII letters only, where `toLowerCase` uses full Unicode case mapping. A query such as "émile" against the label "ÉMILE" is matched by the source and not by the model.
- Deliveries.Filtered: case folding covers ASCII letters only, where `toLowerCase` uses full Unicode case mapping, so non-ASCII case-insensitive matches are not found.
- AdminBookings.Filtered: case folding covers ASCII letters only, where `toLowerCase` uses full Unicode case mapping, so non-ASCII case-insensitive matches are not found.
- Avatar.Initials: upper-casing covers ASCII letters only, and a word's first character is a code point. The source upper-cases with full Unicode mapping ("élodie" gives "É", "ß" becomes "SS" before the cut to two characters), and `n[0]` takes one UTF-16 code unit, which may be half of a surrogate pair.
- Settings.CheckPassword: the length counts code points, not UTF-16 code units. A password of four emoji outside the Basic Multilingual Plane has length 8 in the source and passes, but is too short in the model.
- Utils.StatusColor: a status that names an `Object.prototype` member (`constructor`, `toString`, `valueOf`, `__proto__` and the like) finds that inherited member in the source's object literal, and gets it instead of `status-pending`. The model treats those names like any other unknown status.
- Utils.StatusLabel: a status that names an `Object.prototype` member yields that inherited function in the source, not the status itself. The model returns the status unchanged.
- Deliveries.StatusVariant: a status that names an `Object.prototype` member finds an inherited value in the source's `statusVariants` lookup. The model gives no badge.
- DeliveryDetails.StatusStyleOf: a status that names an `Object.prototype` member finds an inherited value in `statusConfig` and does not fall back to the pending style. The model falls back.
- UIStore.Store.OpenModal: a modal's props are `Record<string, unknown>` in the source. The model keeps prop values as text.
