/** The address book (`src/pages/AddressBook.tsx`). The backend table of
    saved addresses is modelled as an in-memory map from row id to row; the
    page's modal form, its required-field check, the mapping between empty
    inputs and null columns, the single-default rule and the search box are
    modelled over it. Row ids the backend generates are parameters. */
module AddressBook {
  import opened Common
  import opened Types

  /** The columns of an address the form edits (besides `is_default`). */
  datatype AddressFields = AddressFields(
    addressLabel: string, streetAddress: string, suburb: string, state: string, postcode: string,
    country: string,
    contactName: Option<string>, contactPhone: Option<string>, contactEmail: Option<string>,
    pickupNotes: Option<string>, deliveryNotes: Option<string>)

  /** A row of the addresses table. */
  datatype AddressRow = AddressRow(userId: string, tenantId: string, fields: AddressFields, isDefault: bool)

  type Table = map<string, AddressRow>

  /** An address as the page lists it. */
  datatype AddressEntry = AddressEntry(id: string, row: AddressRow)

  /** The modal form: every input is a string. */
  datatype AddressForm = AddressForm(
    addressLabel: string, streetAddress: string, suburb: string, state: string, postcode: string,
    country: string,
    contactName: string, contactPhone: string, contactEmail: string,
    pickupNotes: string, deliveryNotes: string,
    isDefault: bool)

  const EmptyAddressForm := AddressForm("", "", "", "", "", "Australia", "", "", "", "", "", false)

  /** Save is refused unless label, street, suburb, state and postcode are
      all filled in; the contact and notes inputs are optional. */
  predicate RequiredFilled(f: AddressForm) {
    f.addressLabel != "" && f.streetAddress != "" && f.suburb != "" && f.state != "" && f.postcode != ""
  }

  /** Opening the modal on an existing address: the nullable columns show as
      empty inputs. */
  function FormOf(row: AddressRow): (f: AddressForm)
    ensures f.addressLabel == row.fields.addressLabel && f.streetAddress == row.fields.streetAddress
    ensures f.suburb == row.fields.suburb && f.state == row.fields.state
    ensures f.postcode == row.fields.postcode && f.country == row.fields.country
    ensures f.contactName == OrEmpty(row.fields.contactName) && f.contactPhone == OrEmpty(row.fields.contactPhone)
    ensures f.contactEmail == OrEmpty(row.fields.contactEmail)
    ensures f.pickupNotes == OrEmpty(row.fields.pickupNotes) && f.deliveryNotes == OrEmpty(row.fields.deliveryNotes)
    ensures f.isDefault == row.isDefault
  {
    var a := row.fields;
    AddressForm(a.addressLabel, a.streetAddress, a.suburb, a.state, a.postcode, a.country,
                OrEmpty(a.contactName), OrEmpty(a.contactPhone), OrEmpty(a.contactEmail),
                OrEmpty(a.pickupNotes), OrEmpty(a.deliveryNotes), row.isDefault)
  }

  /** The columns a save writes: empty optional inputs become null. */
  function FieldsOf(f: AddressForm): (a: AddressFields)
    ensures a.addressLabel == f.addressLabel && a.streetAddress == f.streetAddress && a.suburb == f.suburb
    ensures a.state == f.state && a.postcode == f.postcode && a.country == f.country
    ensures a.contactName == NullIfEmpty(f.contactName) && a.contactPhone == NullIfEmpty(f.contactPhone)
    ensures a.contactEmail == NullIfEmpty(f.contactEmail)
    ensures a.pickupNotes == NullIfEmpty(f.pickupNotes) && a.deliveryNotes == NullIfEmpty(f.deliveryNotes)
  {
    AddressFields(f.addressLabel, f.streetAddress, f.suburb, f.state, f.postcode, f.country,
                  NullIfEmpty(f.contactName), NullIfEmpty(f.contactPhone), NullIfEmpty(f.contactEmail),
                  NullIfEmpty(f.pickupNotes), NullIfEmpty(f.deliveryNotes))
  }

  /** Reopening a saved address shows exactly the form that was saved. */
  lemma SaveThenOpen(f: AddressForm, userId: string, tenantId: string)
    ensures FormOf(AddressRow(userId, tenantId, FieldsOf(f), f.isDefault)) == f
  {
    OrEmptyNullIfEmpty(f.contactName);
    OrEmptyNullIfEmpty(f.contactPhone);
    OrEmptyNullIfEmpty(f.contactEmail);
    OrEmptyNullIfEmpty(f.pickupNotes);
    OrEmptyNullIfEmpty(f.deliveryNotes);
  }

  /** "Unset all defaults" for one user: that user's rows lose the flag,
      other rows are untouched. */
  function UnsetDefaults(t: Table, userId: string): (r: Table)
    ensures r.Keys == t.Keys
    ensures forall k :: k in t && t[k].userId == userId ==> r[k] == t[k].(isDefault := false)
    ensures forall k :: k in t && t[k].userId != userId ==> r[k] == t[k]
  {
    map k | k in t :: if t[k].userId == userId then t[k].(isDefault := false) else t[k]
  }

  /** `handleSetDefault(id)` for the signed-in user: clear that user's
      defaults, then flag the row with that id, whoever owns it. Among the
      user's rows, exactly `id` is default afterwards. */
  function SetDefault(t: Table, userId: string, id: string): (r: Table)
    ensures r.Keys == t.Keys
    ensures forall k :: k in r && r[k].userId == userId ==> (r[k].isDefault <==> k == id)
    ensures id in t ==> r[id] == t[id].(isDefault := true)
    ensures forall k :: k in t && k != id && t[k].userId != userId ==> r[k] == t[k]
  {
    var u := UnsetDefaults(t, userId);
    if id in u then u[id := u[id].(isDefault := true)] else u
  }

  /** At most one of a user's rows is the default. */
  predicate SingleDefault(t: Table, userId: string) {
    forall a, b ::
      (a in t && b in t && t[a].userId == userId && t[b].userId == userId && t[a].isDefault && t[b].isDefault)
      ==> a == b
  }

  lemma SetDefaultSingle(t: Table, userId: string, id: string)
    ensures SingleDefault(SetDefault(t, userId, id), userId)
  {
  }

  /** `handleSave` on the table: with the default box ticked, the user's
      defaults are cleared first; then the edited row (matched by id alone)
      takes the form's columns and flag, or a new row for the user and their
      tenant is written under `newId`. */
  function SaveRow(t: Table, userId: string, tenantId: string, editing: Option<string>,
                   newId: string, f: AddressForm): (r: Table)
  {
    var t1 := if f.isDefault then UnsetDefaults(t, userId) else t;
    match editing
    case Some(id) =>
      if id in t1 then t1[id := t1[id].(fields := FieldsOf(f), isDefault := f.isDefault)] else t1
    case None =>
      t1[newId := AddressRow(userId, tenantId, FieldsOf(f), f.isDefault)]
  }

  /** What a save does to the table: the saved row holds the form, other
      rows only lose their default flag (and only when the box is ticked and
      they are the user's), and a ticked box leaves the saved row as the
      user's only default. */
  lemma SaveRowEffect(t: Table, userId: string, tenantId: string, editing: Option<string>,
                      newId: string, f: AddressForm)
    requires editing.None? ==> newId !in t
    ensures var r := SaveRow(t, userId, tenantId, editing, newId, f);
      && (editing.None? ==> r.Keys == t.Keys + {newId}
                            && r[newId] == AddressRow(userId, tenantId, FieldsOf(f), f.isDefault))
      && (editing.Some? ==> r.Keys == t.Keys)
      && (editing.Some? && editing.value in t ==>
            r[editing.value] == t[editing.value].(fields := FieldsOf(f), isDefault := f.isDefault))
      && (forall k :: k in t && Some(k) != editing ==>
            r[k] == if f.isDefault && t[k].userId == userId then t[k].(isDefault := false) else t[k])
  {
  }

  /** Saving with the default box ticked, as a new address or over one of
      the user's own, leaves that address as the user's only default. */
  lemma SaveDefaultSingle(t: Table, userId: string, tenantId: string, editing: Option<string>,
                          newId: string, f: AddressForm)
    requires f.isDefault
    requires editing.None? ==> newId !in t
    requires editing.Some? ==> editing.value in t && t[editing.value].userId == userId
    ensures var r := SaveRow(t, userId, tenantId, editing, newId, f);
      var saved := if editing.Some? then editing.value else newId;
      forall k :: k in r && r[k].userId == userId ==> (r[k].isDefault <==> k == saved)
  {
  }

  /** Saving with the default box unticked keeps the user's default, if
      any, unique: it can only take the flag away from the saved row. */
  lemma SaveUntickedKeepsSingle(t: Table, userId: string, tenantId: string, editing: Option<string>,
                                newId: string, f: AddressForm)
    requires !f.isDefault
    requires editing.None? ==> newId !in t
    requires SingleDefault(t, userId)
    ensures SingleDefault(SaveRow(t, userId, tenantId, editing, newId, f), userId)
  {
  }

  /** The search box: the lower-cased query occurs in the lower-cased label,
      street address or suburb. */
  predicate MatchesSearch(e: AddressEntry, query: string) {
    var q := ToLower(query);
    Includes(ToLower(e.row.fields.addressLabel), q)
    || Includes(ToLower(e.row.fields.streetAddress), q)
    || Includes(ToLower(e.row.fields.suburb), q)
  }

  /** `filteredAddresses`: the matching entries in their listed order. */
  function Search(es: seq<AddressEntry>, query: string): (r: seq<AddressEntry>)
    ensures forall i :: 0 <= i < |r| ==> MatchesSearch(r[i], query) && r[i] in es
    ensures forall i :: 0 <= i < |es| && MatchesSearch(es[i], query) ==> es[i] in r
    ensures IsSubsequence(r, es)
  {
    FilterIsSubsequence(es, (e: AddressEntry) => MatchesSearch(e, query));
    Filter(es, (e: AddressEntry) => MatchesSearch(e, query))
  }

  /** An empty search lists every address. */
  lemma EmptySearchKeepsAll(es: seq<AddressEntry>)
    ensures Search(es, "") == es
  {
    forall i | 0 <= i < |es|
      ensures MatchesSearch(es[i], "")
    {
      assert OccursAt(ToLower(es[i].row.fields.addressLabel), ToLower(""), 0);
    }
    FilterAll(es, (e: AddressEntry) => MatchesSearch(e, ""));
  }

  datatype SaveOutcome = NotSignedIn | MissingFields | Updated | Added

  datatype PageState = PageState(table: Table, showModal: bool, editingAddress: Option<AddressEntry>,
                                 formData: AddressForm, deleteConfirm: Option<string>)

  class AddressBookPage {
    /** The backend table the page reads and writes. */
    var table: Table
    var showModal: bool
    var editingAddress: Option<AddressEntry>
    var formData: AddressForm
    var deleteConfirm: Option<string>

    function State(): PageState
      reads this
    {
      PageState(table, showModal, editingAddress, formData, deleteConfirm)
    }

    constructor(t: Table)
      ensures State() == PageState(t, false, None, EmptyAddressForm, None)
    {
      table := t;
      showModal := false;
      editingAddress := None;
      formData := EmptyAddressForm;
      deleteConfirm := None;
    }

    /** `handleOpenModal`: edit an address (form prefilled) or add one
        (empty form). */
    method OpenModal(address: Option<AddressEntry>)
      modifies this
      ensures State() == old(State()).(showModal := true, editingAddress := address,
                                       formData := if address.Some? then FormOf(address.value.row)
                                                   else EmptyAddressForm)
    {
      editingAddress := address;
      if address.Some? {
        formData := FormOf(address.value.row);
      } else {
        formData := EmptyAddressForm;
      }
      showModal := true;
    }

    /** `handleCloseModal`: closed, nothing edited, the empty form back. */
    method CloseModal()
      modifies this
      ensures State() == old(State()).(showModal := false, editingAddress := None, formData := EmptyAddressForm)
    {
      showModal := false;
      editingAddress := None;
      formData := EmptyAddressForm;
    }

    method SetForm(f: AddressForm)
      modifies this
      ensures State() == old(State()).(formData := f)
    {
      formData := f;
    }

    /** `handleSave`: nothing without a signed-in user and profile or with a
        required field empty; otherwise the table is written and the modal
        closes. `newId` is the id the backend gives a new row. */
    method HandleSave(user: Option<User>, profile: Option<Profile>, newId: string) returns (outcome: SaveOutcome)
      modifies this
      ensures (user.None? || profile.None?) ==> outcome == NotSignedIn && State() == old(State())
      ensures user.Some? && profile.Some? && !RequiredFilled(old(formData)) ==>
        outcome == MissingFields && State() == old(State())
      ensures user.Some? && profile.Some? && RequiredFilled(old(formData)) ==>
        && outcome == (if old(editingAddress).Some? then Updated else Added)
        && State() == PageState(SaveRow(old(table), user.value.id, profile.value.tenantId,
                                        if old(editingAddress).Some? then Some(old(editingAddress).value.id) else None,
                                        newId, old(formData)),
                                false, None, EmptyAddressForm, old(deleteConfirm))
    {
      if user.None? || profile.None? {
        return NotSignedIn;
      }
      if !RequiredFilled(formData) {
        return MissingFields;
      }
      var editing := if editingAddress.Some? then Some(editingAddress.value.id) else None;
      table := SaveRow(table, user.value.id, profile.value.tenantId, editing, newId, formData);
      outcome := if editingAddress.Some? then Updated else Added;
      CloseModal();
    }

    method SetDeleteConfirm(id: Option<string>)
      modifies this
      ensures State() == old(State()).(deleteConfirm := id)
    {
      deleteConfirm := id;
    }

    /** `handleDelete`: the row with that id is removed. */
    method HandleDelete(id: string)
      modifies this
      ensures State() == old(State()).(table := old(table) - {id}, deleteConfirm := None)
    {
      table := table - {id};
      deleteConfirm := None;
    }

    /** `handleSetDefault`: nothing without a signed-in user. */
    method HandleSetDefault(user: Option<User>, id: string)
      modifies this
      ensures user.None? ==> State() == old(State())
      ensures user.Some? ==> State() == old(State()).(table := SetDefault(old(table), user.value.id, id))
    {
      if user.Some? {
        table := SetDefault(table, user.value.id, id);
      }
    }
  }
}
