/** The shred-container admin page (`src/pages/admin/AdminShredServices.tsx`).
    The backend table of container types is an in-memory map from row id to
    row; the page keeps the list it last loaded for its tenant. Modelled:
    the modal form and its prefill, the save checks (tenant, required
    fields, price), the null mapping of optional inputs, the next sort
    order, delete and the two toggles. `parseFloat` of the price input and
    the ids the backend generates are parameters. */
module ShredServices {
  import opened Common
  import opened Types

  /** A row of the container-type table. */
  datatype ContainerType = ContainerType(tenantId: string, name: string, description: Option<string>,
                                         capacity: Option<string>, price: real, isPopular: bool,
                                         isActive: bool, sortOrder: int)

  type Table = map<string, ContainerType>

  /** A container type as the page lists it. */
  datatype ContainerEntry = ContainerEntry(id: string, c: ContainerType)

  /** The modal form; the price is the text typed in. */
  datatype ContainerForm = ContainerForm(name: string, description: string, capacity: string,
                                         priceText: string, isPopular: bool, isActive: bool)

  const EmptyContainerForm := ContainerForm("", "", "", "", false, true)

  /** The edit prefill: null description and capacity show as empty inputs;
      `priceText` is the price as the page prints it. */
  function FormOf(c: ContainerType, priceText: string): (f: ContainerForm)
    ensures f.name == c.name && f.priceText == priceText
    ensures f.description == OrEmpty(c.description) && f.capacity == OrEmpty(c.capacity)
    ensures f.isPopular == c.isPopular && f.isActive == c.isActive
  {
    ContainerForm(c.name, OrEmpty(c.description), OrEmpty(c.capacity), priceText, c.isPopular, c.isActive)
  }

  /** The result of the checks `handleSave` makes before writing. */
  datatype SaveCheck = NoTenant | MissingFields | InvalidPrice | ValidPrice(price: real)

  /** `handleSave`'s checks, in order: a profile with a tenant, a name and a
      price text, then a parsed price (None standing for NaN) that is not
      negative. */
  function CheckSave(profile: Option<Profile>, f: ContainerForm, parsed: Option<real>): (r: SaveCheck)
    ensures r == NoTenant <==> profile.None? || profile.value.tenantId == ""
    ensures r == MissingFields <==> profile.Some? && profile.value.tenantId != ""
                                    && (f.name == "" || f.priceText == "")
    ensures r.ValidPrice? <==> && profile.Some? && profile.value.tenantId != ""
                               && f.name != "" && f.priceText != ""
                               && parsed.Some? && parsed.value >= 0.0
    ensures r.ValidPrice? ==> r.price == parsed.value && r.price >= 0.0
  {
    if profile.None? || profile.value.tenantId == "" then NoTenant
    else if f.name == "" || f.priceText == "" then MissingFields
    else if parsed.None? || parsed.value < 0.0 then InvalidPrice
    else ValidPrice(parsed.value)
  }

  /** `Math.max` of the listed sort orders. */
  function MaxSortOrder(cs: seq<ContainerEntry>): (r: int)
    requires |cs| > 0
    ensures forall i :: 0 <= i < |cs| ==> cs[i].c.sortOrder <= r
    ensures exists i :: 0 <= i < |cs| && cs[i].c.sortOrder == r
  {
    if |cs| == 1 then cs[0].c.sortOrder
    else
      var m := MaxSortOrder(cs[1..]);
      assert forall i :: 1 <= i < |cs| ==> cs[i] == cs[1..][i - 1];
      if cs[0].c.sortOrder >= m then cs[0].c.sortOrder else m
  }

  /** The sort order of a new container type: one past the largest listed,
      or 1 for an empty list; so it is above every listed one. */
  function NextSortOrder(cs: seq<ContainerEntry>): (r: int)
    ensures cs == [] ==> r == 1
    ensures forall i :: 0 <= i < |cs| ==> cs[i].c.sortOrder < r
    ensures cs != [] ==> exists i :: 0 <= i < |cs| && r == cs[i].c.sortOrder + 1
  {
    if |cs| > 0 then MaxSortOrder(cs) + 1 else 1
  }

  /** The columns an edit writes over a row: empty optional inputs become
      null; the tenant and sort order stay. */
  function ApplyForm(c: ContainerType, f: ContainerForm, price: real): (r: ContainerType)
    ensures r.tenantId == c.tenantId && r.sortOrder == c.sortOrder
    ensures r.name == f.name && r.price == price
    ensures r.description == NullIfEmpty(f.description) && r.capacity == NullIfEmpty(f.capacity)
    ensures r.isPopular == f.isPopular && r.isActive == f.isActive
  {
    c.(name := f.name, description := NullIfEmpty(f.description), capacity := NullIfEmpty(f.capacity),
       price := price, isPopular := f.isPopular, isActive := f.isActive)
  }

  /** Reopening an edited row shows the form that was saved. */
  lemma EditThenOpen(c: ContainerType, f: ContainerForm, price: real)
    ensures FormOf(ApplyForm(c, f, price), f.priceText) == f
  {
    OrEmptyNullIfEmpty(f.description);
    OrEmptyNullIfEmpty(f.capacity);
  }

  datatype SaveOutcome = Refused(check: SaveCheck) | Updated | Added

  datatype PageState = PageState(table: Table, containers: seq<ContainerEntry>, showModal: bool,
                                 editingContainer: Option<ContainerEntry>, formData: ContainerForm,
                                 deleteConfirm: Option<string>)

  class ShredServicesPage {
    /** The backend table. */
    var table: Table
    /** The list last loaded for the tenant. */
    var containers: seq<ContainerEntry>
    var showModal: bool
    var editingContainer: Option<ContainerEntry>
    var formData: ContainerForm
    var deleteConfirm: Option<string>

    function State(): PageState
      reads this
    {
      PageState(table, containers, showModal, editingContainer, formData, deleteConfirm)
    }

    constructor(t: Table)
      ensures State() == PageState(t, [], false, None, EmptyContainerForm, None)
    {
      table := t;
      containers := [];
      showModal := false;
      editingContainer := None;
      formData := EmptyContainerForm;
      deleteConfirm := None;
    }

    /** The list a load returned. */
    method Loaded(list: seq<ContainerEntry>)
      modifies this
      ensures State() == old(State()).(containers := list)
    {
      containers := list;
    }

    /** `handleOpenModal`; `priceText` is the edited row's price as text. */
    method OpenModal(container: Option<ContainerEntry>, priceText: string)
      modifies this
      ensures State() == old(State()).(showModal := true, editingContainer := container,
                                       formData := if container.Some? then FormOf(container.value.c, priceText)
                                                   else EmptyContainerForm)
    {
      editingContainer := container;
      if container.Some? {
        formData := FormOf(container.value.c, priceText);
      } else {
        formData := EmptyContainerForm;
      }
      showModal := true;
    }

    method CloseModal()
      modifies this
      ensures State() == old(State()).(showModal := false, editingContainer := None,
                                       formData := EmptyContainerForm)
    {
      showModal := false;
      editingContainer := None;
      formData := EmptyContainerForm;
    }

    method SetForm(f: ContainerForm)
      modifies this
      ensures State() == old(State()).(formData := f)
    {
      formData := f;
    }

    /** `handleSave` with `parsed` the price text's parse (None for NaN) and
        `newId` the id of an inserted row. A failed check changes nothing;
        an edit rewrites the row with the edited id, if it still exists; a
        new row goes to the profile's tenant with the next sort order. */
    method HandleSave(profile: Option<Profile>, parsed: Option<real>, newId: string) returns (outcome: SaveOutcome)
      modifies this
      ensures !CheckSave(profile, old(formData), parsed).ValidPrice? ==>
        outcome == Refused(CheckSave(profile, old(formData), parsed)) && State() == old(State())
      ensures CheckSave(profile, old(formData), parsed).ValidPrice? && old(editingContainer).Some? ==>
        var id := old(editingContainer).value.id;
        && outcome == Updated
        && State() == old(State()).(table := if id in old(table)
                                              then old(table)[id := ApplyForm(old(table)[id], old(formData), parsed.value)]
                                              else old(table),
                                    showModal := false, editingContainer := None, formData := EmptyContainerForm)
      ensures CheckSave(profile, old(formData), parsed).ValidPrice? && old(editingContainer).None? ==>
        var f := old(formData);
        && outcome == Added
        && State() == old(State()).(table := old(table)[newId := ContainerType(profile.value.tenantId, f.name,
                                                NullIfEmpty(f.description), NullIfEmpty(f.capacity), parsed.value,
                                                f.isPopular, f.isActive, NextSortOrder(old(containers)))],
                                    showModal := false, editingContainer := None, formData := EmptyContainerForm)
    {
      var check := CheckSave(profile, formData, parsed);
      if !check.ValidPrice? {
        return Refused(check);
      }
      if editingContainer.Some? {
        var id := editingContainer.value.id;
        if id in table {
          table := table[id := ApplyForm(table[id], formData, check.price)];
        }
        outcome := Updated;
      } else {
        var maxOrder := NextSortOrder(containers);
        table := table[newId := ContainerType(profile.value.tenantId, formData.name,
                                              NullIfEmpty(formData.description), NullIfEmpty(formData.capacity),
                                              check.price, formData.isPopular, formData.isActive, maxOrder)];
        outcome := Added;
      }
      CloseModal();
    }

    method SetDeleteConfirm(id: Option<string>)
      modifies this
      ensures State() == old(State()).(deleteConfirm := id)
    {
      deleteConfirm := id;
    }

    method HandleDelete(id: string)
      modifies this
      ensures State() == old(State()).(table := old(table) - {id}, deleteConfirm := None)
    {
      table := table - {id};
      deleteConfirm := None;
    }

    /** `toggleActive`: the row takes the negation of the listed entry's
        flag (which may be stale). */
    method ToggleActive(container: ContainerEntry)
      modifies this
      ensures State() == old(State()).(table := if container.id in old(table)
                                                then old(table)[container.id := old(table)[container.id].(isActive := !container.c.isActive)]
                                                else old(table))
    {
      if container.id in table {
        table := table[container.id := table[container.id].(isActive := !container.c.isActive)];
      }
    }

    method TogglePopular(container: ContainerEntry)
      modifies this
      ensures State() == old(State()).(table := if container.id in old(table)
                                                then old(table)[container.id := old(table)[container.id].(isPopular := !container.c.isPopular)]
                                                else old(table))
    {
      if container.id in table {
        table := table[container.id := table[container.id].(isPopular := !container.c.isPopular)];
      }
    }
  }
}
