/** The platform-updates admin page (`src/pages/admin/AdminUpdates.tsx`): a
    list of announcements edited in a modal form, with create, edit, delete,
    a publish toggle and the active / inactive split the page shows. The
    clock and the id taken from it are parameters. */
module AdminUpdates {
  import opened Common

  datatype UpdateType = InfoUpdate | FeatureUpdate | WarningUpdate | MaintenanceUpdate

  datatype PlatformUpdate = PlatformUpdate(id: string, title: string, content: string,
                                           updateType: UpdateType, isActive: bool,
                                           createdAt: string, updatedAt: string)

  /** The fields the modal edits. */
  datatype UpdateForm = UpdateForm(title: string, content: string, updateType: UpdateType, isActive: bool)

  const EmptyForm := UpdateForm("", "", InfoUpdate, true)

  /** The form prefilled from an existing update. */
  function FormOf(u: PlatformUpdate): (r: UpdateForm)
    ensures r.title == u.title && r.content == u.content
    ensures r.updateType == u.updateType && r.isActive == u.isActive
  {
    UpdateForm(u.title, u.content, u.updateType, u.isActive)
  }

  /** Save is refused while the title or the content is empty. */
  predicate FormComplete(f: UpdateForm) {
    f.title != "" && f.content != ""
  }

  /** `{ ...u, ...formData, updated_at: now }`: the form's fields over the
      entry; the id and the creation time stay. */
  function ApplyForm(u: PlatformUpdate, f: UpdateForm, now: string): (r: PlatformUpdate)
    ensures r.id == u.id && r.createdAt == u.createdAt && r.updatedAt == now
    ensures FormOf(r) == f
  {
    u.(title := f.title, content := f.content, updateType := f.updateType,
       isActive := f.isActive, updatedAt := now)
  }

  /** A new update built from the form, stamped `now` twice. */
  function NewUpdate(id: string, f: UpdateForm, now: string): (r: PlatformUpdate)
    ensures r.id == id && FormOf(r) == f && r.createdAt == now && r.updatedAt == now
  {
    PlatformUpdate(id, f.title, f.content, f.updateType, f.isActive, now, now)
  }

  /** The edit branch: every entry with the edited id takes the form's
      fields; every other entry is untouched. */
  function EditWhere(us: seq<PlatformUpdate>, id: string, f: UpdateForm, now: string): (r: seq<PlatformUpdate>)
    ensures |r| == |us|
    ensures forall i :: 0 <= i < |us| && us[i].id == id ==> r[i] == ApplyForm(us[i], f, now)
    ensures forall i :: 0 <= i < |us| && us[i].id != id ==> r[i] == us[i]
    ensures forall i :: 0 <= i < |us| ==> r[i].id == us[i].id && r[i].createdAt == us[i].createdAt
  {
    seq(|us|, i requires 0 <= i < |us| => if us[i].id == id then ApplyForm(us[i], f, now) else us[i])
  }

  /** `handleToggleActive`: flips `is_active` on the entries with that id. */
  function ToggleWhere(us: seq<PlatformUpdate>, id: string): (r: seq<PlatformUpdate>)
    ensures |r| == |us|
    ensures forall i :: 0 <= i < |us| && us[i].id == id ==> r[i] == us[i].(isActive := !us[i].isActive)
    ensures forall i :: 0 <= i < |us| && us[i].id != id ==> r[i] == us[i]
  {
    if us == [] then []
    else [if us[0].id == id then us[0].(isActive := !us[0].isActive) else us[0]] + ToggleWhere(us[1..], id)
  }

  /** `handleDelete`: the entries with that id go, the rest keep their order. */
  function DeleteWhere(us: seq<PlatformUpdate>, id: string): (r: seq<PlatformUpdate>)
    ensures forall i :: 0 <= i < |r| ==> r[i].id != id && r[i] in us
    ensures forall i :: 0 <= i < |us| && us[i].id != id ==> us[i] in r
    ensures IsSubsequence(r, us)
  {
    FilterIsSubsequence(us, (u: PlatformUpdate) => u.id != id);
    Filter(us, (u: PlatformUpdate) => u.id != id)
  }

  function ActiveUpdates(us: seq<PlatformUpdate>): (r: seq<PlatformUpdate>)
    ensures forall i :: 0 <= i < |r| ==> r[i].isActive && r[i] in us
    ensures forall i :: 0 <= i < |us| && us[i].isActive ==> us[i] in r
  {
    Filter(us, (u: PlatformUpdate) => u.isActive)
  }

  function InactiveUpdates(us: seq<PlatformUpdate>): (r: seq<PlatformUpdate>)
    ensures forall i :: 0 <= i < |r| ==> !r[i].isActive && r[i] in us
    ensures forall i :: 0 <= i < |us| && !us[i].isActive ==> us[i] in r
  {
    Filter(us, (u: PlatformUpdate) => !u.isActive)
  }

  /** The two sections together hold every update exactly once. */
  lemma PartitionSizes(us: seq<PlatformUpdate>)
    ensures |ActiveUpdates(us)| + |InactiveUpdates(us)| == |us|
  {
    FilterPartitionSize(us, (u: PlatformUpdate) => u.isActive, (u: PlatformUpdate) => !u.isActive);
  }

  /** Toggling the same id twice restores the list. */
  lemma ToggleTwice(us: seq<PlatformUpdate>, id: string)
    ensures ToggleWhere(ToggleWhere(us, id), id) == us
  {
    var r := ToggleWhere(ToggleWhere(us, id), id);
    assert forall i :: 0 <= i < |us| ==> r[i] == us[i];
  }

  predicate UniqueIds(us: seq<PlatformUpdate>) {
    forall i, j :: 0 <= i < j < |us| ==> us[i].id != us[j].id
  }

  /** Toggling an id no entry has changes nothing. */
  lemma {:induction false} ToggleAbsent(us: seq<PlatformUpdate>, id: string)
    requires forall i :: 0 <= i < |us| ==> us[i].id != id
    ensures ToggleWhere(us, id) == us
  {
    if us != [] {
      ToggleAbsent(us[1..], id);
    }
  }

  /** With unique ids, toggling one present entry moves exactly that entry
      from one section to the other. */
  lemma {:induction false} ToggleMovesOne(us: seq<PlatformUpdate>, k: nat)
    requires UniqueIds(us) && k < |us|
    ensures |ActiveUpdates(ToggleWhere(us, us[k].id))|
            == |ActiveUpdates(us)| + (if us[k].isActive then -1 else 1)
  {
    var id := us[k].id;
    var p := (u: PlatformUpdate) => u.isActive;
    var t := ToggleWhere(us, id);
    assert t == [t[0]] + t[1..];
    assert t[1..] == ToggleWhere(us[1..], id);
    if k == 0 {
      ToggleAbsent(us[1..], id);
      assert Filter(t, p) == (if t[0].isActive then [t[0]] else []) + Filter(us[1..], p);
    } else {
      assert UniqueIds(us[1..]);
      assert us[1..][k - 1] == us[k];
      ToggleMovesOne(us[1..], k - 1);
      assert t[0] == us[0];
    }
  }

  datatype PageState = PageState(updates: seq<PlatformUpdate>, showModal: bool,
                                 editingUpdate: Option<PlatformUpdate>, formData: UpdateForm,
                                 deleteConfirm: Option<string>)

  /** What `handleSave` did, and so which toast it shows. */
  datatype SaveOutcome = MissingFields | Updated | Created

  class UpdatesPage {
    var updates: seq<PlatformUpdate>
    var showModal: bool
    var editingUpdate: Option<PlatformUpdate>
    var formData: UpdateForm
    var deleteConfirm: Option<string>

    function State(): PageState
      reads this
    {
      PageState(updates, showModal, editingUpdate, formData, deleteConfirm)
    }

    /** The page starts from the list it is given, with the modal closed. */
    constructor(initial: seq<PlatformUpdate>)
      ensures State() == PageState(initial, false, None, EmptyForm, None)
    {
      updates := initial;
      showModal := false;
      editingUpdate := None;
      formData := EmptyForm;
      deleteConfirm := None;
    }

    /** `handleOpenModal`: edit an update (form prefilled) or create one
        (empty form). */
    method OpenModal(update: Option<PlatformUpdate>)
      modifies this
      ensures State() == old(State()).(showModal := true, editingUpdate := update,
                                       formData := if update.Some? then FormOf(update.value) else EmptyForm)
    {
      editingUpdate := update;
      if update.Some? {
        formData := FormOf(update.value);
      } else {
        formData := EmptyForm;
      }
      showModal := true;
    }

    /** `handleCloseModal`: closed, nothing being edited, form emptied. */
    method CloseModal()
      modifies this
      ensures State() == old(State()).(showModal := false, editingUpdate := None, formData := EmptyForm)
    {
      showModal := false;
      editingUpdate := None;
      formData := EmptyForm;
    }

    method SetForm(f: UpdateForm)
      modifies this
      ensures State() == old(State()).(formData := f)
    {
      formData := f;
    }

    /** `handleSave` at time `now`, with `newId` the id a new update gets. An
        incomplete form changes nothing; an edit rewrites the entries with
        the edited id; a create prepends one update. Either success closes
        the modal. */
    method HandleSave(now: string, newId: string) returns (outcome: SaveOutcome)
      modifies this
      ensures !FormComplete(old(formData)) ==> outcome == MissingFields && State() == old(State())
      ensures FormComplete(old(formData)) && old(editingUpdate).Some? ==>
        && outcome == Updated
        && State() == PageState(EditWhere(old(updates), old(editingUpdate).value.id, old(formData), now),
                                false, None, EmptyForm, old(deleteConfirm))
      ensures FormComplete(old(formData)) && old(editingUpdate).None? ==>
        && outcome == Created
        && State() == PageState([NewUpdate(newId, old(formData), now)] + old(updates),
                                false, None, EmptyForm, old(deleteConfirm))
    {
      if formData.title == "" || formData.content == "" {
        return MissingFields;
      }
      if editingUpdate.Some? {
        updates := EditWhere(updates, editingUpdate.value.id, formData, now);
        outcome := Updated;
      } else {
        updates := [NewUpdate(newId, formData, now)] + updates;
        outcome := Created;
      }
      CloseModal();
    }

    /** Asking for confirmation before a delete. */
    method ConfirmDelete(id: string)
      modifies this
      ensures State() == old(State()).(deleteConfirm := Some(id))
    {
      deleteConfirm := Some(id);
    }

    /** `handleDelete`: the entries with that id are removed and the
        confirmation is cleared. */
    method HandleDelete(id: string)
      modifies this
      ensures State() == old(State()).(updates := DeleteWhere(old(updates), id), deleteConfirm := None)
    {
      updates := Filter(updates, (u: PlatformUpdate) => u.id != id);
      deleteConfirm := None;
    }

    /** `handleToggleActive`: flips the entry with the argument's id; the
        toast reports `published` from the argument's own flag. */
    method HandleToggleActive(update: PlatformUpdate) returns (published: bool)
      modifies this
      ensures State() == old(State()).(updates := ToggleWhere(old(updates), update.id))
      ensures published == !update.isActive
    {
      updates := ToggleWhere(updates, update.id);
      published := !update.isActive;
    }
  }
}
