/** The team page (`src/pages/Team.tsx`): the tenant's members, an invite
    form that appends a pending member, role changes and removal, and the
    counters shown above the list. Member roles are kept as the strings the
    page stores. The clock and the id taken from it are parameters. */
module Team {
  import opened Common
  import opened Types

  datatype TeamMember = TeamMember(id: string, email: string, fullName: string, phone: Option<string>,
                                   role: string, createdAt: string, lastSignIn: Option<string>,
                                   isActive: bool)

  datatype InviteForm = InviteForm(email: string, fullName: string, role: string)

  const EmptyInvite := InviteForm("", "", "customer")

  /** `isOwner`: the signed-in profile may invite and manage members. */
  predicate IsOwner(profile: Option<Profile>) {
    profile.Some? && (profile.value.role == Admin || profile.value.role == SuperAdmin)
  }

  lemma IsOwnerRoles(profile: Option<Profile>)
    ensures IsOwner(profile) <==> profile.Some? && profile.value.role.Name() in {"admin", "super_admin"}
  {
  }

  /** The per-member actions are offered to an owner, on every member except
      the signed-in user. */
  predicate CanManage(profile: Option<Profile>, userId: Option<string>, m: TeamMember): (r: bool)
    ensures r <==> profile.Some? && profile.value.role.Name() in {"admin", "super_admin"} && userId != Some(m.id)
    ensures userId == Some(m.id) ==> !r
  {
    IsOwnerRoles(profile);
    IsOwner(profile) && userId != Some(m.id)
  }

  predicate IsAdminMember(m: TeamMember) {
    m.role == "admin" || m.role == "super_admin"
  }

  /** The "Admins" counter. */
  function AdminCount(ms: seq<TeamMember>): (r: nat)
    ensures r <= |ms|
    ensures r == 0 <==> forall i :: 0 <= i < |ms| ==> !IsAdminMember(ms[i])
  {
    var f := Filter(ms, (m: TeamMember) => IsAdminMember(m));
    assert f != [] ==> IsAdminMember(f[0]) && exists j :: 0 <= j < |ms| && ms[j] == f[0];
    |f|
  }

  /** The "Pending Invites" counter: members not yet active. */
  function PendingCount(ms: seq<TeamMember>): (r: nat)
    ensures r <= |ms|
    ensures r == 0 <==> forall i :: 0 <= i < |ms| ==> ms[i].isActive
  {
    var f := Filter(ms, (m: TeamMember) => !m.isActive);
    assert f != [] ==> !f[0].isActive && exists j :: 0 <= j < |ms| && ms[j] == f[0];
    |f|
  }

  /** The member an invite creates: pending, no phone, no sign-in yet. */
  function Invited(f: InviteForm, id: string, now: string): (r: TeamMember)
    ensures !r.isActive && r.phone.None? && r.lastSignIn.None?
    ensures r.id == id && r.email == f.email && r.fullName == f.fullName && r.role == f.role
  {
    TeamMember(id, f.email, f.fullName, None, f.role, now, None, false)
  }

  /** An invite adds one pending member, and one admin exactly when the
      invited role is an admin role. */
  lemma InviteCounts(ms: seq<TeamMember>, f: InviteForm, id: string, now: string)
    ensures PendingCount(ms + [Invited(f, id, now)]) == PendingCount(ms) + 1
    ensures AdminCount(ms + [Invited(f, id, now)])
            == AdminCount(ms) + (if f.role == "admin" || f.role == "super_admin" then 1 else 0)
  {
    FilterAppend(ms, Invited(f, id, now), (m: TeamMember) => !m.isActive);
    FilterAppend(ms, Invited(f, id, now), (m: TeamMember) => IsAdminMember(m));
  }

  /** `handleUpdateRole`: the members with that id take the new role. */
  function UpdateRole(ms: seq<TeamMember>, id: string, role: string): (r: seq<TeamMember>)
    ensures |r| == |ms|
    ensures forall i :: 0 <= i < |ms| && ms[i].id == id ==> r[i] == ms[i].(role := role)
    ensures forall i :: 0 <= i < |ms| && ms[i].id != id ==> r[i] == ms[i]
  {
    if ms == [] then []
    else [if ms[0].id == id then ms[0].(role := role) else ms[0]] + UpdateRole(ms[1..], id, role)
  }

  /** A role change never changes the pending counter. */
  lemma {:induction false} UpdateRoleKeepsPending(ms: seq<TeamMember>, id: string, role: string)
    ensures PendingCount(UpdateRole(ms, id, role)) == PendingCount(ms)
  {
    if ms != [] {
      UpdateRoleKeepsPending(ms[1..], id, role);
      var r := UpdateRole(ms, id, role);
      assert r[1..] == UpdateRole(ms[1..], id, role);
      assert r == [r[0]] + r[1..];
    }
  }

  /** `handleRemoveMember`: the members with that id go, the rest keep their
      order. */
  function RemoveMember(ms: seq<TeamMember>, id: string): (r: seq<TeamMember>)
    ensures forall i :: 0 <= i < |r| ==> r[i].id != id && r[i] in ms
    ensures forall i :: 0 <= i < |ms| && ms[i].id != id ==> ms[i] in r
    ensures IsSubsequence(r, ms)
  {
    FilterIsSubsequence(ms, (m: TeamMember) => m.id != id);
    Filter(ms, (m: TeamMember) => m.id != id)
  }

  datatype PageState = PageState(teamMembers: seq<TeamMember>, showInviteModal: bool,
                                 deleteConfirm: Option<string>, inviteForm: InviteForm)

  datatype InviteOutcome = MissingFields | InvitationSent

  class TeamPage {
    var teamMembers: seq<TeamMember>
    var showInviteModal: bool
    var deleteConfirm: Option<string>
    var inviteForm: InviteForm

    function State(): PageState
      reads this
    {
      PageState(teamMembers, showInviteModal, deleteConfirm, inviteForm)
    }

    constructor(initial: seq<TeamMember>)
      ensures State() == PageState(initial, false, None, EmptyInvite)
    {
      teamMembers := initial;
      showInviteModal := false;
      deleteConfirm := None;
      inviteForm := EmptyInvite;
    }

    method SetShowInviteModal(show: bool)
      modifies this
      ensures State() == old(State()).(showInviteModal := show)
    {
      showInviteModal := show;
    }

    method SetInviteForm(f: InviteForm)
      modifies this
      ensures State() == old(State()).(inviteForm := f)
    {
      inviteForm := f;
    }

    method SetDeleteConfirm(id: Option<string>)
      modifies this
      ensures State() == old(State()).(deleteConfirm := id)
    {
      deleteConfirm := id;
    }

    /** `handleInvite` at time `now`, with `newId` the new member's id. A
        missing email or name changes nothing; otherwise one pending member
        is appended, the modal closes and the form is reset. */
    method HandleInvite(now: string, newId: string) returns (outcome: InviteOutcome)
      modifies this
      ensures old(inviteForm).email == "" || old(inviteForm).fullName == "" ==>
        outcome == MissingFields && State() == old(State())
      ensures old(inviteForm).email != "" && old(inviteForm).fullName != "" ==>
        && outcome == InvitationSent
        && State() == old(State()).(teamMembers := old(teamMembers) + [Invited(old(inviteForm), newId, now)],
                                    showInviteModal := false, inviteForm := EmptyInvite)
    {
      if inviteForm.email == "" || inviteForm.fullName == "" {
        return MissingFields;
      }
      teamMembers := teamMembers + [Invited(inviteForm, newId, now)];
      showInviteModal := false;
      inviteForm := EmptyInvite;
      outcome := InvitationSent;
    }

    method HandleUpdateRole(memberId: string, newRole: string)
      modifies this
      ensures State() == old(State()).(teamMembers := UpdateRole(old(teamMembers), memberId, newRole))
    {
      teamMembers := UpdateRole(teamMembers, memberId, newRole);
    }

    method HandleRemoveMember(memberId: string)
      modifies this
      ensures State() == old(State()).(teamMembers := RemoveMember(old(teamMembers), memberId),
                                       deleteConfirm := None)
    {
      teamMembers := Filter(teamMembers, (m: TeamMember) => m.id != memberId);
      deleteConfirm := None;
    }
  }
}
