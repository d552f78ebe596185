/** The authentication store (`src/stores/authStore.ts`): the signed-in
    user, their profile and tenant, and the loading and authenticated flags.
    The store keeps `isAuthenticated` equal to "a user is set". */
module AuthStore {
  import opened Common
  import opened Types

  datatype AuthState = AuthState(user: Option<User>, profile: Option<Profile>, tenant: Option<Tenant>,
                                 isLoading: bool, isAuthenticated: bool)

  /** The invariant every action keeps. */
  predicate Consistent(s: AuthState) {
    s.isAuthenticated <==> s.user.Some?
  }

  class Store {
    var user: Option<User>
    var profile: Option<Profile>
    var tenant: Option<Tenant>
    var isLoading: bool
    var isAuthenticated: bool

    function State(): AuthState
      reads this
    {
      AuthState(user, profile, tenant, isLoading, isAuthenticated)
    }

    predicate Valid()
      reads this
    {
      Consistent(State())
    }

    /** Signed out and not loading. */
    constructor()
      ensures Valid()
      ensures State() == AuthState(None, None, None, false, false)
    {
      user := None;
      profile := None;
      tenant := None;
      isLoading := false;
      isAuthenticated := false;
    }

    /** `setUser`: authenticated exactly when a user is given; loading ends. */
    method SetUser(u: Option<User>)
      requires Valid()
      modifies this
      ensures Valid()
      ensures State() == old(State()).(user := u, isAuthenticated := u.Some?, isLoading := false)
    {
      user := u;
      isAuthenticated := u.Some?;
      isLoading := false;
    }

    method SetProfile(p: Option<Profile>)
      requires Valid()
      modifies this
      ensures Valid()
      ensures State() == old(State()).(profile := p)
    {
      profile := p;
    }

    method SetTenant(t: Option<Tenant>)
      requires Valid()
      modifies this
      ensures Valid()
      ensures State() == old(State()).(tenant := t)
    {
      tenant := t;
    }

    method SetLoading(loading: bool)
      requires Valid()
      modifies this
      ensures Valid()
      ensures State() == old(State()).(isLoading := loading)
    {
      isLoading := loading;
    }

    /** `logout`: back to the initial state. */
    method Logout()
      requires Valid()
      modifies this
      ensures Valid()
      ensures State() == AuthState(None, None, None, false, false)
    {
      user := None;
      profile := None;
      tenant := None;
      isAuthenticated := false;
      isLoading := false;
    }
  }
}
