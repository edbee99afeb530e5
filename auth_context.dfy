/** The authentication context: one `{user, isAuthenticated, isLoading}` record that each call
    replaces after the backend call it wraps. */
module AuthContext {
  import opened Wrappers
  import opened MockBackend

  datatype AuthState = AuthState(user: Option<User>, isAuthenticated: bool, isLoading: bool)

  /** The state before the first profile fetch. */
  const Initial := AuthState(None, false, true)

  /** `isAuthenticated` says exactly whether a user is held. */
  predicate Consistent(s: AuthState)
  {
    s.isAuthenticated <==> s.user.Some?
  }

  /** How a call to `apiGetProfile` ended. */
  datatype ProfileFetch = Returned(profile: Option<User>) | Threw

  /** The state `refreshProfile` writes: the fetched user, or none when the fetch threw. */
  function AfterRefresh(prev: AuthState, fetch: ProfileFetch): (s: AuthState)
    ensures Consistent(s) && !s.isLoading
    ensures fetch.Returned? ==> s.user == fetch.profile
    ensures fetch.Threw? ==> s.user.None? && !s.isAuthenticated
  {
    match fetch
    case Returned(u) => prev.(user := u, isAuthenticated := u.Some?, isLoading := false)
    case Threw => prev.(user := None, isAuthenticated := false, isLoading := false)
  }

  /** The state a successful `login` or `register` writes. */
  function SignedIn(u: User): (s: AuthState)
    ensures Consistent(s) && !s.isLoading && s.user == Some(u)
  {
    AuthState(Some(u), true, false)
  }

  class AuthProvider {
    const backend: Backend
    var state: AuthState

    constructor (b: Backend)
      ensures backend == b && state == Initial && Consistent(state)
    {
      backend := b;
      state := Initial;
    }

    /** `refreshProfile`: the live profile behind the session, loading finished. The in-memory
        store cannot hold malformed JSON, so the fetch here always returns. */
    method RefreshProfile()
      modifies this`state
      ensures state == AfterRefresh(old(state), Returned(ProfileOf(backend.users, backend.session)))
      ensures Consistent(state) && !state.isLoading
    {
      var u := backend.GetProfile();
      state := AfterRefresh(state, Returned(u));
    }

    /** `login`: on success the first stored record matching the credentials, authenticated; on failure the
        backend throws before `setState`, so nothing changes. */
    method Login(email: string, password: string) returns (r: Result<User, BackendError>)
      modifies this`state, backend`session
      ensures r.Success? <==>
        exists j :: 0 <= j < |backend.users| && backend.users[j].email == email && backend.users[j].password == password
      ensures r.Success? ==> state == SignedIn(r.value) && backend.session == Some(r.value)
      ensures r.Success? ==> r.value in backend.users && r.value.email == email && r.value.password == password
      ensures r.Success? ==> r.value == backend.users[IndexOfCredentials(backend.users, email, password).value]
      ensures backend.users == old(backend.users)
      ensures r.Failure? ==> r.error == InvalidCredentials
      ensures r.Failure? ==> state == old(state) && backend.session == old(backend.session)
    {
      r := backend.Login(email, password);
      if r.Success? {
        state := SignedIn(r.value);
      }
    }

    /** `register`: on success exactly the newly created record, appended and authenticated; on failure nothing changes. */
    method Register(email: string, password: string, name: string, now: nat) returns (r: Result<User, BackendError>)
      modifies this`state, backend
      ensures r.Success? ==> state == SignedIn(r.value) && backend.session == Some(r.value)
      ensures r.Success? ==> r.value == NewUser(email, password, name, now)
      ensures r.Success? ==> backend.users == old(backend.users) + [r.value]
      ensures r.Failure? ==> r.error == EmailInUse
      ensures r.Failure? ==>
        state == old(state) && backend.users == old(backend.users) && backend.session == old(backend.session)
      ensures r.Failure? <==> exists j :: 0 <= j < |old(backend.users)| && old(backend.users)[j].email == email
    {
      r := backend.Register(email, password, name, now);
      if r.Success? {
        state := SignedIn(r.value);
      }
    }

    /** `logout`: no user, not authenticated, and the session is gone from the store. */
    method Logout()
      modifies this`state, backend`session
      ensures state == AuthState(None, false, false) && Consistent(state)
      ensures backend.session == None
    {
      backend.Logout();
      state := AuthState(None, false, false);
    }
  }
}
