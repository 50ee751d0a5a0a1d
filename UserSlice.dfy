/** The user slice of the Redux store: the signed-in user, the
    authentication flag and the time of the last activity. `new Date()` is
    the `now` argument of the handlers that read the clock. */
module UserSlice {
  import opened Types

  datatype UserState = UserState(
    currentUser: Option<User>,
    isAuthenticated: bool,
    isLoading: bool,
    error: Option<string>,
    lastActivity: Option<Timestamp>)

  const InitialState := UserState(None, false, false, None, None)

  /** A `Partial<User>` payload: `None` is a key the payload lacks. */
  datatype UserPatch = UserPatch(
    id: Option<string>,
    createdAt: Option<Timestamp>,
    updatedAt: Option<Timestamp>,
    name: Option<string>,
    email: Option<string>,
    role: Option<UserRole>,
    profileImage: Option<Option<string>>,
    preferences: Option<UserPreferences>)

  const EmptyPatch := UserPatch(None, None, None, None, None, None, None, None)

  /** `{...user, ...patch}`. */
  function MergeUser(u: User, p: UserPatch): (r: User)
    ensures p == EmptyPatch ==> r == u
    ensures p.id.Some? ==> r.id == p.id.value
    ensures p.id.None? ==> r.id == u.id
    ensures p.createdAt.Some? ==> r.createdAt == p.createdAt.value
    ensures p.createdAt.None? ==> r.createdAt == u.createdAt
    ensures p.updatedAt.Some? ==> r.updatedAt == p.updatedAt.value
    ensures p.updatedAt.None? ==> r.updatedAt == u.updatedAt
    ensures p.name.Some? ==> r.name == p.name.value
    ensures p.name.None? ==> r.name == u.name
    ensures p.email.Some? ==> r.email == p.email.value
    ensures p.email.None? ==> r.email == u.email
    ensures p.role.Some? ==> r.role == p.role.value
    ensures p.role.None? ==> r.role == u.role
    ensures p.profileImage.Some? ==> r.profileImage == p.profileImage.value
    ensures p.profileImage.None? ==> r.profileImage == u.profileImage
    ensures p.preferences.Some? ==> r.preferences == p.preferences.value
    ensures p.preferences.None? ==> r.preferences == u.preferences
  {
    User(
      if p.id.Some? then p.id.value else u.id,
      if p.createdAt.Some? then p.createdAt.value else u.createdAt,
      if p.updatedAt.Some? then p.updatedAt.value else u.updatedAt,
      if p.name.Some? then p.name.value else u.name,
      if p.email.Some? then p.email.value else u.email,
      if p.role.Some? then p.role.value else u.role,
      if p.profileImage.Some? then p.profileImage.value else u.profileImage,
      if p.preferences.Some? then p.preferences.value else u.preferences)
  }

  /** Applying the same patch twice is applying it once. */
  lemma MergeUserIdempotent(u: User, p: UserPatch)
    ensures MergeUser(MergeUser(u, p), p) == MergeUser(u, p)
  {
  }

  /** Whoever is flagged as authenticated has a user record and an activity
      time; every handler keeps this. */
  predicate SignedInConsistent(s: UserState) {
    s.isAuthenticated ==> s.currentUser.Some? && s.lastActivity.Some?
  }

  class Slice {
    var currentUser: Option<User>
    var isAuthenticated: bool
    var isLoading: bool
    var error: Option<string>
    var lastActivity: Option<Timestamp>

    function State(): UserState
      reads this
    {
      UserState(currentUser, isAuthenticated, isLoading, error, lastActivity)
    }

    constructor ()
      ensures State() == InitialState && SignedInConsistent(State())
    {
      currentUser := None;
      isAuthenticated := false;
      isLoading := false;
      error := None;
      lastActivity := None;
    }

    method SetLoading(loading: bool)
      modifies this
      ensures State() == old(State()).(isLoading := loading)
    {
      isLoading := loading;
    }

    method SetError(message: Option<string>)
      modifies this
      ensures State() == old(State()).(error := message)
    {
      error := message;
    }

    /** Merges the patch into the user; without a user nothing changes. */
    method UpdateUserField(patch: UserPatch)
      requires SignedInConsistent(State())
      modifies this
      ensures SignedInConsistent(State())
      ensures old(currentUser).None? ==> State() == old(State())
      ensures old(currentUser).Some? ==> State() == old(State()).(currentUser := Some(MergeUser(old(currentUser).value, patch)))
    {
      if currentUser.Some? {
        currentUser := Some(MergeUser(currentUser.value, patch));
      }
    }

    /** Sets the role; without a user nothing changes. */
    method ChangeUserRole(role: UserRole)
      requires SignedInConsistent(State())
      modifies this
      ensures SignedInConsistent(State())
      ensures old(currentUser).None? ==> State() == old(State())
      ensures old(currentUser).Some? ==> State() == old(State()).(currentUser := Some(old(currentUser).value.(role := role)))
    {
      if currentUser.Some? {
        currentUser := Some(currentUser.value.(role := role));
      }
    }

    method UpdateLastActivity(now: Timestamp)
      requires SignedInConsistent(State())
      modifies this
      ensures SignedInConsistent(State())
      ensures State() == old(State()).(lastActivity := Some(now))
    {
      lastActivity := Some(now);
    }

    /** Signs out locally; the loading flag stays. */
    method ClearUserState()
      modifies this
      ensures SignedInConsistent(State())
      ensures State() == InitialState.(isLoading := old(isLoading))
    {
      currentUser := None;
      isAuthenticated := false;
      error := None;
      lastActivity := None;
    }

    /** The pending handler of loginUser, refreshUserToken,
        updateUserProfile, updateUserPreferences and loadUserFromStorage. */
    method RequestPending()
      requires SignedInConsistent(State())
      modifies this
      ensures SignedInConsistent(State())
      ensures State() == old(State()).(isLoading := true, error := None)
    {
      isLoading := true;
      error := None;
    }

    /** The fulfilled handler of loginUser and refreshUserToken. */
    method SignInFulfilled(user: User, now: Timestamp)
      modifies this
      ensures SignedInConsistent(State())
      ensures State() == old(State()).(isLoading := false, currentUser := Some(user), isAuthenticated := true,
                                       lastActivity := Some(now), error := None)
    {
      isLoading := false;
      currentUser := Some(user);
      isAuthenticated := true;
      lastActivity := Some(now);
      error := None;
    }

    /** The rejected handler of loginUser, refreshUserToken and
        loadUserFromStorage: signed out, but the user record stays. */
    method SignInRejected(message: string)
      requires SignedInConsistent(State())
      modifies this
      ensures SignedInConsistent(State())
      ensures State() == old(State()).(isLoading := false, error := Some(message), isAuthenticated := false)
    {
      isLoading := false;
      error := Some(message);
      isAuthenticated := false;
    }

    /** logoutUser.pending touches only the loading flag. */
    method LogoutPending()
      requires SignedInConsistent(State())
      modifies this
      ensures SignedInConsistent(State())
      ensures State() == old(State()).(isLoading := true)
    {
      isLoading := true;
    }

    method LogoutFulfilled()
      modifies this
      ensures SignedInConsistent(State())
      ensures State() == old(State()).(isLoading := false, currentUser := None, isAuthenticated := false,
                                       lastActivity := None, error := None)
    {
      isLoading := false;
      currentUser := None;
      isAuthenticated := false;
      lastActivity := None;
      error := None;
    }

    /** A failed logout keeps the user signed in. */
    method LogoutRejected(message: string)
      requires SignedInConsistent(State())
      modifies this
      ensures SignedInConsistent(State())
      ensures State() == old(State()).(isLoading := false, error := Some(message))
    {
      isLoading := false;
      error := Some(message);
    }

    /** The fulfilled handler of updateUserProfile and updateUserPreferences. */
    method ProfileUpdateFulfilled(user: User)
      requires SignedInConsistent(State())
      modifies this
      ensures SignedInConsistent(State())
      ensures State() == old(State()).(isLoading := false, currentUser := Some(user), error := None)
    {
      isLoading := false;
      currentUser := Some(user);
      error := None;
    }

    /** The rejected handler of updateUserProfile and updateUserPreferences. */
    method ProfileUpdateRejected(message: string)
      requires SignedInConsistent(State())
      modifies this
      ensures SignedInConsistent(State())
      ensures State() == old(State()).(isLoading := false, error := Some(message))
    {
      isLoading := false;
      error := Some(message);
    }

    /** A stored user signs in; an empty store changes only the flags. */
    method LoadUserFromStorageFulfilled(stored: Option<User>, now: Timestamp)
      requires SignedInConsistent(State())
      modifies this
      ensures SignedInConsistent(State())
      ensures stored.Some? ==> State() == old(State()).(isLoading := false, currentUser := stored,
                                                        isAuthenticated := true, lastActivity := Some(now), error := None)
      ensures stored.None? ==> State() == old(State()).(isLoading := false, error := None)
    {
      isLoading := false;
      if stored.Some? {
        currentUser := stored;
        isAuthenticated := true;
        lastActivity := Some(now);
      }
      error := None;
    }
  }
}
