/**
 * The session context: one session snapshot and the two-key credential store, changed in
 * place by initialization, login, registration and logout. Login and registration work
 * against the built-in demo users only; the auth service is not consulted.
 */
module AuthContext {
  import opened Wrappers
  import opened Js
  import opened Types
  import opened Storage

  const TokenPrefix: string := "demo_jwt_token_"
  const InvalidCredentials: string := "Invalid email or password"

  /** The two users login accepts, with any password. */
  function DemoUsers(): seq<User> {
    [ User("1", "admin@nexus.com", "Sarah", "Chen", AdminRole, Some("Engineering"),
           Some("System Administrator"), Some("+1 555-0100"), true, "2024-01-15T08:00:00Z"),
      User("2", "user@nexus.com", "James", "Wilson", UserRole, Some("Operations"),
           Some("Field Technician"), Some("+1 555-0101"), true, "2024-03-01T08:00:00Z") ]
  }

  /** `users.find(u => u.email === email)`: the first user with that e-mail, if any. */
  function FindByEmail(users: seq<User>, email: string): (r: Option<User>)
    ensures r.Some? <==> exists i :: 0 <= i < |users| && users[i].email == email
    ensures r.Some? ==>
      r.value.email == email &&
      exists i :: 0 <= i < |users| && users[i] == r.value &&
        forall j :: 0 <= j < i ==> users[j].email != email
  {
    if users == [] then None
    else if users[0].email == email then Some(users[0])
    else
      var r := FindByEmail(users[1..], email);
      assert forall i :: 0 < i < |users| ==> users[i] == users[1..][i - 1];
      r
  }

  /** Exactly the two demo e-mails are accepted. */
  function FindDemoUser(email: string): (r: Option<User>)
    ensures r.Some? <==> email == "admin@nexus.com" || email == "user@nexus.com"
    ensures r.Some? ==> r.value in DemoUsers() && r.value.email == email
    ensures r.Some? ==> (r.value.role == AdminRole <==> email == "admin@nexus.com")
  {
    var users := DemoUsers();
    assert users[0].email == "admin@nexus.com" && users[1].email == "user@nexus.com";
    FindByEmail(users, email)
  }

  /** The snapshot at start-up: anonymous and loading. */
  function InitialState(): (s: AuthState)
    ensures s.user == None && s.token == None && !s.isAuthenticated && s.isLoading
    ensures Consistent(s)
  {
    AuthState(None, None, false, true)
  }

  /**
   * The snapshot the start-up effect produces as the source writes it: a stored profile that
   * parses to `null` still yields an authenticated snapshot, with no user.
   */
  function InitializedStateAsWritten(s: AuthState, store: map<string, string>, codec: ProfileCodec): (r: AuthState)
    ensures !r.isLoading
    ensures var token := Lookup(store, TokenKey);
            var userData := Lookup(store, UserKey);
      (r.isAuthenticated <==>
         s.isAuthenticated || (Present(token) && Present(userData) && !codec.decode(userData.value).Malformed?)) &&
      (Present(token) && Present(userData) && !codec.decode(userData.value).Malformed? ==>
         r.token == token &&
         (r.user == None <==> codec.decode(userData.value).ParsedNull?) &&
         (codec.decode(userData.value).ParsedUser? ==> r.user == Some(codec.decode(userData.value).user))) &&
      (!(Present(token) && Present(userData) && !codec.decode(userData.value).Malformed?) ==>
         r == s.(isLoading := false))
  {
    var token := Lookup(store, TokenKey);
    var userData := Lookup(store, UserKey);
    if Present(token) && Present(userData) then
      match codec.decode(userData.value)
      case ParsedUser(u) => AuthState(Some(u), token, true, false)
      case ParsedNull => AuthState(None, token, true, false)
      case Malformed => s.(isLoading := false)
    else
      s.(isLoading := false)
  }

  /** A token stored beside the profile text `null` breaks the session invariant as written. */
  lemma NullProfileBreaksInvariant(codec: ProfileCodec)
    requires IsJson(codec)
    ensures var s := InitializedStateAsWritten(InitialState(), map[TokenKey := "t", UserKey := "null"], codec);
      s.isAuthenticated && s.user == None && !Consistent(s)
  {
  }

  /** The session context: its snapshot, the credential store, and the profile codec it uses. */
  class AuthProvider {
    var state: AuthState
    var store: map<string, string>
    const codec: ProfileCodec

    ghost predicate Valid()
      reads this
    {
      Consistent(state)
    }

    constructor (store: map<string, string>, codec: ProfileCodec)
      ensures Valid()
      ensures state == InitialState() && this.store == store && this.codec == codec
    {
      state := InitialState();
      this.store := store;
      this.codec := codec;
    }

    /**
     * The start-up effect. With a non-empty token and profile stored, a profile that parses
     * restores the session; one that does not (or that parses to `null`) is purged with the
     * token. With either missing, the store is left alone. In every case loading ends.
     */
    method Init()
      requires Valid()
      modifies this
      ensures Valid() && !state.isLoading
      ensures var token := Lookup(old(store), TokenKey);
              var userData := Lookup(old(store), UserKey);
        if Present(token) && Present(userData) then
          match codec.decode(userData.value)
          case ParsedUser(u) =>
            state == AuthState(Some(u), token, true, false) && store == old(store)
          case _ =>
            state == old(state).(isLoading := false) && store == old(store) - {TokenKey, UserKey}
        else
          state == old(state).(isLoading := false) && store == old(store)
    {
      var token := Lookup(store, TokenKey);
      var userData := Lookup(store, UserKey);
      if Present(token) && Present(userData) {
        var parsed := codec.decode(userData.value);
        if parsed.ParsedUser? {
          state := AuthState(Some(parsed.user), token, true, false);
        } else {
          store := store - {TokenKey, UserKey};
          state := state.(isLoading := false);
        }
      } else {
        state := state.(isLoading := false);
      }
    }

    /**
     * Login against the demo users: succeeds exactly for a demo e-mail, whatever the password.
     * A failure changes nothing; a success writes the store only when asked to remember.
     */
    method Login(creds: LoginCredentials) returns (outcome: Result<(), string>)
      requires Valid()
      modifies this
      ensures Valid()
      ensures outcome.Success? <==> creds.email == "admin@nexus.com" || creds.email == "user@nexus.com"
      ensures outcome.Failure? ==>
        outcome.error == InvalidCredentials && state == old(state) && store == old(store)
      ensures outcome.Success? ==>
        state.user.Some? && state.user.value in DemoUsers() && state.user.value.email == creds.email &&
        var u := state.user.value;
        state == AuthState(Some(u), Some(TokenPrefix + u.id), true, false) &&
        store == if creds.remember then old(store)[TokenKey := TokenPrefix + u.id][UserKey := codec.encode(u)]
                 else old(store)
    {
      var found := FindDemoUser(creds.email);
      if found == None {
        return Failure(InvalidCredentials);
      }
      var user := found.value;
      var token := TokenPrefix + user.id;
      if creds.remember {
        store := store[TokenKey := token];
        store := store[UserKey := codec.encode(user)];
      }
      state := AuthState(Some(user), Some(token), true, false);
      outcome := Success(());
    }

    /**
     * Registration: always succeeds with a new ordinary, active user built from the form,
     * and always stores the session. `id` and `createdAt` stand for the current time.
     */
    method Register(data: RegisterData, id: string, createdAt: string)
      requires Valid()
      modifies this
      ensures Valid()
      ensures state.user.Some? &&
        var u := state.user.value;
        u == User(id, data.email, data.firstName, data.lastName, UserRole,
                  data.department, data.position, data.phone, true, createdAt) &&
        state == AuthState(Some(u), Some(TokenPrefix + id), true, false) &&
        store == old(store)[TokenKey := TokenPrefix + id][UserKey := codec.encode(u)]
    {
      var user := User(
        id := id,
        email := data.email,
        firstName := data.firstName,
        lastName := data.lastName,
        role := UserRole,
        department := data.department,
        position := data.position,
        phone := data.phone,
        isActive := true,
        createdAt := createdAt);
      var token := TokenPrefix + user.id;
      store := store[TokenKey := token];
      store := store[UserKey := codec.encode(user)];
      state := AuthState(Some(user), Some(token), true, false);
    }

    /** Logout: both keys removed, the snapshot anonymous and no longer loading. */
    method Logout()
      requires Valid()
      modifies this
      ensures Valid()
      ensures state == AuthState(None, None, false, false)
      ensures store == old(store) - {TokenKey, UserKey}
    {
      store := store - {TokenKey};
      store := store - {UserKey};
      state := AuthState(None, None, false, false);
    }
  }

  /**
   * A remembered login survives a reload: a second context started on the store the first
   * one left restores the same snapshot, without asking for credentials again.
   */
  method RememberedLoginSurvivesReload(initial: map<string, string>, creds: LoginCredentials, codec: ProfileCodec)
    returns (loggedIn: AuthState, reloaded: AuthState)
    requires IsJson(codec)
    requires creds.remember
    ensures (creds.email == "admin@nexus.com" || creds.email == "user@nexus.com") ==>
      loggedIn.isAuthenticated && reloaded == loggedIn
  {
    var tab := new AuthProvider(initial, codec);
    tab.Init();
    var outcome := tab.Login(creds);
    loggedIn := tab.state;
    var next := new AuthProvider(tab.store, codec);
    next.Init();
    reloaded := next.state;
  }

  /**
   * A login that is not remembered leaves an earlier remembered session in the store, so a
   * reload brings back that earlier session rather than the one just opened.
   */
  method UnrememberedLoginReloadsEarlierSession(earlier: User, earlierToken: string, creds: LoginCredentials,
                                                codec: ProfileCodec)
    returns (loggedIn: AuthState, reloaded: AuthState)
    requires IsJson(codec)
    requires !creds.remember && earlierToken != ""
    ensures (creds.email == "admin@nexus.com" || creds.email == "user@nexus.com") ==>
      loggedIn.isAuthenticated && loggedIn.user.Some? && loggedIn.user.value.email == creds.email &&
      reloaded == AuthState(Some(earlier), Some(earlierToken), true, false)
  {
    var stored := map[TokenKey := earlierToken, UserKey := codec.encode(earlier)];
    var tab := new AuthProvider(stored, codec);
    var outcome := tab.Login(creds);
    loggedIn := tab.state;
    var next := new AuthProvider(tab.store, codec);
    next.Init();
    reloaded := next.state;
  }
}
