/** The session and the local user registry of the authentication service.
    The browser's localStorage is a map from keys to entries; an entry is the
    JSON of a session user, the JSON of the local user list, or raw text: a
    token, or text under the user or user-list key that is empty or is not
    JSON at all. Only the local fallbacks of login and registration are
    modelled: they are what runs when the remote endpoint cannot be reached. */
module Auth {
  import opened Wrappers

  const UserKey := "lettura_user"
  const TokenKey := "lettura_token"
  const LocalUsersKey := "lettura_local_users"

  /** The user kept in the session. It has no password field. */
  datatype User = User(id: int, username: string, email: string, createdAt: Option<string>)

  /** A user of the local registry, password included. */
  datatype LocalUser = LocalUser(id: int, username: string, password: string, email: string, createdAt: string)

  /** What a key holds. `Raw` text under the user or user-list key is empty
      or fails `JSON.parse`, so it reads as no user and as no local users. */
  datatype Entry = UserJson(user: User) | UsersJson(users: seq<LocalUser>) | Raw(text: string)

  datatype AuthError = WrongCredentials | UsernameTaken

  /** The user without its password, as stored in the session and returned. */
  function WithoutPassword(u: LocalUser): User
  {
    User(u.id, u.username, u.email, Some(u.createdAt))
  }

  predicate Matches(u: LocalUser, username: string, password: string)
  {
    u.username == username && u.password == password
  }

  /** `users.find(u => u.username === username && u.password === password)`,
      as the index of the first match. */
  function FindIndex(users: seq<LocalUser>, username: string, password: string): (r: Option<nat>)
    ensures r.Some? ==> r.value < |users| && Matches(users[r.value], username, password)
    ensures r.Some? ==> forall j :: 0 <= j < r.value ==> !Matches(users[j], username, password)
    ensures r.None? <==> forall j :: 0 <= j < |users| ==> !Matches(users[j], username, password)
  {
    if users == [] then None
    else if Matches(users[0], username, password) then Some(0)
    else match FindIndex(users[1..], username, password)
      case None => None
      case Some(i) => Some(i + 1)
  }

  /** `users.some(u => u.username === username)`. */
  predicate Taken(users: seq<LocalUser>, username: string)
  {
    exists i :: 0 <= i < |users| && users[i].username == username
  }

  predicate UniqueUsernames(users: seq<LocalUser>)
  {
    forall i, j :: 0 <= i < j < |users| ==> users[i].username != users[j].username
  }

  /** Appending a user whose name is not taken keeps the names unique. */
  lemma AppendKeepsUnique(users: seq<LocalUser>, u: LocalUser)
    requires UniqueUsernames(users) && !Taken(users, u.username)
    ensures UniqueUsernames(users + [u])
  {
    var all := users + [u];
    forall i, j | 0 <= i < j < |all| ensures all[i].username != all[j].username {
      if j == |users| {
        assert all[i] == users[i];
      }
    }
  }

  /** Once a user with a fresh name is appended, logging in with its
      credentials finds exactly that user. */
  lemma RegisterThenFind(users: seq<LocalUser>, u: LocalUser)
    requires !Taken(users, u.username)
    ensures FindIndex(users + [u], u.username, u.password) == Some(|users|)
  {
    var all := users + [u];
    assert Matches(all[|users|], u.username, u.password);
  }

  /** The static service over one localStorage. */
  class AuthService {
    var store: map<string, Entry>

    /** The local registry never holds two users with the same name. */
    ghost predicate Valid()
      reads this
    {
      UniqueUsernames(LocalUsers())
    }

    constructor (store: map<string, Entry>)
      ensures this.store == store
    {
      this.store := store;
    }

    /** `getCurrentUser`: the stored user when the key holds one; `null` when
        it is missing, empty or not JSON. */
    function CurrentUser(): (r: Option<User>)
      reads this
      ensures r.Some? <==> UserKey in store && store[UserKey].UserJson?
      ensures r.Some? ==> store[UserKey] == UserJson(r.value)
    {
      if UserKey in store && store[UserKey].UserJson? then Some(store[UserKey].user) else None
    }

    predicate IsAuthenticated()
      reads this
      ensures IsAuthenticated() <==> UserKey in store && store[UserKey].UserJson?
    {
      CurrentUser() != None
    }

    /** `getLocalUsers`: the stored list, or the empty list when the key is
        missing, empty or not JSON. */
    function LocalUsers(): (r: seq<LocalUser>)
      reads this
      ensures LocalUsersKey in store && store[LocalUsersKey].UsersJson? ==> r == store[LocalUsersKey].users
      ensures !(LocalUsersKey in store && store[LocalUsersKey].UsersJson?) ==> r == []
    {
      if LocalUsersKey in store && store[LocalUsersKey].UsersJson? then store[LocalUsersKey].users else []
    }

    /** Stores the user, and the token when one is given and non-empty; an
        absent or empty token leaves the stored token as it was. */
    method SetCurrentUser(user: User, token: Option<string>)
      modifies this
      ensures token.Some? && token.value != "" ==>
        store == old(store)[UserKey := UserJson(user)][TokenKey := Raw(token.value)]
      ensures !(token.Some? && token.value != "") ==>
        store == old(store)[UserKey := UserJson(user)]
      ensures CurrentUser() == Some(user) && IsAuthenticated()
      ensures LocalUsers() == old(LocalUsers())
    {
      store := store[UserKey := UserJson(user)];
      if token.Some? && token.value != "" {
        store := store[TokenKey := Raw(token.value)];
      }
    }

    /** Removes the user and the token. */
    method ClearCurrentUser()
      modifies this
      ensures store == old(store) - {UserKey, TokenKey}
      ensures UserKey !in store && TokenKey !in store && !IsAuthenticated()
      ensures LocalUsers() == old(LocalUsers())
    {
      store := store - {UserKey};
      store := store - {TokenKey};
    }

    method Logout()
      modifies this
      ensures store == old(store) - {UserKey, TokenKey}
      ensures UserKey !in store && TokenKey !in store && !IsAuthenticated()
    {
      ClearCurrentUser();
    }

    /** `saveLocalUsers`. */
    method SaveLocalUsers(users: seq<LocalUser>)
      modifies this
      ensures store == old(store)[LocalUsersKey := UsersJson(users)]
      ensures LocalUsers() == users
    {
      store := store[LocalUsersKey := UsersJson(users)];
    }

    /** The local fallback of `login`: the first registered user with this
        name and password becomes the session user, without its password;
        with no such user nothing is stored and the login fails. */
    method LocalLogin(username: string, password: string) returns (r: Result<User, AuthError>)
      modifies this
      ensures FindIndex(old(LocalUsers()), username, password).None? ==>
        r == Err(WrongCredentials) && store == old(store)
      ensures FindIndex(old(LocalUsers()), username, password).Some? ==>
        && r == Ok(WithoutPassword(old(LocalUsers())[FindIndex(old(LocalUsers()), username, password).value]))
        && store == old(store)[UserKey := UserJson(r.value)]
    {
      var users := LocalUsers();
      var found := FindIndex(users, username, password);
      if found.None? {
        return Err(WrongCredentials);
      }
      var user := WithoutPassword(users[found.value]);
      SetCurrentUser(user, None);
      r := Ok(user);
    }

    /** The local fallback of `register`: a taken name fails and changes
        nothing; otherwise the new user is appended to the registry, saved,
        and becomes the session user without its password. `now` and `nowIso`
        are the clock readings used for the id and the creation time. */
    method LocalRegister(username: string, password: string, email: string, now: int, nowIso: string)
      returns (r: Result<User, AuthError>)
      modifies this
      ensures Taken(old(LocalUsers()), username) ==> r == Err(UsernameTaken) && store == old(store)
      ensures !Taken(old(LocalUsers()), username) ==>
        var added := LocalUser(now, username, password, email, nowIso);
        && r == Ok(WithoutPassword(added))
        && LocalUsers() == old(LocalUsers()) + [added]
        && store == old(store)[LocalUsersKey := UsersJson(old(LocalUsers()) + [added])]
                              [UserKey := UserJson(WithoutPassword(added))]
      ensures old(Valid()) ==> Valid()
    {
      var users := LocalUsers();
      if exists i :: 0 <= i < |users| && users[i].username == username {
        return Err(UsernameTaken);
      }
      var added := LocalUser(now, username, password, email, nowIso);
      if old(Valid()) {
        AppendKeepsUnique(users, added);
      }
      users := users + [added];
      SaveLocalUsers(users);
      var user := WithoutPassword(added);
      SetCurrentUser(user, None);
      r := Ok(user);
    }
  }

  /** A successful local registration followed by a local login with the same
      credentials logs in as the registered user. */
  method RegisterThenLogin(svc: AuthService, username: string, password: string, email: string, now: int, nowIso: string)
    returns (registered: Result<User, AuthError>, loggedIn: Result<User, AuthError>)
    modifies svc
    ensures registered.Ok? ==> loggedIn == registered
  {
    ghost var before := svc.LocalUsers();
    registered := svc.LocalRegister(username, password, email, now, nowIso);
    loggedIn := svc.LocalLogin(username, password);
    if registered.Ok? {
      RegisterThenFind(before, LocalUser(now, username, password, email, nowIso));
    }
  }
}
