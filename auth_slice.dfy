/**
 * The session store: who is signed in, with which access token, whether a
 * sign-in is under way, the last sign-in error and the sidebar flag. The
 * user and the token are mirrored into durable browser storage under the
 * key "auth" whenever they change; that storage is a ghost field here.
 */
module AuthSlice {
  import opened Common
  import opened Types

  /**
   * What the storage slot holds when it is read: nothing (or the empty
   * string), text that is not valid JSON, or a saved user/token pair.
   */
  datatype StorageEntry = Missing | Unparsable | Stored(user: Option<User>, token: Option<string>)

  /** What the session looks like once it has been read back: a user and a token, either possibly null. */
  datatype Persisted = Persisted(user: Option<User>, token: Option<string>)

  /** `loadAuthFromStorage`: a missing or unreadable entry loads as a signed-out pair. */
  function LoadAuth(entry: StorageEntry): (r: Persisted)
    ensures entry.Stored? ==> r.user == entry.user && r.token == entry.token
    ensures !entry.Stored? ==> r.user.None? && r.token.None?
  {
    match entry
    case Stored(u, t) => Persisted(u, t)
    case _ => Persisted(None, None)
  }

  /** `saveAuthToStorage`: the pair written as one JSON entry. */
  function SaveAuth(user: Option<User>, token: Option<string>): (e: StorageEntry)
    ensures e.Stored?
  {
    Stored(user, token)
  }

  /**
   * `Boolean(persistedAuth.token)`: a page load starts authenticated exactly
   * when the slot holds a pair whose token is a non-empty string. Because
   * `updateToken` does not touch the flag, a token saved while signed out
   * authenticates the next page load.
   */
  function InitiallyAuthenticated(entry: StorageEntry): (b: bool)
    ensures b <==> entry.Stored? && entry.token.Some? && entry.token.value != ""
  {
    Truthy(LoadAuth(entry).token)
  }

  /** Whatever pair is saved, reading it back gives the same pair. */
  lemma LoadAfterSave(user: Option<User>, token: Option<string>)
    ensures LoadAuth(SaveAuth(user, token)) == Persisted(user, token)
  {
  }

  class AuthStore {
    var user: Option<User>
    var token: Option<string>
    var isAuthenticated: bool
    var isLoading: bool
    var error: Option<string>
    var isSidebarOpen: bool
    /** The storage slot, as the next page load would read it. */
    ghost var storage: StorageEntry

    /**
     * Storage always reads back as the current user and token, and the
     * store never claims to be authenticated without a token.
     */
    ghost predicate Valid()
      reads this
    {
      && LoadAuth(storage) == Persisted(user, token)
      && (isAuthenticated ==> token.Some?)
    }

    /** The initial state, built from whatever the storage slot held at start-up. */
    constructor (stored: StorageEntry)
      ensures Valid()
      ensures storage == stored
      ensures Persisted(user, token) == LoadAuth(stored)
      ensures isAuthenticated == Truthy(token)
      ensures !isLoading && error.None? && isSidebarOpen
    {
      var persisted := LoadAuth(stored);
      user := persisted.user;
      token := persisted.token;
      isAuthenticated := InitiallyAuthenticated(stored);
      isLoading := false;
      error := None;
      isSidebarOpen := true;
      storage := stored;
    }

    /** `loginStart`: a sign-in is under way and the previous error is forgotten. */
    method LoginStart()
      requires Valid()
      modifies this
      ensures Valid()
      ensures isLoading && error.None?
      ensures user == old(user) && token == old(token) && isAuthenticated == old(isAuthenticated)
      ensures isSidebarOpen == old(isSidebarOpen) && storage == old(storage)
    {
      isLoading := true;
      error := None;
    }

    /** `loginSuccess`: the new user and token are adopted and persisted together. */
    method LoginSuccess(newUser: User, newToken: string)
      requires Valid()
      modifies this
      ensures Valid()
      ensures user == Some(newUser) && token == Some(newToken)
      ensures isAuthenticated && !isLoading && error.None?
      ensures storage == SaveAuth(Some(newUser), Some(newToken))
      ensures isSidebarOpen == old(isSidebarOpen)
    {
      isLoading := false;
      user := Some(newUser);
      token := Some(newToken);
      isAuthenticated := true;
      error := None;
      storage := SaveAuth(user, token);
    }

    /** `loginFailure`: the error is recorded; the session itself is untouched. */
    method LoginFailure(message: string)
      requires Valid()
      modifies this
      ensures Valid()
      ensures !isLoading && error == Some(message)
      ensures user == old(user) && token == old(token) && isAuthenticated == old(isAuthenticated)
      ensures isSidebarOpen == old(isSidebarOpen) && storage == old(storage)
    {
      isLoading := false;
      error := Some(message);
    }

    /** `logout`: the session is forgotten and the storage key removed; the sidebar and loading flags stay. */
    method Logout()
      requires Valid()
      modifies this
      ensures Valid()
      ensures user.None? && token.None? && !isAuthenticated && error.None?
      ensures storage == Missing
      ensures isLoading == old(isLoading) && isSidebarOpen == old(isSidebarOpen)
    {
      user := None;
      token := None;
      isAuthenticated := false;
      error := None;
      storage := Missing;
    }

    /** `updateUser`: only the user changes, and storage is rewritten with the current token. */
    method UpdateUser(newUser: User)
      requires Valid()
      modifies this
      ensures Valid()
      ensures user == Some(newUser) && token == old(token)
      ensures storage == SaveAuth(Some(newUser), old(token))
      ensures isAuthenticated == old(isAuthenticated) && isLoading == old(isLoading)
      ensures error == old(error) && isSidebarOpen == old(isSidebarOpen)
    {
      user := Some(newUser);
      storage := SaveAuth(user, token);
    }

    /**
     * `updateToken`: only the token changes, and storage is rewritten with
     * the current user. Whether the store counts as authenticated is left
     * as it was.
     */
    method UpdateToken(newToken: string)
      requires Valid()
      modifies this
      ensures Valid()
      ensures token == Some(newToken) && user == old(user)
      ensures storage == SaveAuth(old(user), Some(newToken))
      ensures isAuthenticated == old(isAuthenticated) && isLoading == old(isLoading)
      ensures error == old(error) && isSidebarOpen == old(isSidebarOpen)
    {
      token := Some(newToken);
      storage := SaveAuth(user, token);
    }

    /** `toggleSidebar`: the sidebar flag is negated and nothing else changes. */
    method ToggleSidebar()
      requires Valid()
      modifies this
      ensures Valid()
      ensures isSidebarOpen == !old(isSidebarOpen)
      ensures user == old(user) && token == old(token) && isAuthenticated == old(isAuthenticated)
      ensures isLoading == old(isLoading) && error == old(error) && storage == old(storage)
    {
      isSidebarOpen := !isSidebarOpen;
    }
  }

  /** Toggling the sidebar twice gives back the original state. */
  method ToggleTwice(store: AuthStore)
    requires store.Valid()
    modifies store
    ensures store.isSidebarOpen == old(store.isSidebarOpen)
    ensures store.user == old(store.user) && store.token == old(store.token)
    ensures store.isAuthenticated == old(store.isAuthenticated) && store.isLoading == old(store.isLoading)
    ensures store.error == old(store.error) && store.storage == old(store.storage)
  {
    store.ToggleSidebar();
    store.ToggleSidebar();
  }
}
