/**
 * The session store (context/AuthContext.tsx): an in-memory login flag,
 * mirrored under one key of the browser's durable local storage.
 */
module AuthContext {
  import opened Types

  const LoginKey := "isLoggedIn"
  const StoredTrue := "true"
  const Username := "candidate"
  const Password := "jb<6TD5]Q^hW>Gr.hOpL"

  /** The one credential pair `login` accepts. */
  predicate CredentialsMatch(username: string, password: string) {
    username == Username && password == Password
  }

  /** What the mount-time effect concludes from storage: logged in iff the key holds the string "true". */
  predicate StoredLogin(items: map<string, string>) {
    LoginKey in items && items[LoginKey] == StoredTrue
  }

  /** The browser's `localStorage`: string keys to string values, outliving any provider. */
  class LocalStorage {
    var items: map<string, string>

    constructor (items: map<string, string>)
      ensures this.items == items
    {
      this.items := items;
    }

    /** `getItem`: the stored value under `key`, or null. */
    function GetItem(key: string): Option<string>
      reads this
    {
      if key in items then Some(items[key]) else None
    }

    method SetItem(key: string, value: string)
      modifies this
      ensures items == old(items)[key := value]
    {
      items := items[key := value];
    }

    method RemoveItem(key: string)
      modifies this
      ensures items == old(items) - {key}
    {
      items := items - {key};
    }
  }

  class AuthProvider {
    var isLoggedIn: bool
    const storage: LocalStorage

    /** The in-memory flag agrees with what a reload would restore. */
    ghost predicate Synced()
      reads this, storage
    {
      isLoggedIn == StoredLogin(storage.items)
    }

    /** The provider mounts logged out, whatever storage holds. */
    constructor (storage: LocalStorage)
      ensures !isLoggedIn && this.storage == storage
    {
      isLoggedIn := false;
      this.storage := storage;
    }

    /** The mount-time effect: sets the flag when storage holds "true"; otherwise leaves it. */
    method RestoreSession()
      modifies this
      ensures isLoggedIn == (old(isLoggedIn) || StoredLogin(storage.items))
      ensures !old(isLoggedIn) ==> Synced()
    {
      var stored := storage.GetItem(LoginKey);
      if stored == Some(StoredTrue) {
        isLoggedIn := true;
      }
    }

    /** Accepts exactly the fixed pair; on success sets the flag and persists it, on failure changes nothing. */
    method Login(username: string, password: string) returns (ok: bool)
      modifies this, storage
      ensures ok == CredentialsMatch(username, password)
      ensures ok ==> isLoggedIn && storage.items == old(storage.items)[LoginKey := StoredTrue]
      ensures !ok ==> isLoggedIn == old(isLoggedIn) && storage.items == old(storage.items)
      ensures old(Synced()) ==> Synced()
    {
      if username == Username && password == Password {
        isLoggedIn := true;
        storage.SetItem(LoginKey, StoredTrue);
        return true;
      }
      return false;
    }

    /** Clears the flag and removes the stored key, whatever the prior state. */
    method Logout()
      modifies this, storage
      ensures !isLoggedIn && storage.items == old(storage.items) - {LoginKey}
      ensures Synced()
    {
      isLoggedIn := false;
      storage.RemoveItem(LoginKey);
    }
  }

  /** A successful login persists: the next boot reads it back as logged in. */
  lemma LoginIsRestored(items: map<string, string>)
    ensures StoredLogin(items[LoginKey := StoredTrue])
  {
  }

  /** After a logout nothing in storage can restore the session. */
  lemma LogoutIsNotRestored(items: map<string, string>)
    ensures !StoredLogin(items - {LoginKey})
  {
  }

  /** Logging out twice leaves storage as logging out once. */
  lemma LogoutIdempotent(items: map<string, string>)
    ensures (items - {LoginKey}) - {LoginKey} == items - {LoginKey}
  {
  }

  /**
   * From empty storage, log in, then reload the page (a new provider over the
   * same storage, whose mount effect runs): the reloaded session is logged in
   * exactly when the credentials matched.
   */
  method ReloadAfterLoginScenario(username: string, password: string) returns (ok: bool, reloaded: bool)
    ensures ok == CredentialsMatch(username, password)
    ensures reloaded == ok
  {
    var store := new LocalStorage(map[]);
    var session := new AuthProvider(store);
    session.RestoreSession();
    ok := session.Login(username, password);
    var after := new AuthProvider(store);
    after.RestoreSession();
    reloaded := after.isLoggedIn;
  }

  /** Log in, log out (twice), reload: the reloaded session is logged out, whatever storage held at first. */
  method ReloadAfterLogoutScenario(initial: map<string, string>) returns (reloaded: bool, items: map<string, string>)
    ensures !reloaded
    ensures items == initial[LoginKey := StoredTrue] - {LoginKey}
  {
    var store := new LocalStorage(initial);
    var session := new AuthProvider(store);
    session.RestoreSession();
    var _ := session.Login(Username, Password);
    session.Logout();
    session.Logout();
    var after := new AuthProvider(store);
    after.RestoreSession();
    reloaded := after.isLoggedIn;
    items := store.items;
  }
}
