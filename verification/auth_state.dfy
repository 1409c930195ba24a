/** The brokers' sign-in state: one record `{ loggedIn, user }` kept in
    memory and mirrored to `localStorage` under a single key, loaded once
    when the script starts. Storage is a map from key to text. */
module AuthState {
  import opened Common
  import StorageCodec

  const StorageKey := "authState"

  datatype BrokerUser = BrokerUser(username: string, role: string)

  datatype AuthRecord = AuthRecord(loggedIn: bool, user: Option<BrokerUser>)

  /** `{ loggedIn: false }`. */
  const SignedOut := AuthRecord(false, None)

  /** What `login` is given: a role that is missing or empty is absent here. */
  datatype LoginUser = LoginUser(username: string, role: Option<string>)

  /** `user.role || 'broker'`. */
  function RoleOrBroker(role: Option<string>): (r: string)
    ensures r != ""
    ensures role.Some? && role.value != "" ==> r == role.value
    ensures role.None? || role.value == "" ==> r == "broker"
  {
    if role.Some? && role.value != "" then role.value else "broker"
  }

  // ---- Stored form ----

  function RecordFields(st: AuthRecord): seq<string> {
    [if st.loggedIn then "true" else "false"]
    + (match st.user case None => [] case Some(u) => [u.username, u.role])
  }

  function FieldsRecord(fs: seq<string>): Option<AuthRecord> {
    if (|fs| == 1 || |fs| == 3) && (fs[0] == "true" || fs[0] == "false") then
      Some(AuthRecord(fs[0] == "true", if |fs| == 3 then Some(BrokerUser(fs[1], fs[2])) else None))
    else None
  }

  /** `JSON.stringify(state)`. */
  function Save(st: AuthRecord): (s: string)
    ensures s != ""
  {
    StorageCodec.Encode(RecordFields(st))
  }

  /** `loadState`: the stored record, or `{ loggedIn: false }` when nothing
      (or empty text) is stored or the text does not parse. */
  function LoadState(storage: map<string, string>): (st: AuthRecord)
    ensures StorageKey !in storage || storage[StorageKey] == "" ==> st == SignedOut
    ensures (StorageKey in storage && storage[StorageKey] != ""
             && (StorageCodec.Decode(storage[StorageKey]).None?
                 || FieldsRecord(StorageCodec.Decode(storage[StorageKey]).value).None?))
            ==> st == SignedOut
    ensures st != SignedOut ==>
              StorageKey in storage && StorageCodec.Decode(storage[StorageKey]).Some?
              && FieldsRecord(StorageCodec.Decode(storage[StorageKey]).value) == Some(st)
  {
    if StorageKey !in storage || storage[StorageKey] == "" then SignedOut
    else match StorageCodec.Decode(storage[StorageKey])
      case None => SignedOut
      case Some(fs) => match FieldsRecord(fs)
        case None => SignedOut
        case Some(st) => st
  }

  /** A saved state is what the next page load finds. */
  lemma SaveThenLoad(storage: map<string, string>, st: AuthRecord)
    ensures LoadState(storage[StorageKey := Save(st)]) == st
  {
    StorageCodec.RoundTrip(RecordFields(st));
    var fs := RecordFields(st);
    assert FieldsRecord(fs) == Some(st);
  }

  /** The in-memory record after `login`. */
  function LoggedIn(user: LoginUser): (st: AuthRecord)
    ensures st.loggedIn && st.user.Some?
    ensures st.user.value.username == user.username && st.user.value.role != ""
  {
    AuthRecord(true, Some(BrokerUser(user.username, RoleOrBroker(user.role))))
  }

  class AuthStore {
    var state: AuthRecord
    var storage: map<string, string>

    /** The stored record read back by the next page load is the one in
        memory. */
    ghost predicate Saved()
      reads this
    {
      LoadState(storage) == state
    }

    /** The script's start-up: `state = loadState()`. */
    constructor (stored: map<string, string>)
      ensures storage == stored && state == LoadState(stored)
    {
      storage := stored;
      state := LoadState(stored);
    }

    /** `login`: signed in as the given user, with the role defaulting to
        `broker`, and saved. */
    method Login(user: LoginUser)
      modifies this
      ensures state == LoggedIn(user)
      ensures storage == old(storage)[StorageKey := Save(state)]
      ensures Saved()
    {
      state := LoggedIn(user);
      storage := storage[StorageKey := Save(state)];
      SaveThenLoad(old(storage), state);
    }

    /** `logout`: signed out, and saved. */
    method Logout()
      modifies this
      ensures state == SignedOut
      ensures storage == old(storage)[StorageKey := Save(SignedOut)]
      ensures Saved()
    {
      state := SignedOut;
      storage := storage[StorageKey := Save(state)];
      SaveThenLoad(old(storage), state);
    }

    /** `isLoggedIn`. */
    function IsLoggedIn(): (r: bool)
      reads this
      ensures r <==> state.loggedIn
      ensures state == SignedOut ==> !r
    {
      state.loggedIn
    }

    /** `getUser`: the user, or `null`. */
    function GetUser(): (r: Option<BrokerUser>)
      reads this
      ensures r == state.user
      ensures state == SignedOut ==> r == None
    {
      state.user
    }

    /** `clear`: the key is removed and the state signed out. */
    method Clear()
      modifies this
      ensures state == SignedOut
      ensures storage == old(storage) - {StorageKey}
      ensures Saved()
    {
      storage := storage - {StorageKey};
      state := SignedOut;
    }
  }

  /** A login survives a page reload: the reloaded script reports the same
      user, signed in, with role `broker` when none was given. */
  method LoginThenReload(stored: map<string, string>, user: LoginUser)
    returns (loggedIn: bool, reloaded: Option<BrokerUser>)
    ensures loggedIn
    ensures reloaded == Some(BrokerUser(user.username, RoleOrBroker(user.role)))
    ensures user.role.None? ==> reloaded.value.role == "broker"
  {
    var store := new AuthStore(stored);
    store.Login(user);
    SaveThenLoad(stored, LoggedIn(user));
    var reload := new AuthStore(store.storage);
    loggedIn := reload.IsLoggedIn();
    reloaded := reload.GetUser();
  }

  /** After `logout` or `clear`, a reload finds nobody signed in. */
  lemma SignedOutAfterReload(storage: map<string, string>)
    ensures LoadState(storage[StorageKey := Save(SignedOut)]) == SignedOut
    ensures LoadState(storage - {StorageKey}) == SignedOut
  {
    SaveThenLoad(storage, SignedOut);
  }
}
