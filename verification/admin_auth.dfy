/** The admin panel's sign-in: a fixed credential check, a session kept in
    `localStorage` under three keys (token, user record, time of last
    activity), and a 30-minute inactivity timeout checked when the page
    loads. Storage is a map from key to text; the clock and the random part
    of the token are parameters. */
module AdminAuth {
  import opened Common
  import opened Numbers
  import StorageCodec

  const TokenKey := "adminToken"
  const UserKey := "adminUser"
  const ActivityKey := "adminLastActivity"

  /** Thirty minutes, in milliseconds. */
  const SessionTimeout := 30 * 60 * 1000

  datatype AdminUser = AdminUser(
    id: int, username: string, name: string, role: string, email: string,
    permissions: Option<seq<string>>)

  /** The user record set on a successful sign-in. */
  function MockAdmin(username: string): (u: AdminUser)
    ensures u.username == username && u.role == "super_admin"
    ensures u.permissions.Some? && "admin" in u.permissions.value
  {
    AdminUser(1, username, "Admin User", "super_admin", "admin@eastleighturfgrass.com",
              Some(["read", "write", "delete", "admin"]))
  }

  // ---- Stored form of the user record ----

  function UserFields(u: AdminUser): seq<string> {
    [IntToString(u.id), u.username, u.name, u.role, u.email]
    + (match u.permissions case None => [] case Some(ps) => ["*"] + ps)
  }

  function FieldsUser(fs: seq<string>): Option<AdminUser> {
    if |fs| < 5 then None
    else match ParseInt(fs[0])
      case None => None
      case Some(id) =>
        if |fs| == 5 then Some(AdminUser(id, fs[1], fs[2], fs[3], fs[4], None))
        else if fs[5] == "*" then Some(AdminUser(id, fs[1], fs[2], fs[3], fs[4], Some(fs[6..])))
        else None
  }

  /** `JSON.stringify(this.currentUser)`: "null" when nobody is signed in. */
  function UserText(u: Option<AdminUser>): (s: string)
    ensures s == "null" <==> u.None?
  {
    match u
    case None => "null"
    case Some(v) => StorageCodec.Encode(UserFields(v))
  }

  /** `JSON.parse` of the stored user: `None` when it throws. */
  function ParseUser(s: string): Option<Option<AdminUser>> {
    if s == "null" then Some(None)
    else match StorageCodec.Decode(s)
      case None => None
      case Some(fs) => match FieldsUser(fs)
        case None => None
        case Some(u) => Some(Some(u))
  }

  lemma FieldsRoundTrip(u: AdminUser)
    ensures FieldsUser(UserFields(u)) == Some(u)
  {
    var head := [IntToString(u.id), u.username, u.name, u.role, u.email];
    var fs := UserFields(u);
    ParseIntRoundTrip(u.id);
    match u.permissions {
      case None =>
        assert fs == head;
      case Some(ps) =>
        assert fs == head + ["*"] + ps;
        assert |fs| >= 6 && fs[..5] == head && fs[5] == "*";
        assert fs[6..] == ps;
    }
  }

  /** A stored user record reads back as the same record (or as no user). */
  lemma UserRoundTrip(u: Option<AdminUser>)
    ensures ParseUser(UserText(u)) == Some(u)
  {
    if u.Some? {
      StorageCodec.RoundTrip(UserFields(u.value));
      FieldsRoundTrip(u.value);
    }
  }

  /** `generateToken`: the clock and a random suffix after a fixed prefix. */
  function GenerateToken(now: int, random: string): (t: string)
    ensures StartsWith(t, "admin_token_") && t != ""
  {
    "admin_token_" + IntToString(now) + "_" + random
  }

  // ---- The session check ----

  /** A `localStorage` entry that is present and non-empty. */
  predicate Present(storage: map<string, string>, key: string) {
    key in storage && storage[key] != ""
  }

  predicate HasSession(storage: map<string, string>) {
    Present(storage, TokenKey) && Present(storage, UserKey) && Present(storage, ActivityKey)
  }

  /** The session is still fresh at `now`. An activity time that does not
      parse makes the difference NaN, and the comparison with NaN is false. */
  predicate Fresh(storage: map<string, string>, now: int)
    requires ActivityKey in storage
  {
    var t := ParseInt(storage[ActivityKey]);
    t.Some? && now - t.value < SessionTimeout
  }

  datatype SessionStatus =
    | NoSession              // a key is missing: the login form is shown
    | Expired                // the session is cleared
    | Live(user: Option<AdminUser>)
    | Unreadable             // the stored user does not parse: `checkSession` throws

  /** What `checkSession` finds in storage at time `now`. */
  function CheckStatus(storage: map<string, string>, now: int): (r: SessionStatus)
    ensures r == NoSession <==> !HasSession(storage)
    ensures r == Expired <==> HasSession(storage) && !Fresh(storage, now)
    ensures r.Live? <==> HasSession(storage) && Fresh(storage, now) && ParseUser(storage[UserKey]).Some?
    ensures r.Live? ==> ParseUser(storage[UserKey]) == Some(r.user)
  {
    if !HasSession(storage) then NoSession
    else if !Fresh(storage, now) then Expired
    else match ParseUser(storage[UserKey])
      case None => Unreadable
      case Some(u) => Live(u)
  }

  /** The storage after `clearSession`. */
  function Cleared(storage: map<string, string>): (s: map<string, string>)
    ensures TokenKey !in s && UserKey !in s && ActivityKey !in s
    ensures forall k :: k in s <==> k in storage && k != TokenKey && k != UserKey && k != ActivityKey
  {
    storage - {TokenKey, UserKey, ActivityKey}
  }

  /** The storage after `loginSuccess` at time `now` for user `u`. */
  function SignedIn(storage: map<string, string>, u: Option<AdminUser>, token: string, now: int): map<string, string> {
    storage[TokenKey := token][UserKey := UserText(u)][ActivityKey := IntToString(now)]
  }

  /** A signed-in user who is back within the timeout finds the same session;
      after the timeout the session is cleared. */
  lemma SessionSurvivesUntilTimeout(storage: map<string, string>, u: AdminUser, token: string, now: int, later: int)
    requires token != ""
    ensures later - now < SessionTimeout ==> CheckStatus(SignedIn(storage, Some(u), token, now), later) == Live(Some(u))
    ensures later - now >= SessionTimeout ==> CheckStatus(SignedIn(storage, Some(u), token, now), later) == Expired
  {
    var s := SignedIn(storage, Some(u), token, now);
    ParseIntRoundTrip(now);
    UserRoundTrip(Some(u));
    assert s[ActivityKey] == IntToString(now);
    assert s[UserKey] == UserText(Some(u));
    assert HasSession(s);
  }

  /** After a sign-out nothing is found in storage. */
  lemma ClearedHasNoSession(storage: map<string, string>, now: int)
    ensures CheckStatus(Cleared(storage), now) == NoSession
  {
    assert !Present(Cleared(storage), TokenKey);
  }

  class AdminAuth {
    var isLoggedIn: bool
    var currentUser: Option<AdminUser>
    var storage: map<string, string>

    /** The constructor runs `checkSession` against the storage it finds.
        When the stored user does not parse, the page's constructor throws;
        here the instance stays signed out with storage untouched. */
    constructor (stored: map<string, string>, now: int)
      ensures CheckStatus(stored, now).Live? ==>
        isLoggedIn && currentUser == CheckStatus(stored, now).user
        && storage == stored[ActivityKey := IntToString(now)]
      ensures CheckStatus(stored, now) == Expired ==> !isLoggedIn && currentUser == None && storage == Cleared(stored)
      ensures !CheckStatus(stored, now).Live? && CheckStatus(stored, now) != Expired ==>
        !isLoggedIn && currentUser == None && storage == stored
    {
      var status := CheckStatus(stored, now);
      match status {
        case Live(u) =>
          isLoggedIn := true;
          currentUser := u;
          storage := stored[ActivityKey := IntToString(now)];
        case Expired =>
          isLoggedIn := false;
          currentUser := None;
          storage := Cleared(stored);
        case _ =>
          isLoggedIn := false;
          currentUser := None;
          storage := stored;
      }
    }

    /** `checkSession`: a fresh session is resumed and its activity time
        renewed; an expired one is cleared; otherwise nothing changes. */
    method CheckSession(now: int) returns (status: SessionStatus)
      modifies this
      ensures status == CheckStatus(old(storage), now)
      ensures status.Live? ==>
        isLoggedIn && currentUser == status.user && storage == old(storage)[ActivityKey := IntToString(now)]
      ensures status == Expired ==> !isLoggedIn && currentUser == None && storage == Cleared(old(storage))
      ensures status == NoSession || status == Unreadable ==>
        isLoggedIn == old(isLoggedIn) && currentUser == old(currentUser) && storage == old(storage)
    {
      status := CheckStatus(storage, now);
      match status {
        case Live(u) =>
          currentUser := u;
          isLoggedIn := true;
          UpdateLastActivity(now);
        case Expired =>
          ClearSession();
        case _ =>
      }
    }

    /** `updateLastActivity`. */
    method UpdateLastActivity(now: int)
      modifies this
      ensures storage == old(storage)[ActivityKey := IntToString(now)]
      ensures isLoggedIn == old(isLoggedIn) && currentUser == old(currentUser)
    {
      storage := storage[ActivityKey := IntToString(now)];
    }

    /** `authenticateUser`: only `admin` / `admin123` is accepted, and then
        the mock admin record becomes the current user. */
    method AuthenticateUser(username: string, password: string) returns (ok: bool)
      modifies this
      ensures ok <==> username == "admin" && password == "admin123"
      ensures ok ==> currentUser == Some(MockAdmin(username))
      ensures !ok ==> currentUser == old(currentUser)
      ensures isLoggedIn == old(isLoggedIn) && storage == old(storage)
    {
      if username == "admin" && password == "admin123" {
        currentUser := Some(MockAdmin(username));
        return true;
      }
      return false;
    }

    /** `loginSuccess`: stores a token, the current user and the time, and
        marks the session signed in. */
    method LoginSuccess(now: int, random: string)
      modifies this
      ensures storage == SignedIn(old(storage), old(currentUser), GenerateToken(now, random), now)
      ensures isLoggedIn && currentUser == old(currentUser)
    {
      var token := GenerateToken(now, random);
      storage := storage[TokenKey := token];
      storage := storage[UserKey := UserText(currentUser)];
      UpdateLastActivity(now);
      isLoggedIn := true;
    }

    /** `logout`. */
    method Logout()
      modifies this
      ensures !isLoggedIn && currentUser == None && storage == Cleared(old(storage))
    {
      ClearSession();
    }

    /** `clearSession`: removes the three keys and signs out. */
    method ClearSession()
      modifies this
      ensures !isLoggedIn && currentUser == None && storage == Cleared(old(storage))
    {
      storage := Cleared(storage);
      isLoggedIn := false;
      currentUser := None;
    }

    /** `isAuthenticated`. */
    function IsAuthenticated(): (r: bool)
      reads this
      ensures r <==> isLoggedIn && currentUser.Some?
    {
      isLoggedIn && currentUser != None
    }

    /** `hasPermission`: no user or no permission list grants nothing;
        `admin` grants everything. */
    function HasPermission(permission: string): (r: bool)
      reads this
      ensures r ==> currentUser.Some? && currentUser.value.permissions.Some?
      ensures currentUser.Some? && currentUser.value.permissions.Some? ==>
        ("admin" in currentUser.value.permissions.value ==> r)
        && ("admin" !in currentUser.value.permissions.value ==> (r <==> permission in currentUser.value.permissions.value))
    {
      if currentUser == None || currentUser.value.permissions == None then false
      else permission in currentUser.value.permissions.value || "admin" in currentUser.value.permissions.value
    }
  }

  /** The signed-in admin holds every permission. */
  lemma AdminMayDoAnything(auth: AdminAuth, username: string, permission: string)
    requires auth.currentUser == Some(MockAdmin(username))
    ensures auth.HasPermission(permission)
  {
  }

  /** The full sign-in: correct credentials, then `loginSuccess`, leave a
      session that a page loaded within the timeout resumes for the admin. */
  method SignInThenReload(username: string, password: string, stored: map<string, string>,
                          now: int, random: string, later: int)
    returns (ok: bool, resumed: bool)
    requires later - now < SessionTimeout
    ensures ok <==> username == "admin" && password == "admin123"
    ensures ok ==> resumed
  {
    var auth := new AdminAuth(stored, now);
    ok := auth.AuthenticateUser(username, password);
    resumed := false;
    if ok {
      var before := auth.storage;
      auth.LoginSuccess(now, random);
      SessionSurvivesUntilTimeout(before, MockAdmin(username), GenerateToken(now, random), now, later);
      var reload := new AdminAuth(auth.storage, later);
      resumed := reload.IsAuthenticated() && reload.HasPermission("write");
    }
  }
}
