/** The back-office login page: a credential match against the stored administrators, then a
    session write and an audit entry. */
module AdminLogin {
  import opened Wrappers
  import opened Types
  import opened Text
  import opened Storage

  /** The page's credential test: the stored username equals the typed one in lower case, and
      the stored password equals the typed one exactly. An account stored without a password
      never matches. */
  predicate Matches(u: AdminUser, username: string, password: string) {
    u.username == ToLower(username) && u.password == Some(password)
  }

  /** `admins.find(...)`: the first administrator the credentials match. */
  function FindAdmin(admins: seq<AdminUser>, username: string, password: string)
    : (r: Option<AdminUser>)
    ensures r.Some? <==> exists i :: 0 <= i < |admins| && Matches(admins[i], username, password)
    ensures r.Some? ==> exists i :: 0 <= i < |admins| && admins[i] == r.value
                                   && Matches(admins[i], username, password)
                                   && forall j :: 0 <= j < i ==> !Matches(admins[j], username, password)
  {
    if admins == [] then None
    else if Matches(admins[0], username, password) then Some(admins[0])
    else
      var r := FindAdmin(admins[1..], username, password);
      assert forall i :: 1 <= i < |admins| ==> admins[i] == admins[1..][i - 1];
      r
  }

  /** The session record written on success: the administrator's id, username, role, name and
      permissions, without the password and without a last-login time. */
  function SessionOf(u: AdminUser): (s: AdminUser)
    ensures s.password == None && s.lastLogin == None
    ensures s.id == u.id && s.username == u.username && s.role == u.role
    ensures s.name == u.name && s.permissions == u.permissions
  {
    AdminUser(u.id, u.username, None, u.role, u.name, None, u.permissions)
  }

  /** The session carries the administrator's username, so later audit entries are signed
      with it (or with SYSTEM for an account whose username is empty). */
  lemma SessionSignsLogs(u: AdminUser)
    ensures u.username != "" ==> LogAdmin(Some(SessionOf(u))) == u.username
    ensures LogAdmin(Some(SessionOf(u))) == LogAdmin(Some(u))
  {
  }

  /** With nothing saved, the one seed account opens with its own credentials, whatever the
      case of the typed username, and with no other password. */
  lemma SeedAccountOpens(password: string)
    ensures FindAdmin(DefaultAdmins(), "ADMIN", "admin123") == Some(DefaultAdmins()[0])
    ensures FindAdmin(DefaultAdmins(), "admin", password).Some? <==> password == "admin123"
  {
    assert ToLower("ADMIN") == "admin";
    assert ToLower("admin") == "admin";
  }

  /** `handleLogin`. On a match the session is written first and then a LOGIN entry, which is
      therefore signed by the new session; on a mismatch an AUTH_ERROR entry naming the typed
      username is written under whatever session was there, and nothing else changes. */
  method Login(store: LocalStore, username: string, password: string, logId: string, now: int)
    returns (ok: bool)
    modifies store
    ensures ok <==> exists i :: 0 <= i < |old(store.AdminUsers())|
                               && Matches(old(store.AdminUsers())[i], username, password)
    ensures ok ==> store.Auth().Some? && store.Auth().value.password == None
    ensures ok ==> var m := FindAdmin(old(store.AdminUsers()), username, password).value;
              store.State() == old(store.State()).(
                auth := Some(SessionOf(m)),
                logs := Some(LogAfter(old(store.AuditLogs()), LogEntry(logId, now,
                          Some(SessionOf(m)), "LOGIN", "Acceso autorizado: " + m.username))))
    ensures !ok ==> store.State() == old(store.State()).(
              logs := Some(LogAfter(old(store.AuditLogs()), LogEntry(logId, now, old(store.auth),
                        "AUTH_ERROR", "Fallo de autenticación: " + username))))
  {
    var found := FindAdmin(store.AdminUsers(), username, password);
    if found.Some? {
      var m := found.value;
      store.SetAuth(Some(SessionOf(m)));
      store.AddLog("LOGIN", "Acceso autorizado: " + m.username, logId, now);
      ok := true;
    } else {
      store.AddLog("AUTH_ERROR", "Fallo de autenticación: " + username, logId, now);
      ok := false;
    }
  }

  /** The page's mount effect: with a session already in the store it goes straight to the
      dashboard. */
  method OpenLoginPage(store: LocalStore) returns (toDashboard: bool)
    ensures toDashboard <==> store.Auth().Some?
  {
    var session := store.Auth();
    toDashboard := session.Some?;
  }

  /** After a successful login, opening the login page again goes to the dashboard; after a
      failed one it does so only if a session was already open. */
  method LoginThenReopen(store: LocalStore, username: string, password: string, logId: string,
                         now: int)
    returns (ok: bool, toDashboard: bool)
    modifies store
    ensures ok ==> toDashboard
    ensures !ok ==> (toDashboard <==> old(store.Auth()).Some?)
  {
    ok := Login(store, username, password, logId, now);
    toDashboard := OpenLoginPage(store);
  }
}
