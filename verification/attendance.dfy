/**
 * The attendance staff's session and user store: login against the loaded
 * user list, logout, the local fallback for creating, updating and deleting
 * users when the hosted database is not configured, default-user seeding,
 * and the refresh that folds a database copy of a user back into the list.
 */
module Attendance {
  import opened Basics
  import opened Text
  import opened Seqs

  datatype Role = Attendant | Admin

  /** A staff account. `permissions` maps permission names to flags; a missing name is not granted. */
  datatype AttendanceUser = AttendanceUser(
    id: string,
    username: string,
    passwordHash: string,
    name: string,
    role: Role,
    isActive: bool,
    permissions: map<string, bool>,
    createdAt: string,
    updatedAt: string,
    lastLogin: Option<string>)

  datatype Session = Session(isAuthenticated: bool, user: Option<AttendanceUser>)

  /** The signed-out session. */
  const SignedOut := Session(false, None)

  /** Sessions the hook creates: authenticated exactly when a user is attached. */
  predicate WellFormed(s: Session) { s.isAuthenticated <==> s.user.Some? }

  datatype AttendanceState = AttendanceState(users: seq<AttendanceUser>, session: Session)

  // ---- database configuration ----

  const TemplateUrl := "your_supabase_url_here"
  const TemplateKey := "your_supabase_anon_key_here"

  /** The test the user operations make: both values set, neither a template string, and no `placeholder` in the URL. */
  predicate IsConfigured(url: string, key: string) {
    url != [] && key != [] && url != TemplateUrl && key != TemplateKey && !Contains(url, "placeholder")
  }

  /** The weaker test the database lookup and last-login update make: both values set and neither contains `placeholder`. */
  predicate LookupConfigured(url: string, key: string) {
    url != [] && key != [] && !Contains(url, "placeholder") && !Contains(key, "placeholder")
  }

  // ---- default users ----

  /** The 27 permission names of an attendance account. */
  const PermissionNames: seq<string> := [
    "can_chat", "can_view_orders", "can_print_orders", "can_update_status", "can_create_manual_orders",
    "can_view_cash_register", "can_view_sales", "can_view_reports", "can_view_cash_report",
    "can_view_sales_report", "can_manage_products", "can_view_operators", "can_view_attendance",
    "can_manage_settings", "can_use_scale", "can_discount", "can_cancel", "can_view_expected_balance",
    "can_edit_orders", "can_delete_orders", "can_cancel_orders", "can_manage_cash_entries",
    "can_edit_sales", "can_delete_sales", "can_edit_cash_entries", "can_delete_cash_entries",
    "can_cancel_cash_entries"]

  /** Every permission granted. */
  const AllGranted: map<string, bool> := map k | k in PermissionNames :: true

  const DefaultPassword := "elite2024"

  function DefaultUser(id: string, username: string, name: string, role: Role, nowIso: string): AttendanceUser {
    AttendanceUser(id, username, DefaultPassword, name, role, true, AllGranted, nowIso, nowIso, None)
  }

  /** The three seeded accounts, stamped with the time the hook runs. */
  function DefaultUsers(nowIso: string): (r: seq<AttendanceUser>)
    ensures |r| == 3
    ensures forall i :: 0 <= i < 3 ==> r[i].isActive && r[i].passwordHash == DefaultPassword && r[i].permissions == AllGranted
    ensures r[0].username == "admin" && r[0].role == Admin
    ensures r[1].username == "sarahsantos" && r[2].username == "kevelly"
  {
    [ DefaultUser("00000000-0000-0000-0000-000000000001", "admin", "Administrador", Admin, nowIso),
      DefaultUser("00000000-0000-0000-0000-000000000002", "sarahsantos", "Sarah Santos", Attendant, nowIso),
      DefaultUser("00000000-0000-0000-0000-000000000003", "kevelly", "Kevelly", Attendant, nowIso) ]
  }

  /** `usersToCreate`: the default users whose username is not among the existing ones, in their order. */
  function UsersToCreate(existingUsernames: seq<string>, nowIso: string): (r: seq<AttendanceUser>)
    ensures forall i :: 0 <= i < |r| ==> r[i] in DefaultUsers(nowIso) && r[i].username !in existingUsernames
    ensures forall u :: u in DefaultUsers(nowIso) && u.username !in existingUsernames ==> u in r
    ensures IsSubsequence(r, DefaultUsers(nowIso))
  {
    Filter(DefaultUsers(nowIso), (u: AttendanceUser) => u.username !in existingUsernames)
  }

  /** `loadUsersFromLocalStorage`: the stored list when there is one that parses, else the default users. */
  function LoadUsersFromStorage(saved: Stored<seq<AttendanceUser>>, nowIso: string): (r: seq<AttendanceUser>)
    ensures saved.Parsed? ==> r == saved.value
    ensures !saved.Parsed? ==> r == DefaultUsers(nowIso)
  {
    match saved
    case Parsed(v) => v
    case _ => DefaultUsers(nowIso)
  }

  // ---- login and logout ----

  /** The local match test: same username, same password, active account. */
  predicate Accepts(u: AttendanceUser, username: string, password: string) {
    u.username == username && u.passwordHash == password && u.isActive
  }

  /** `updateLastLogin` on the local list: every entry with that id gets the login time. */
  function StampLastLogin(users: seq<AttendanceUser>, id: string, nowIso: string): (r: seq<AttendanceUser>)
    ensures |r| == |users|
    ensures forall i :: 0 <= i < |users| ==>
              r[i] == if users[i].id == id then users[i].(lastLogin := Some(nowIso)) else users[i]
  {
    if |users| == 0 then []
    else [if users[0].id == id then users[0].(lastLogin := Some(nowIso)) else users[0]]
         + StampLastLogin(users[1..], id, nowIso)
  }

  datatype LoginResult = LoginResult(ok: bool, state: AttendanceState)

  /**
   * `login`: the first active user with that username and password signs in,
   * and its last-login time is stamped in the list. Otherwise the answer is
   * false and nothing changes here; the database lookup a login also starts
   * is `FindUserInDatabase`, whose result lands later (`LookupThenRetry`).
   */
  function Login(st: AttendanceState, username: string, password: string, nowIso: string): (r: LoginResult)
    ensures r.ok <==> exists i :: 0 <= i < |st.users| && Accepts(st.users[i], username, password)
    ensures !r.ok ==> r.state == st
    ensures r.ok ==> exists k :: 0 <= k < |st.users| && Accepts(st.users[k], username, password)
                       && (forall j :: 0 <= j < k ==> !Accepts(st.users[j], username, password))
                       && r.state.session == Session(true, Some(st.users[k]))
                       && r.state.users == StampLastLogin(st.users, st.users[k].id, nowIso)
  {
    match Find(st.users, (u: AttendanceUser) => Accepts(u, username, password))
    case None => LoginResult(false, st)
    case Some(u) => LoginResult(true, AttendanceState(StampLastLogin(st.users, u.id, nowIso), Session(true, Some(u))))
  }

  /** `logout`. */
  function Logout(st: AttendanceState): (r: AttendanceState)
    ensures !r.session.isAuthenticated && r.session.user.None?
    ensures r.users == st.users
  {
    st.(session := SignedOut)
  }

  /** The session restored at start-up: the stored one if it parses, else signed out. */
  function RestoreSession(stored: Stored<Session>): (r: Session)
    ensures stored.Parsed? ==> r == stored.value
    ensures !stored.Parsed? ==> r == SignedOut
  {
    match stored
    case Parsed(s) => s
    case _ => SignedOut
  }

  // ---- local user store ----

  /** A new user's fields as the admin form supplies them. */
  datatype NewUser = NewUser(
    username: string,
    passwordHash: string,
    name: string,
    role: Role,
    isActive: bool,
    permissions: map<string, bool>,
    lastLogin: Option<string>)

  /** A `Partial` user update: `None` leaves a field as it is. */
  datatype UserPatch = UserPatch(
    id: Option<string>,
    username: Option<string>,
    passwordHash: Option<string>,
    name: Option<string>,
    role: Option<Role>,
    isActive: Option<bool>,
    permissions: Option<map<string, bool>>,
    createdAt: Option<string>,
    lastLogin: Option<Option<string>>)

  /** `createUser` without a database: one user, with the clock as its id, appended at the end. */
  function CreateUserLocal(users: seq<AttendanceUser>, d: NewUser, now: nat, nowIso: string): (r: seq<AttendanceUser>)
    ensures |r| == |users| + 1 && r[..|users|] == users
    ensures var u := r[|users|];
            && u.id == NatToString(now) && u.username == d.username && u.passwordHash == d.passwordHash
            && u.name == d.name && u.role == d.role && u.isActive == d.isActive && u.permissions == d.permissions
            && u.createdAt == nowIso && u.updatedAt == nowIso && u.lastLogin == d.lastLogin
  {
    var u := AttendanceUser(NatToString(now), d.username, d.passwordHash, d.name, d.role, d.isActive,
                            d.permissions, nowIso, nowIso, d.lastLogin);
    assert (users + [u])[..|users|] == users;
    users + [u]
  }

  /** The field merge `{ ...user, ...updates, updated_at }`. */
  function ApplyPatch(u: AttendanceUser, p: UserPatch, nowIso: string): AttendanceUser {
    AttendanceUser(
      p.id.GetOr(u.id), p.username.GetOr(u.username), p.passwordHash.GetOr(u.passwordHash), p.name.GetOr(u.name),
      p.role.GetOr(u.role), p.isActive.GetOr(u.isActive), p.permissions.GetOr(u.permissions),
      p.createdAt.GetOr(u.createdAt), nowIso, p.lastLogin.GetOr(u.lastLogin))
  }

  /** `updateUser` without a database: only entries with that id are merged with the patch. */
  function UpdateUserLocal(users: seq<AttendanceUser>, id: string, p: UserPatch, nowIso: string): (r: seq<AttendanceUser>)
    ensures |r| == |users|
    ensures forall i :: 0 <= i < |users| ==>
              r[i] == if users[i].id == id then ApplyPatch(users[i], p, nowIso) else users[i]
  {
    if |users| == 0 then []
    else [if users[0].id == id then ApplyPatch(users[0], p, nowIso) else users[0]]
         + UpdateUserLocal(users[1..], id, p, nowIso)
  }

  function OtherId(id: string): AttendanceUser -> bool { (u: AttendanceUser) => u.id != id }

  /** `deleteUser` without a database: entries with that id go, the others stay in order, each copy kept. */
  function DeleteUserLocal(users: seq<AttendanceUser>, id: string): (r: seq<AttendanceUser>)
    ensures forall i :: 0 <= i < |r| ==> r[i].id != id && r[i] in users
    ensures IsSubsequence(r, users)
    ensures |r| == CountIf(users, OtherId(id))
    ensures forall u :: u in users && u.id != id ==> u in r
  {
    Filter(users, OtherId(id))
  }

  // ---- database refresh ----

  /** The refresh upsert: drop every entry with the database user's id, then append the database copy. */
  function Upsert(users: seq<AttendanceUser>, row: AttendanceUser): (r: seq<AttendanceUser>)
    ensures |r| > 0 && r[|r| - 1] == row
    ensures r[..|r| - 1] == DeleteUserLocal(users, row.id)
  {
    var rest := DeleteUserLocal(users, row.id);
    assert (rest + [row])[..|rest|] == rest;
    rest + [row]
  }

  /** The session refresh: an authenticated session of the same username takes the database copy of the user. */
  function RefreshSession(s: Session, username: string, row: AttendanceUser): (r: Session)
    ensures (s.isAuthenticated && s.user.Some? && s.user.value.username == username) ==> r == Session(true, Some(row))
    ensures !(s.isAuthenticated && s.user.Some? && s.user.value.username == username) ==> r == s
  {
    if s.isAuthenticated && s.user.Some? && s.user.value.username == username then Session(true, Some(row)) else s
  }

  /**
   * `findUserInDatabase`, given the single active row the database returned
   * for that username (`None` on any error): when lookups are configured and
   * the row's password matches, the row is upserted into the list, the
   * session refreshed, and the row returned; otherwise nothing changes.
   */
  function FindUserInDatabase(st: AttendanceState, url: string, key: string, username: string, password: string,
                              dbRow: Option<AttendanceUser>): (r: (Option<AttendanceUser>, AttendanceState))
    ensures r.0.Some? <==> LookupConfigured(url, key) && dbRow.Some? && dbRow.value.passwordHash == password
    ensures r.0.None? ==> r.1 == st
    ensures r.0.Some? ==> r.0 == dbRow && r.1.users == Upsert(st.users, dbRow.value)
                          && r.1.session == RefreshSession(st.session, username, dbRow.value)
  {
    if LookupConfigured(url, key) && dbRow.Some? && dbRow.value.passwordHash == password then
      (dbRow, AttendanceState(Upsert(st.users, dbRow.value), RefreshSession(st.session, username, dbRow.value)))
    else (None, st)
  }

  // ---- proofs ----

  /**
   * A failed local login still starts the database lookup. Once that lookup
   * lands with an active row of that username whose password matches, the
   * row is in the list and the same login succeeds.
   */
  lemma LookupThenRetry(st: AttendanceState, url: string, key: string, username: string, password: string,
                        u: AttendanceUser, nowIso: string)
    requires LookupConfigured(url, key) && u.username == username && u.passwordHash == password && u.isActive
    ensures var after := FindUserInDatabase(st, url, key, username, password, Some(u)).1;
            && u in after.users
            && Login(after, username, password, nowIso).ok
  {
    var after := FindUserInDatabase(st, url, key, username, password, Some(u)).1;
    var n := |after.users|;
    assert after.users[n - 1] == u;
    assert Accepts(after.users[n - 1], username, password);
  }

  function HasId(id: string): AttendanceUser -> bool { (u: AttendanceUser) => u.id == id }

  /** After the upsert exactly one entry carries the database user's id. */
  lemma UpsertUnique(users: seq<AttendanceUser>, row: AttendanceUser)
    ensures CountIf(Upsert(users, row), HasId(row.id)) == 1
  {
    var rest := DeleteUserLocal(users, row.id);
    CountIfAppend(rest, [row], HasId(row.id));
    NoneCounted(rest, HasId(row.id));
    assert [row][1..] == [];
  }

  lemma {:induction false} NoneCounted<T>(s: seq<T>, f: T -> bool)
    requires forall i :: 0 <= i < |s| ==> !f(s[i])
    ensures CountIf(s, f) == 0
    decreases |s|
  {
    if |s| > 0 {
      NoneCounted(s[1..], f);
    }
  }

  /** Login and logout keep the session well formed. */
  lemma SessionStaysWellFormed(st: AttendanceState, username: string, password: string, nowIso: string)
    requires WellFormed(st.session)
    ensures WellFormed(Login(st, username, password, nowIso).state.session)
    ensures WellFormed(Logout(st).session)
  {
  }

  /** A successful login followed by logout leaves a signed-out session, and the login-time stamp stays in the list. */
  lemma LoginThenLogout(st: AttendanceState, username: string, password: string, nowIso: string)
    ensures var r := Login(st, username, password, nowIso);
            Logout(r.state).session == SignedOut && Logout(r.state).users == r.state.users
  {
  }

  /** Signing in changes no user other than the one signing in, and that one only in its last-login time. */
  lemma LoginTouchesOnlyLastLogin(st: AttendanceState, username: string, password: string, nowIso: string, i: nat)
    requires i < |st.users|
    ensures var r := Login(st, username, password, nowIso);
            |r.state.users| == |st.users| && r.state.users[i].(lastLogin := st.users[i].lastLogin) == st.users[i]
  {
  }

  /** Creating a user with an unused id and deleting that id gives the original list back. */
  lemma CreateThenDelete(users: seq<AttendanceUser>, d: NewUser, now: nat, nowIso: string)
    requires forall i :: 0 <= i < |users| ==> users[i].id != NatToString(now)
    ensures DeleteUserLocal(CreateUserLocal(users, d, now, nowIso), NatToString(now)) == users
  {
    var c := CreateUserLocal(users, d, now, nowIso);
    var f := (u: AttendanceUser) => u.id != NatToString(now);
    assert c == users + [c[|users|]];
    FilterAppend(users, [c[|users|]], f);
    FilterKeepsAll(users, f);
    assert Filter([c[|users|]], f) == [];
  }

  lemma {:induction false} FilterAppend<T>(a: seq<T>, b: seq<T>, f: T -> bool)
    ensures Filter(a + b, f) == Filter(a, f) + Filter(b, f)
    decreases |a|
  {
    if |a| > 0 {
      assert (a + b)[1..] == a[1..] + b;
      FilterAppend(a[1..], b, f);
    } else {
      assert a + b == b;
    }
  }

  /** The merge takes each field the patch carries and keeps every other one; only `updatedAt` always changes. */
  lemma PatchMerges(u: AttendanceUser, p: UserPatch, nowIso: string)
    ensures var r := ApplyPatch(u, p, nowIso);
            && (p.username.Some? ==> r.username == p.username.value) && (p.username.None? ==> r.username == u.username)
            && (p.passwordHash.Some? ==> r.passwordHash == p.passwordHash.value) && (p.passwordHash.None? ==> r.passwordHash == u.passwordHash)
            && (p.permissions.Some? ==> r.permissions == p.permissions.value) && (p.permissions.None? ==> r.permissions == u.permissions)
            && (p.isActive.Some? ==> r.isActive == p.isActive.value) && (p.isActive.None? ==> r.isActive == u.isActive)
            && r.updatedAt == nowIso
    ensures ApplyPatch(u, UserPatch(None, None, None, None, None, None, None, None, None), nowIso) == u.(updatedAt := nowIso)
    ensures ApplyPatch(ApplyPatch(u, p, nowIso), p, nowIso) == ApplyPatch(u, p, nowIso)
  {
  }

  /** Updating or deleting an id nobody has leaves the list as it is; deleting is idempotent. */
  lemma UnknownIdNoOp(users: seq<AttendanceUser>, id: string, p: UserPatch, nowIso: string)
    requires forall i :: 0 <= i < |users| ==> users[i].id != id
    ensures UpdateUserLocal(users, id, p, nowIso) == users
    ensures DeleteUserLocal(users, id) == users
  {
    FilterKeepsAll(users, OtherId(id));
  }

  lemma DeleteIdempotent(users: seq<AttendanceUser>, id: string)
    ensures DeleteUserLocal(DeleteUserLocal(users, id), id) == DeleteUserLocal(users, id)
  {
    FilterIdempotent(users, OtherId(id));
  }

  /** Seeding leaves no default username uncovered: each one is existing or about to be created, never both. */
  lemma SeedingCovers(existing: seq<string>, nowIso: string)
    ensures forall u :: u in DefaultUsers(nowIso) ==> (u.username in existing <==> u !in UsersToCreate(existing, nowIso))
    ensures existing == [] ==> UsersToCreate(existing, nowIso) == DefaultUsers(nowIso)
  {
    FilterKeepsAll(DefaultUsers(nowIso), (u: AttendanceUser) => u.username !in existing);
  }

  /** The user operations' test implies the lookup's once the key holds no `placeholder` either. */
  lemma ConfiguredImpliesLookup(url: string, key: string)
    requires !Contains(key, "placeholder")
    ensures IsConfigured(url, key) ==> LookupConfigured(url, key)
  {
  }

  /** The two configuration tests disagree on the template values: the user operations treat them as unconfigured, the lookup as configured. */
  lemma TemplateValuesDisagree()
    ensures !IsConfigured(TemplateUrl, TemplateKey)
    ensures LookupConfigured(TemplateUrl, TemplateKey)
  {
    NoPlaceholder(TemplateUrl);
    NoPlaceholder(TemplateKey);
  }

  /** Neither template string contains `placeholder`: neither has a `c`. */
  lemma NoPlaceholder(s: string)
    requires s == TemplateUrl || s == TemplateKey
    ensures !Contains(s, "placeholder")
  {
    NoCharNoContains(s, "placeholder", 'c');
  }

  /** A string without some character of `t` cannot contain `t`. */
  lemma {:induction false} NoCharNoContains(s: string, t: string, c: char)
    requires c in t && c !in s
    ensures !Contains(s, t)
    decreases |s|
  {
    if |t| <= |s| {
      assert s[..|t|] != t by {
        var k :| 0 <= k < |t| && t[k] == c;
        assert s[..|t|][k] == s[k];
      }
      NoCharNoContains(s[1..], t, c);
    }
  }
}
