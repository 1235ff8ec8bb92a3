/**
 * The point-of-sale entry page: the operator restored from browser storage,
 * the built-in login with the default credentials, logout, and the choice
 * between the login screen and the main screen. The clock is a parameter:
 * `renderIso` is the time the page renders and `nowIso` the time of a login.
 */
module PdvPage {
  import opened Basics
  import opened Text
  import AttendancePage

  datatype PdvRole = AdminRole | Operator

  datatype PdvOperator = PdvOperator(
    id: string, name: string, code: string, passwordHash: string, isActive: bool, role: PdvRole,
    permissions: map<string, bool>, createdAt: string, updatedAt: string, lastLogin: Option<string>)

  const DefaultCode := "ADMIN"
  const DefaultPassword := "elite2024"

  /** The thirty flags of the default operator, every one set. */
  const OperatorPermissionNames: seq<string> := [
    "can_cancel", "can_discount", "can_use_scale", "can_view_sales", "can_view_orders",
    "can_view_reports", "can_view_products", "can_view_operators", "can_manage_products",
    "can_manage_settings", "can_view_attendance", "can_view_cash_report", "can_view_sales_report",
    "can_view_cash_register", "can_view_tables", "can_view_history", "can_view_expected_balance",
    "can_edit_orders", "can_delete_orders", "can_cancel_orders", "can_manage_cash_entries",
    "can_edit_sales", "can_delete_sales", "can_edit_cash_entries", "can_delete_cash_entries",
    "can_cancel_cash_entries", "can_view_cash_balance", "can_view_cash_details",
    "can_view_sales_totals", "can_view_cash_entries"]

  const OperatorPermissions: map<string, bool> := map k | k in OperatorPermissionNames :: true

  /** The default operator as built at render time: every timestamp is the render time. */
  function DefaultOperator(renderIso: string): (r: PdvOperator)
    ensures r.code == DefaultCode && r.passwordHash == DefaultPassword
    ensures r.isActive && r.role == AdminRole
    ensures forall k :: k in r.permissions <==> k in OperatorPermissionNames
    ensures forall k :: k in r.permissions ==> r.permissions[k]
  {
    PdvOperator("00000000-0000-0000-0000-000000000001", "Administrador", DefaultCode, DefaultPassword,
                true, AdminRole, OperatorPermissions, renderIso, renderIso, Some(renderIso))
  }

  /** The page's state: the logged-in operator and the `pdv_operator` storage entry. */
  datatype PageState = PageState(operator: Option<PdvOperator>, saved: Stored<PdvOperator>)

  /**
   * The initial operator: a stored operator that parses is restored; an
   * entry that fails to parse is removed and nobody is logged in.
   */
  function RestoreOperator(saved: Stored<PdvOperator>): (r: PageState)
    ensures r.operator.Some? <==> saved.Parsed?
    ensures saved.Parsed? ==> r.operator == Some(saved.value) && r.saved == saved
    ensures saved.Unparseable? ==> r.saved == Absent
    ensures saved.Absent? ==> r.saved == Absent
  {
    match saved
    case Parsed(op) => PageState(Some(op), saved)
    case Unparseable => PageState(None, Absent)
    case Absent => PageState(None, Absent)
  }

  /** The credential test: the code ignores case, the password does not. */
  predicate CredentialsMatch(code: string, password: string) {
    Upper(code) == DefaultCode && password == DefaultPassword
  }

  datatype LoginOutcome = LoginOutcome(ok: bool, state: PageState)

  /**
   * `handleLogin`: matching credentials log in the default operator with the
   * login time as its last login and save it; anything else changes nothing.
   */
  function HandleLogin(s: PageState, code: string, password: string, renderIso: string, nowIso: string): (r: LoginOutcome)
    ensures r.ok <==> CredentialsMatch(code, password)
    ensures r.ok ==> r.state.operator == Some(DefaultOperator(renderIso).(lastLogin := Some(nowIso)))
                     && r.state.saved == Parsed(r.state.operator.value)
    ensures !r.ok ==> r.state == s
  {
    if CredentialsMatch(code, password) then
      var op := DefaultOperator(renderIso).(lastLogin := Some(nowIso));
      LoginOutcome(true, PageState(Some(op), Parsed(op)))
    else LoginOutcome(false, s)
  }

  /** `handleLogout`: nobody is logged in and the storage entry is removed. */
  function HandleLogout(s: PageState): (r: PageState)
    ensures r.operator.None? && r.saved.Absent?
  {
    PageState(None, Absent)
  }

  datatype Screen = LoginScreen | MainScreen(operator: PdvOperator)

  /** The main screen for a logged-in operator, the login screen otherwise. */
  function CurrentScreen(s: PageState): (r: Screen)
    ensures r.MainScreen? <==> s.operator.Some?
    ensures r.MainScreen? ==> r.operator == s.operator.value
  {
    match s.operator
    case Some(op) => MainScreen(op)
    case None => LoginScreen
  }

  // ---- proofs ----

  /** The characters whose upper case is an ASCII capital letter `u` other than `I` and `S` are `u` and its lower case. */
  lemma UpperCharIsAsciiCapital(c: char, u: char)
    requires 'A' <= u <= 'Z' && u != 'I' && u != 'S'
    ensures UpperChar(c) == u <==> c == u || c == (u as int + 32) as char
  {
  }

  /** The characters whose upper case is `I`: `I`, `i`, and the dotless `ı`. */
  lemma UpperCharIsI(c: char)
    ensures UpperChar(c) == 'I' <==> c == 'I' || c == 'i' || c == '\U{0131}'
  {
  }

  /**
   * The codes the login accepts: five characters spelling `admin` in any
   * mix of cases, where the `i` may also be the dotless `ı`.
   */
  lemma AcceptedCodes(code: string)
    ensures Upper(code) == DefaultCode <==>
              && |code| == 5
              && (code[0] == 'A' || code[0] == 'a')
              && (code[1] == 'D' || code[1] == 'd')
              && (code[2] == 'M' || code[2] == 'm')
              && (code[3] == 'I' || code[3] == 'i' || code[3] == '\U{0131}')
              && (code[4] == 'N' || code[4] == 'n')
  {
    if |code| == 5 {
      var u := Upper(code);
      UpperCharIsAsciiCapital(code[0], 'A');
      UpperCharIsAsciiCapital(code[1], 'D');
      UpperCharIsAsciiCapital(code[2], 'M');
      UpperCharIsI(code[3]);
      UpperCharIsAsciiCapital(code[4], 'N');
      FiveEqual(u, DefaultCode);
    }
  }

  /** Two five-element sequences are equal exactly when they agree at every position. */
  lemma FiveEqual(a: string, b: string)
    requires |a| == 5 && |b| == 5
    ensures a == b <==> a[0] == b[0] && a[1] == b[1] && a[2] == b[2] && a[3] == b[3] && a[4] == b[4]
  {
    if a[0] == b[0] && a[1] == b[1] && a[2] == b[2] && a[3] == b[3] && a[4] == b[4] {
      assert forall i :: 0 <= i < 5 ==> a[i] == b[i];
    }
  }

  /** Lower-case `admin` logs in; the password in another case does not. */
  lemma LoginExamples(s: PageState, renderIso: string, nowIso: string)
    ensures HandleLogin(s, "admin", "elite2024", renderIso, nowIso).ok
    ensures !HandleLogin(s, "ADMIN", "ELITE2024", renderIso, nowIso).ok
    ensures !HandleLogin(s, "ADMIN", "", renderIso, nowIso).ok
  {
    AcceptedCodes("admin");
    assert "ELITE2024" != DefaultPassword by { assert "ELITE2024"[0] != DefaultPassword[0]; }
  }

  /** After a login a reload restores the same operator, and the main screen shows it. */
  lemma LoginSurvivesReload(s: PageState, code: string, password: string, renderIso: string, nowIso: string)
    requires CredentialsMatch(code, password)
    ensures var t := HandleLogin(s, code, password, renderIso, nowIso).state;
            && RestoreOperator(t.saved) == t
            && CurrentScreen(t) == MainScreen(DefaultOperator(renderIso).(lastLogin := Some(nowIso)))
  {
  }

  /** Logging out after any login brings back the login screen, and a reload keeps it. */
  lemma LogoutAfterLogin(s: PageState, code: string, password: string, renderIso: string, nowIso: string)
    ensures var t := HandleLogout(HandleLogin(s, code, password, renderIso, nowIso).state);
            && CurrentScreen(t) == LoginScreen
            && RestoreOperator(t.saved) == t
  {
  }

  /** A failed login leaves the screen as it was. */
  lemma FailedLoginKeepsScreen(s: PageState, code: string, password: string, renderIso: string, nowIso: string)
    requires !CredentialsMatch(code, password)
    ensures CurrentScreen(HandleLogin(s, code, password, renderIso, nowIso).state) == CurrentScreen(s)
  {
  }

  /** The logged-in default operator passes the attendance page's entry check and is offered every tab there. */
  lemma DefaultOperatorEntersAttendance(renderIso: string)
    ensures AttendancePage.HasAnyPermission(Some(DefaultOperator(renderIso).permissions))
    ensures forall t: AttendancePage.Tab ::
              AttendancePage.Granted(DefaultOperator(renderIso).permissions, AttendancePage.TabPermission(t))
  {
    assert OperatorPermissionNames[4] == "can_view_orders";
    forall t: AttendancePage.Tab
      ensures AttendancePage.Granted(DefaultOperator(renderIso).permissions, AttendancePage.TabPermission(t))
    {
      var i := match t
        case OrdersTab => 4 case SalesTab => 3 case CashTab => 13 case TablesTab => 14
        case HistoryTab => 15 case ReportsTab => 5 case SalesReportTab => 12 case CashReportTab => 11;
      assert OperatorPermissionNames[i] == AttendancePage.TabPermission(t);
    }
  }
}
