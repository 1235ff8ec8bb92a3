/**
 * The unified attendance page: whether the operator may use it at all, the
 * tabs offered, the correction of the active tab, and the guard around each
 * tab's content. The permission check the tabs use comes from a hook outside
 * this model and is a parameter here.
 */
module AttendancePage {
  import opened Basics
  import opened Seqs

  datatype Tab = OrdersTab | SalesTab | CashTab | TablesTab | HistoryTab | ReportsTab | SalesReportTab | CashReportTab

  /** The eight tabs in the order the page lists them. */
  const AllTabs: seq<Tab> := [OrdersTab, SalesTab, CashTab, TablesTab, HistoryTab, ReportsTab, SalesReportTab, CashReportTab]

  /** The permission each tab requires, both to be listed and to show its content. */
  function TabPermission(t: Tab): string {
    match t
    case OrdersTab => "can_view_orders"
    case SalesTab => "can_view_sales"
    case CashTab => "can_view_cash_register"
    case TablesTab => "can_view_tables"
    case HistoryTab => "can_view_history"
    case ReportsTab => "can_view_reports"
    case SalesReportTab => "can_view_sales_report"
    case CashReportTab => "can_view_cash_report"
  }

  /** A flag set to true in the operator's permission object. */
  predicate Granted(perms: map<string, bool>, name: string) { name in perms && perms[name] }

  /** The six flags that let the operator past the no-permission screen. */
  const EntryPermissions: seq<string> :=
    ["can_view_orders", "can_view_sales", "can_view_cash_register", "can_view_tables", "can_view_history", "can_view_reports"]

  /** `hasAnyPermission`: the operator has a permission object and one of the six flags is set. */
  predicate HasAnyPermission(perms: Option<map<string, bool>>) {
    perms.Some? && (
      || Granted(perms.value, "can_view_orders")
      || Granted(perms.value, "can_view_sales")
      || Granted(perms.value, "can_view_cash_register")
      || Granted(perms.value, "can_view_tables")
      || Granted(perms.value, "can_view_history")
      || Granted(perms.value, "can_view_reports"))
  }

  /** `availableTabs`: the tabs whose permission the check grants, in page order. */
  function AvailableTabs(hasPermission: string -> bool): (r: seq<Tab>)
    ensures IsSubsequence(r, AllTabs)
    ensures forall t :: t in r <==> hasPermission(TabPermission(t))
  {
    var r := Filter(AllTabs, (t: Tab) => hasPermission(TabPermission(t)));
    AllTabsComplete();
    r
  }

  /** Every tab is in the page list. */
  lemma AllTabsComplete()
    ensures forall t: Tab :: t in AllTabs
  {
    forall t: Tab
      ensures t in AllTabs
    {
      var i := match t
        case OrdersTab => 0 case SalesTab => 1 case CashTab => 2 case TablesTab => 3
        case HistoryTab => 4 case ReportsTab => 5 case SalesReportTab => 6 case CashReportTab => 7;
      assert AllTabs[i] == t;
    }
  }

  /** The default-tab correction: an active tab that is not offered gives way to the first offered one. */
  function CorrectActiveTab(available: seq<Tab>, active: Tab): (r: Tab)
    ensures |available| > 0 ==> r in available
    ensures active in available ==> r == active
    ensures |available| == 0 ==> r == active
    ensures active !in available && |available| > 0 ==> r == available[0]
  {
    if |available| > 0 && active !in available then available[0] else active
  }

  /** What the page shows. */
  datatype View = NoPermissionScreen | TabsView(tabs: seq<Tab>, active: Tab)

  /** The page as rendered for an operator, after the active tab has been corrected. */
  function Page(perms: Option<map<string, bool>>, hasPermission: string -> bool, active: Tab): (r: View)
    ensures r.NoPermissionScreen? <==> !HasAnyPermission(perms)
    ensures r.TabsView? ==> r.tabs == AvailableTabs(hasPermission) && (|r.tabs| > 0 ==> r.active in r.tabs)
  {
    if !HasAnyPermission(perms) then NoPermissionScreen
    else
      var tabs := AvailableTabs(hasPermission);
      TabsView(tabs, CorrectActiveTab(tabs, active))
  }

  /** The tab content behind its guard: the screen when permitted, the guard's message otherwise. */
  datatype Content = TabScreen(tab: Tab) | GuardMessage

  function RenderTabContent(active: Tab, hasPermission: string -> bool): (r: Content)
    ensures r == TabScreen(active) <==> hasPermission(TabPermission(active))
    ensures r != TabScreen(active) ==> r == GuardMessage
  {
    if hasPermission(TabPermission(active)) then TabScreen(active) else GuardMessage
  }

  // ---- proofs ----

  /** A tab is offered exactly when its content would pass its guard. */
  lemma ListedIffContentShown(t: Tab, hasPermission: string -> bool)
    ensures t in AvailableTabs(hasPermission) <==> RenderTabContent(t, hasPermission) == TabScreen(t)
  {
  }

  /** The two report flags do not count towards entry: setting them changes nothing about the no-permission screen. */
  lemma ReportFlagsDoNotGrantEntry(m: map<string, bool>, a: bool, b: bool)
    ensures HasAnyPermission(Some(m["can_view_sales_report" := a]["can_view_cash_report" := b])) == HasAnyPermission(Some(m))
  {
    var m2 := m["can_view_sales_report" := a]["can_view_cash_report" := b];
    forall k | k in EntryPermissions
      ensures Granted(m2, k) == Granted(m, k)
    {
      assert k != "can_view_sales_report" && k != "can_view_cash_report";
    }
    assert EntryPermissions[0] == "can_view_orders" && EntryPermissions[1] == "can_view_sales";
    assert EntryPermissions[2] == "can_view_cash_register" && EntryPermissions[3] == "can_view_tables";
    assert EntryPermissions[4] == "can_view_history" && EntryPermissions[5] == "can_view_reports";
  }

  /** An operator holding only the two report flags sees the no-permission screen. */
  lemma OnlyReportFlags()
    ensures !HasAnyPermission(Some(map["can_view_sales_report" := true, "can_view_cash_report" := true]))
  {
  }

  /** The correction is idempotent. */
  lemma CorrectionIdempotent(available: seq<Tab>, active: Tab)
    ensures CorrectActiveTab(available, CorrectActiveTab(available, active)) == CorrectActiveTab(available, active)
  {
  }

  /** With every permission granted all eight tabs are offered in page order and the orders tab stays active. */
  lemma FullAccess()
    ensures AvailableTabs((p: string) => true) == AllTabs
    ensures CorrectActiveTab(AllTabs, OrdersTab) == OrdersTab
  {
    FilterKeepsAll(AllTabs, (t: Tab) => ((p: string) => true)(TabPermission(t)));
  }
}
