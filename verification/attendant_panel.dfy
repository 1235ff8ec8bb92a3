/**
 * The attendant's order list: filtering by status and search text, and the
 * per-status counts shown on the filter buttons.
 */
module AttendantPanel {
  import opened Text
  import opened Seqs

  /**
   * The seven statuses the panel counts; `OtherStatus` stands for any value
   * outside them. Orders get their status from the stored text through
   * `StatusOf`, so an `OtherStatus` never carries one of the seven names.
   */
  datatype OrderStatus =
    | Pending | Confirmed | Preparing | OutForDelivery | ReadyForPickup | Delivered | Cancelled
    | OtherStatus(name: string)

  /** The stored text of each of the seven statuses. */
  const StatusNames: seq<string> :=
    ["pending", "confirmed", "preparing", "out_for_delivery", "ready_for_pickup", "delivered", "cancelled"]

  /** The status a stored `status` text stands for. */
  function StatusOf(name: string): (r: OrderStatus)
    ensures r.OtherStatus? <==> name !in StatusNames
    ensures r.OtherStatus? ==> r.name == name
    ensures name == "pending" <==> r == Pending
    ensures name == "confirmed" <==> r == Confirmed
    ensures name == "preparing" <==> r == Preparing
    ensures name == "out_for_delivery" <==> r == OutForDelivery
    ensures name == "ready_for_pickup" <==> r == ReadyForPickup
    ensures name == "delivered" <==> r == Delivered
    ensures name == "cancelled" <==> r == Cancelled
  {
    if name == "pending" then Pending
    else if name == "confirmed" then Confirmed
    else if name == "preparing" then Preparing
    else if name == "out_for_delivery" then OutForDelivery
    else if name == "ready_for_pickup" then ReadyForPickup
    else if name == "delivered" then Delivered
    else if name == "cancelled" then Cancelled
    else OtherStatus(name)
  }

  datatype Order = Order(id: string, customerName: string, customerPhone: string, status: OrderStatus)

  /** The status filter: every order, or only one status. */
  datatype StatusFilter = AllStatuses | Only(status: OrderStatus)

  predicate StatusMatches(o: Order, f: StatusFilter) { f.AllStatuses? || o.status == f.status }

  /** An empty term matches everything; otherwise name or id contain it ignoring case, or the phone contains it as typed. */
  predicate SearchMatches(o: Order, term: string) {
    || term == []
    || Contains(Lower(o.customerName), Lower(term))
    || Contains(o.customerPhone, term)
    || Contains(Lower(o.id), Lower(term))
  }

  predicate Shown(o: Order, f: StatusFilter, term: string) { StatusMatches(o, f) && SearchMatches(o, term) }

  function ShownBy(f: StatusFilter, term: string): Order -> bool { (o: Order) => Shown(o, f, term) }

  /** `filteredOrders`: the orders passing both filters, in their original order, each copy kept. */
  function FilteredOrders(orders: seq<Order>, f: StatusFilter, term: string): (r: seq<Order>)
    ensures IsSubsequence(r, orders)
    ensures |r| == CountIf(orders, ShownBy(f, term))
    ensures forall i :: 0 <= i < |r| ==> Shown(r[i], f, term)
    ensures forall o :: o in orders && Shown(o, f, term) ==> o in r
  {
    Filter(orders, ShownBy(f, term))
  }

  function HasStatus(s: OrderStatus): Order -> bool { (o: Order) => o.status == s }

  datatype StatusCounts = StatusCounts(
    all: nat, pending: nat, confirmed: nat, preparing: nat,
    outForDelivery: nat, readyForPickup: nat, delivered: nat, cancelled: nat)

  /**
   * `getStatusCounts`: computed over every order, whatever filter is active.
   * Each status count is the length of the list that status shows with no
   * search term.
   */
  function GetStatusCounts(orders: seq<Order>): (r: StatusCounts)
    ensures r.all == |orders|
    ensures r.pending == |FilteredOrders(orders, Only(Pending), [])|
    ensures r.confirmed == |FilteredOrders(orders, Only(Confirmed), [])|
    ensures r.preparing == |FilteredOrders(orders, Only(Preparing), [])|
    ensures r.outForDelivery == |FilteredOrders(orders, Only(OutForDelivery), [])|
    ensures r.readyForPickup == |FilteredOrders(orders, Only(ReadyForPickup), [])|
    ensures r.delivered == |FilteredOrders(orders, Only(Delivered), [])|
    ensures r.cancelled == |FilteredOrders(orders, Only(Cancelled), [])|
    ensures r.pending <= r.all && r.confirmed <= r.all && r.preparing <= r.all && r.outForDelivery <= r.all
    ensures r.readyForPickup <= r.all && r.delivered <= r.all && r.cancelled <= r.all
  {
    CountIfBound(orders, HasStatus(Pending));
    CountIfBound(orders, HasStatus(Confirmed));
    CountIfBound(orders, HasStatus(Preparing));
    CountIfBound(orders, HasStatus(OutForDelivery));
    CountIfBound(orders, HasStatus(ReadyForPickup));
    CountIfBound(orders, HasStatus(Delivered));
    CountIfBound(orders, HasStatus(Cancelled));
    StatusCountIsListLength(orders, Pending);
    StatusCountIsListLength(orders, Confirmed);
    StatusCountIsListLength(orders, Preparing);
    StatusCountIsListLength(orders, OutForDelivery);
    StatusCountIsListLength(orders, ReadyForPickup);
    StatusCountIsListLength(orders, Delivered);
    StatusCountIsListLength(orders, Cancelled);
    StatusCounts(
      |orders|,
      CountIf(orders, HasStatus(Pending)), CountIf(orders, HasStatus(Confirmed)),
      CountIf(orders, HasStatus(Preparing)), CountIf(orders, HasStatus(OutForDelivery)),
      CountIf(orders, HasStatus(ReadyForPickup)), CountIf(orders, HasStatus(Delivered)),
      CountIf(orders, HasStatus(Cancelled)))
  }

  function SevenSum(c: StatusCounts): nat {
    c.pending + c.confirmed + c.preparing + c.outForDelivery + c.readyForPickup + c.delivered + c.cancelled
  }

  // ---- proofs ----

  /** With no status filter and no search term every order is listed. */
  lemma NoFilterListsAll(orders: seq<Order>)
    ensures FilteredOrders(orders, AllStatuses, []) == orders
  {
    FilterKeepsAll(orders, (o: Order) => Shown(o, AllStatuses, []));
  }

  /** When every order has one of the seven statuses, their counts add up to the total. */
  lemma SevenCountsSumToAll(orders: seq<Order>)
    requires forall i :: 0 <= i < |orders| ==> !orders[i].status.OtherStatus?
    ensures SevenSum(GetStatusCounts(orders)) == GetStatusCounts(orders).all
  {
    assert GetStatusCounts(orders) == StatusCounts(|orders|,
      CountIf(orders, HasStatus(Pending)), CountIf(orders, HasStatus(Confirmed)),
      CountIf(orders, HasStatus(Preparing)), CountIf(orders, HasStatus(OutForDelivery)),
      CountIf(orders, HasStatus(ReadyForPickup)), CountIf(orders, HasStatus(Delivered)),
      CountIf(orders, HasStatus(Cancelled)));
    SevenCountIfsSum(orders);
  }

  lemma {:induction false} SevenCountIfsSum(orders: seq<Order>)
    requires forall i :: 0 <= i < |orders| ==> !orders[i].status.OtherStatus?
    ensures CountIf(orders, HasStatus(Pending)) + CountIf(orders, HasStatus(Confirmed))
            + CountIf(orders, HasStatus(Preparing)) + CountIf(orders, HasStatus(OutForDelivery))
            + CountIf(orders, HasStatus(ReadyForPickup)) + CountIf(orders, HasStatus(Delivered))
            + CountIf(orders, HasStatus(Cancelled)) == |orders|
    decreases |orders|
  {
    if |orders| > 0 {
      assert forall i :: 0 <= i < |orders[1..]| ==> orders[1..][i] == orders[i + 1];
      SevenCountIfsSum(orders[1..]);
    }
  }

  /** A test implied by another counts no more elements. */
  lemma {:induction false} CountIfMonotone<T>(s: seq<T>, f: T -> bool, g: T -> bool)
    requires forall i :: 0 <= i < |s| ==> f(s[i]) ==> g(s[i])
    ensures CountIf(s, f) <= CountIf(s, g)
    decreases |s|
  {
    if |s| > 0 {
      assert forall i :: 0 <= i < |s[1..]| ==> s[1..][i] == s[i + 1];
      CountIfMonotone(s[1..], f, g);
    }
  }

  /** The list filtered to one status is never longer than that status's count. */
  lemma FilteredWithinCount(orders: seq<Order>, s: OrderStatus, term: string)
    ensures |FilteredOrders(orders, Only(s), term)| <= CountIf(orders, HasStatus(s))
  {
    CountIfMonotone(orders, (o: Order) => Shown(o, Only(s), term), HasStatus(s));
  }

  /** Filtering twice with the same settings is filtering once. */
  lemma FilterTwice(orders: seq<Order>, f: StatusFilter, term: string)
    ensures FilteredOrders(FilteredOrders(orders, f, term), f, term) == FilteredOrders(orders, f, term)
  {
    FilterIdempotent(orders, ShownBy(f, term));
  }

  /** Each status button's count is the length of the list shown when that status is picked with no search term. */
  lemma StatusCountIsListLength(orders: seq<Order>, s: OrderStatus)
    ensures CountIf(orders, HasStatus(s)) == |FilteredOrders(orders, Only(s), [])|
  {
    CountIfExt(orders, HasStatus(s), ShownBy(Only(s), []));
  }
}
