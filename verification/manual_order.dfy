/**
 * The form staff use to enter a delivery order by hand: the Brazilian phone
 * mask, the item list, the delivery fee by neighbourhood, the ordered
 * validation checks, and the order payload sent on submit.
 */
module ManualOrder {
  import opened Basics
  import opened Text
  import opened Seqs

  /** A delivery catalog product as the form reads it; `imageUrl` may be missing or empty. */
  datatype MenuProduct = MenuProduct(id: string, name: string, price: real, imageUrl: Option<string>)

  /** A neighbourhood with its delivery fee and estimated delivery time in minutes (missing or 0 when unknown). */
  datatype Neighborhood = Neighborhood(id: string, name: string, deliveryFee: real, deliveryTime: Option<int>)

  datatype OrderItem = OrderItem(
    id: string,
    productId: string,
    productName: string,
    productImage: string,
    quantity: int,
    unitPrice: real,
    totalPrice: real,
    observations: string)

  datatype PaymentMethod = Money | Pix | Card

  datatype OrderForm = OrderForm(
    customerName: string,
    customerPhone: string,
    customerAddress: string,
    customerNeighborhood: string,
    customerComplement: string,
    paymentMethod: PaymentMethod,
    changeFor: Option<real>,
    items: seq<OrderItem>,
    selectedProductId: string)

  /** The form as it is reset whenever it opens or closes. */
  const BlankForm := OrderForm("", "", "", "", "", Money, None, [], "")

  const DefaultImage := "https://images.pexels.com/photos/1092730/pexels-photo-1092730.jpeg?auto=compress&cs=tinysrgb&w=400"
  const DefaultDeliveryFee := 5.00
  const DefaultDeliveryMinutes := 35
  const PhoneDigitLimit := 11

  // ---- phone mask ----

  /** The digits of the input, cut to the first eleven. */
  function PhoneDigits(s: string): (r: string)
    ensures |r| <= PhoneDigitLimit && AllDigits(r)
    ensures |r| <= |Digits(s)| && r == Digits(s)[..|r|]
    ensures |r| < PhoneDigitLimit ==> r == Digits(s)
  {
    var d := Digits(s);
    d[..Min(PhoneDigitLimit, |d|)]
  }

  /** The mask applied to at most eleven digits. */
  function MaskDigits(l: string): string {
    if |l| <= 2 then l
    else if |l| <= 7 then "(" + l[..2] + ") " + l[2..]
    else "(" + l[..2] + ") " + l[2..7] + "-" + l[7..]
  }

  /**
   * `formatPhone`: at most two digits are shown bare, up to seven as
   * `(DD) rest`, and more as `(DD) DDDDD-rest`; never longer than fifteen
   * characters.
   */
  function FormatPhone(s: string): (r: string)
    ensures var n := |PhoneDigits(s)|;
            && (n <= 2 ==> r == PhoneDigits(s))
            && (3 <= n <= 7 ==> |r| == n + 3 && r[0] == '(' && r[3] == ')' && r[4] == ' ')
            && (n >= 8 ==> |r| == n + 4 && r[0] == '(' && r[3] == ')' && r[4] == ' ' && r[10] == '-')
    ensures |r| <= 15
  {
    MaskDigits(PhoneDigits(s))
  }

  lemma MaskKeepsDigits(l: string)
    requires AllDigits(l) && |l| <= PhoneDigitLimit
    ensures Digits(MaskDigits(l)) == l
  {
    if |l| <= 2 {
      DigitsOfDigits(l);
    } else if |l| <= 7 {
      AreaCodeDigits(l);
      var x := "(" + l[..2] + ") ";
      DigitsOfDigits(l[2..]);
      DigitsAppend(x, l[2..]);
      assert l[..2] + l[2..] == l;
    } else {
      AreaCodeDigits(l);
      var x := "(" + l[..2] + ") ";
      var b := l[2..7];
      DigitsOfDigits(b);
      DigitsAppend(x, b);
      var y := x + b + "-";
      DigitsAppend(x + b, "-");
      assert Digits("-") == [];
      DigitsOfDigits(l[7..]);
      DigitsAppend(y, l[7..]);
      assert l[..2] + b + l[7..] == l;
    }
  }

  /** The parenthesised area code of the mask carries exactly the first two digits. */
  lemma AreaCodeDigits(l: string)
    requires AllDigits(l) && |l| >= 2
    ensures Digits("(" + l[..2] + ") ") == l[..2]
  {
    var a := l[..2];
    DigitsOfDigits(a);
    assert Digits("(") == [] && Digits(") ") == [];
    DigitsAppend("(", a);
    DigitsAppend("(" + a, ") ");
  }

  /** The digits of the masked phone are exactly the first (up to eleven) digits of the input. */
  lemma FormatPhoneDigits(s: string)
    ensures Digits(FormatPhone(s)) == PhoneDigits(s)
  {
    MaskKeepsDigits(PhoneDigits(s));
  }

  /** Masking an already masked phone changes nothing. */
  lemma FormatPhoneIdempotent(s: string)
    ensures FormatPhone(FormatPhone(s)) == FormatPhone(s)
  {
    FormatPhoneDigits(s);
    var l := PhoneDigits(s);
    assert PhoneDigits(FormatPhone(s)) == l;
  }

  /** The mask on eleven digits: "11987654321" becomes "(11) 98765-4321". */
  lemma FormatPhoneExample()
    ensures FormatPhone("11987654321") == "(11) 98765-4321"
  {
    var l := "11987654321";
    ExampleDigits();
    assert PhoneDigits(l) == l;
    MaskExample();
  }

  lemma MaskExample()
    ensures MaskDigits("11987654321") == "(11) 98765-4321"
  {
    var l := "11987654321";
    assert l[..2] == "11" && l[2..7] == "98765" && l[7..] == "4321";
  }

  lemma ExampleDigits()
    ensures Digits("11987654321") == "11987654321"
  {
    DigitsOfDigits("11987654321");
  }

  // ---- items ----

  datatype AddError = NoSelection | ProductNotFound

  /** The test `addItem` looks products up by: the id is the selected one. */
  function HasId(id: string): MenuProduct -> bool { (p: MenuProduct) => p.id == id }

  /** `products[k]` is the product `find` returns for that id: the first one carrying it. */
  predicate FirstWithId(products: seq<MenuProduct>, id: string, k: int) {
    0 <= k < |products| && products[k].id == id && forall j :: 0 <= j < k ==> products[j].id != id
  }

  /** The picture a new line shows: the product's image url when present and non-empty, else the default photo. */
  function ProductImage(p: MenuProduct): string {
    if p.imageUrl.Some? && p.imageUrl.value != [] then p.imageUrl.value else DefaultImage
  }

  /** The line `addItem` appends for product `p` at clock reading `now`. */
  function NewLine(p: MenuProduct, now: nat): OrderItem {
    OrderItem("item-" + NatToString(now), p.id, p.name, ProductImage(p), 1, p.price, p.price, "")
  }

  /**
   * `addItem`: with no selection or an unknown product the form is left as it
   * is; otherwise one line of quantity 1 at the price of the first product
   * with that id is appended and the selection is cleared.
   */
  function AddItem(f: OrderForm, products: seq<MenuProduct>, now: nat): (r: Result<OrderForm, AddError>)
    ensures f.selectedProductId == [] <==> r == Err(NoSelection)
    ensures r == Err(ProductNotFound) <==>
              f.selectedProductId != [] && forall i :: 0 <= i < |products| ==> products[i].id != f.selectedProductId
    ensures r.Ok? ==>
              && |r.value.items| == |f.items| + 1
              && r.value.items[..|f.items|] == f.items
              && r.value.selectedProductId == []
              && var it := r.value.items[|f.items|];
                 && it.productId == f.selectedProductId && it.quantity == 1 && it.unitPrice == it.totalPrice
                 && exists p :: p in products && p.id == it.productId && it.unitPrice == p.price
    ensures r.Ok? ==> exists k :: FirstWithId(products, f.selectedProductId, k)
                                  && r.value.items[|f.items|] == NewLine(products[k], now)
    ensures r.Ok? ==> r.value.(items := f.items, selectedProductId := f.selectedProductId) == f
  {
    if f.selectedProductId == [] then Err(NoSelection)
    else
      match FirstIndex(products, HasId(f.selectedProductId))
      case None => Err(ProductNotFound)
      case Some(k) =>
        var item := NewLine(products[k], now);
        assert FirstWithId(products, f.selectedProductId, k);
        assert (f.items + [item])[..|f.items|] == f.items;
        Ok(f.(items := f.items + [item], selectedProductId := []))
  }

  function OtherLine(id: string): OrderItem -> bool { (x: OrderItem) => x.id != id }

  /** `removeItem`: the lines with that id go, the others stay in order, each copy kept. */
  function RemoveItem(items: seq<OrderItem>, id: string): (r: seq<OrderItem>)
    ensures forall i :: 0 <= i < |r| ==> r[i].id != id && r[i] in items
    ensures IsSubsequence(r, items)
    ensures |r| == CountIf(items, OtherLine(id))
    ensures forall x :: x in items && x.id != id ==> x in r
  {
    Filter(items, OtherLine(id))
  }

  /** `updateItemQuantity`: zero or less removes the line; otherwise only that line's quantity and total change. */
  function UpdateItemQuantity(items: seq<OrderItem>, id: string, q: int): (r: seq<OrderItem>)
    ensures q <= 0 ==> r == RemoveItem(items, id)
    ensures q > 0 ==> |r| == |items|
    ensures q > 0 ==> forall i :: 0 <= i < |items| ==>
              if items[i].id == id then r[i] == items[i].(quantity := q, totalPrice := items[i].unitPrice * q as real)
              else r[i] == items[i]
  {
    if q <= 0 then RemoveItem(items, id) else SetQuantity(items, id, q)
  }

  function SetQuantity(items: seq<OrderItem>, id: string, q: int): (r: seq<OrderItem>)
    ensures |r| == |items|
    ensures forall i :: 0 <= i < |items| ==>
              r[i] == if items[i].id == id then items[i].(quantity := q, totalPrice := items[i].unitPrice * q as real) else items[i]
  {
    if |items| == 0 then []
    else
      [if items[0].id == id then items[0].(quantity := q, totalPrice := items[0].unitPrice * q as real) else items[0]]
      + SetQuantity(items[1..], id, q)
  }

  // ---- totals ----

  /** `getDeliveryFee`: the fee of the first neighbourhood with that exact name, else 5.00. */
  function DeliveryFee(neighborhoods: seq<Neighborhood>, name: string): (r: real)
    ensures (forall i :: 0 <= i < |neighborhoods| ==> neighborhoods[i].name != name) ==> r == DefaultDeliveryFee
    ensures (exists i :: 0 <= i < |neighborhoods| && neighborhoods[i].name == name) ==>
              exists k :: 0 <= k < |neighborhoods| && neighborhoods[k].name == name && r == neighborhoods[k].deliveryFee
                          && forall j :: 0 <= j < k ==> neighborhoods[j].name != name
  {
    match Find(neighborhoods, (n: Neighborhood) => n.name == name)
    case Some(n) => n.deliveryFee
    case None => DefaultDeliveryFee
  }

  function ItemTotal(it: OrderItem): real { it.totalPrice }

  /** `getSubtotal`: the sum of the line totals. */
  function Subtotal(items: seq<OrderItem>): real { Sum(items, ItemTotal) }

  /** `getTotal`: the items plus the delivery fee. */
  function Total(f: OrderForm, neighborhoods: seq<Neighborhood>): real {
    Subtotal(f.items) + DeliveryFee(neighborhoods, f.customerNeighborhood)
  }

  // ---- validation and submission ----

  datatype FormError = NameRequired | PhoneInvalid | AddressRequired | NeighborhoodRequired | NoItems | ChangeTooLow

  /** Cash was chosen and a non-zero change amount below the total was entered. */
  predicate ChangeBelowTotal(f: OrderForm, total: real) {
    f.paymentMethod == Money && f.changeFor.Some? && f.changeFor.value != 0.0 && f.changeFor.value < total
  }

  /** `validateForm`: the first failing check, in the order the source makes them, or `None` when the form is valid. */
  function ValidateForm(f: OrderForm, neighborhoods: seq<Neighborhood>): (r: Option<FormError>)
    ensures r.None? <==>
              && !IsBlank(f.customerName) && |Digits(f.customerPhone)| >= 11
              && !IsBlank(f.customerAddress) && !IsBlank(f.customerNeighborhood)
              && |f.items| > 0 && !ChangeBelowTotal(f, Total(f, neighborhoods))
    ensures r == Some(NameRequired) <==> IsBlank(f.customerName)
    ensures r == Some(PhoneInvalid) <==> !IsBlank(f.customerName) && |Digits(f.customerPhone)| < 11
    ensures r == Some(AddressRequired) <==>
              !IsBlank(f.customerName) && |Digits(f.customerPhone)| >= 11 && IsBlank(f.customerAddress)
    ensures r == Some(NeighborhoodRequired) <==>
              !IsBlank(f.customerName) && |Digits(f.customerPhone)| >= 11 && !IsBlank(f.customerAddress)
              && IsBlank(f.customerNeighborhood)
    ensures r == Some(NoItems) <==>
              !IsBlank(f.customerName) && |Digits(f.customerPhone)| >= 11 && !IsBlank(f.customerAddress)
              && !IsBlank(f.customerNeighborhood) && |f.items| == 0
    ensures r == Some(ChangeTooLow) <==>
              !IsBlank(f.customerName) && |Digits(f.customerPhone)| >= 11 && !IsBlank(f.customerAddress)
              && !IsBlank(f.customerNeighborhood) && |f.items| > 0 && ChangeBelowTotal(f, Total(f, neighborhoods))
  {
    BlankHasNoDigits(f.customerPhone);
    if IsBlank(f.customerName) then Some(NameRequired)
    else if IsBlank(f.customerPhone) || |Digits(f.customerPhone)| < 11 then Some(PhoneInvalid)
    else if IsBlank(f.customerAddress) then Some(AddressRequired)
    else if IsBlank(f.customerNeighborhood) then Some(NeighborhoodRequired)
    else if |f.items| == 0 then Some(NoItems)
    else if ChangeBelowTotal(f, Total(f, neighborhoods)) then Some(ChangeTooLow)
    else None
  }

  datatype PayloadItem = PayloadItem(productName: string, productImage: string, quantity: int, unitPrice: real, totalPrice: real, observations: string)

  datatype OrderPayload = OrderPayload(
    customerName: string,
    customerPhone: string,
    customerAddress: string,
    customerNeighborhood: string,
    customerComplement: string,
    paymentMethod: PaymentMethod,
    changeFor: Option<real>,
    neighborhoodId: Option<string>,
    deliveryFee: real,
    estimatedDeliveryMinutes: int,
    items: seq<PayloadItem>,
    totalPrice: real,
    status: string,
    channel: string)

  /** A manual order is created already confirmed, on the `manual` channel. */
  const ConfirmedStatus := "confirmed"
  const ManualChannel := "manual"

  /** The minutes a neighbourhood promises: its delivery time unless missing or 0, else 35. */
  function NeighborhoodMinutes(n: Neighborhood): int {
    if n.deliveryTime.Some? && n.deliveryTime.value != 0 then n.deliveryTime.value else DefaultDeliveryMinutes
  }

  function ToPayloadItem(it: OrderItem): PayloadItem {
    PayloadItem(it.productName, it.productImage, it.quantity, it.unitPrice, it.totalPrice, it.observations)
  }

  function PayloadItems(items: seq<OrderItem>): (r: seq<PayloadItem>)
    ensures |r| == |items| && forall i :: 0 <= i < |items| ==> r[i] == ToPayloadItem(items[i])
  {
    if |items| == 0 then [] else [ToPayloadItem(items[0])] + PayloadItems(items[1..])
  }

  /**
   * `handleSubmit` up to the database call: a form that fails validation
   * yields its error; a valid one yields the order, with a digits-only phone,
   * the neighbourhood's id, fee and time (35 minutes when unknown or 0), and
   * the total.
   */
  function Submit(f: OrderForm, neighborhoods: seq<Neighborhood>): (r: Result<OrderPayload, FormError>)
    ensures r.Err? <==> ValidateForm(f, neighborhoods).Some?
    ensures r.Err? ==> r.error == ValidateForm(f, neighborhoods).value
    ensures r.Ok? ==> AllDigits(r.value.customerPhone) && |r.value.customerPhone| >= 11
    ensures r.Ok? ==> r.value.totalPrice == Total(f, neighborhoods) && |r.value.items| == |f.items| > 0
    ensures r.Ok? ==> r.value.deliveryFee == DeliveryFee(neighborhoods, f.customerNeighborhood)
    ensures r.Ok? ==> r.value.estimatedDeliveryMinutes != 0
    ensures r.Ok? ==> r.value.customerPhone == Digits(f.customerPhone) && r.value.items == PayloadItems(f.items)
    ensures r.Ok? && (forall i :: 0 <= i < |neighborhoods| ==> neighborhoods[i].name != f.customerNeighborhood) ==>
              r.value.estimatedDeliveryMinutes == DefaultDeliveryMinutes && r.value.neighborhoodId.None?
    ensures r.Ok? && (exists i :: 0 <= i < |neighborhoods| && neighborhoods[i].name == f.customerNeighborhood) ==>
              exists k :: 0 <= k < |neighborhoods| && neighborhoods[k].name == f.customerNeighborhood
                          && (forall j :: 0 <= j < k ==> neighborhoods[j].name != f.customerNeighborhood)
                          && r.value.neighborhoodId == Some(neighborhoods[k].id)
                          && r.value.estimatedDeliveryMinutes == NeighborhoodMinutes(neighborhoods[k])
    ensures r.Ok? ==> && r.value.customerName == f.customerName && r.value.customerAddress == f.customerAddress
                      && r.value.customerNeighborhood == f.customerNeighborhood
                      && r.value.customerComplement == f.customerComplement
                      && r.value.paymentMethod == f.paymentMethod && r.value.changeFor == f.changeFor
    ensures r.Ok? ==> r.value.status == ConfirmedStatus && r.value.channel == ManualChannel
  {
    match ValidateForm(f, neighborhoods)
    case Some(e) => Err(e)
    case None =>
      var n := Find(neighborhoods, (n: Neighborhood) => n.name == f.customerNeighborhood);
      var minutes := if n.Some? then NeighborhoodMinutes(n.value) else DefaultDeliveryMinutes;
      Ok(OrderPayload(
        f.customerName, Digits(f.customerPhone), f.customerAddress, f.customerNeighborhood, f.customerComplement,
        f.paymentMethod, f.changeFor, if n.Some? then Some(n.value.id) else None,
        DeliveryFee(neighborhoods, f.customerNeighborhood), minutes,
        PayloadItems(f.items), Total(f, neighborhoods), ConfirmedStatus, ManualChannel))
  }

  // ---- proofs ----

  /** The form as it opens and after it closes cannot be submitted (the name is missing first) and has nothing to add. */
  lemma BlankFormRefused(neighborhoods: seq<Neighborhood>, products: seq<MenuProduct>, now: nat)
    ensures BlankForm.items == [] && Subtotal(BlankForm.items) == 0.0
    ensures Submit(BlankForm, neighborhoods) == Err(NameRequired)
    ensures AddItem(BlankForm, products, now) == Err(NoSelection)
  {
    assert IsBlank(BlankForm.customerName);
  }

  /** Adding an item raises the subtotal by the price of the first product with the selected id. */
  lemma AddItemSubtotal(f: OrderForm, products: seq<MenuProduct>, now: nat)
    requires AddItem(f, products, now).Ok?
    ensures exists k :: FirstWithId(products, f.selectedProductId, k)
              && Subtotal(AddItem(f, products, now).value.items) == Subtotal(f.items) + products[k].price
  {
    var g := AddItem(f, products, now).value;
    var it := g.items[|f.items|];
    assert g.items == f.items + [it];
    SumAppend(f.items, [it], ItemTotal);
    var k :| FirstWithId(products, f.selectedProductId, k) && it == NewLine(products[k], now);
  }

  /** A masked phone passes the phone check exactly when the raw input held at least eleven digits. */
  lemma MaskedPhoneCheck(f: OrderForm, neighborhoods: seq<Neighborhood>, raw: string)
    requires !IsBlank(f.customerName)
    ensures var g := f.(customerPhone := FormatPhone(raw));
            ValidateForm(g, neighborhoods) == Some(PhoneInvalid) <==> |Digits(raw)| < 11
  {
    FormatPhoneDigits(raw);
  }

  /** Changing a quantity to a positive value and then removing that line is the same as removing it at once. */
  lemma {:induction false} UpdateThenRemove(items: seq<OrderItem>, id: string, q: int)
    ensures RemoveItem(UpdateItemQuantity(items, id, q), id) == RemoveItem(items, id)
    decreases |items|
  {
    if q <= 0 {
      FilterIdempotent(items, OtherLine(id));
    } else if |items| > 0 {
      var u := UpdateItemQuantity(items, id, q);
      UpdateThenRemove(items[1..], id, q);
      assert u[1..] == UpdateItemQuantity(items[1..], id, q);
      assert u[0].id == items[0].id;
    }
  }

  /** With line ids unique, setting line `k`'s quantity to `q` changes the subtotal from its old total to `unit * q`. */
  lemma {:induction false} UpdateQuantitySubtotal(items: seq<OrderItem>, k: nat, q: int)
    requires k < |items| && q > 0
    requires forall j :: 0 <= j < |items| && j != k ==> items[j].id != items[k].id
    ensures Subtotal(UpdateItemQuantity(items, items[k].id, q))
            == Subtotal(items) - items[k].totalPrice + items[k].unitPrice * q as real
    decreases |items|
  {
    var id := items[k].id;
    var rest := SetQuantity(items[1..], id, q);
    assert UpdateItemQuantity(items, id, q) == SetQuantity(items, id, q);
    var head := if items[0].id == id then items[0].(quantity := q, totalPrice := items[0].unitPrice * q as real)
                else items[0];
    assert SetQuantity(items, id, q) == [head] + rest;
    assert ([head] + rest)[1..] == rest;
    assert Subtotal([head] + rest) == head.totalPrice + Subtotal(rest);
    if k == 0 {
      assert forall j :: 0 <= j < |items[1..]| ==> items[1..][j].id != id;
      assert rest == items[1..];
    } else {
      assert items[1..][k - 1] == items[k];
      UpdateQuantitySubtotal(items[1..], k - 1, q);
      assert UpdateItemQuantity(items[1..], id, q) == rest;
    }
  }

  /** A neighbourhood not in the list costs the default 5.00, and the total is then the subtotal plus 5.00. */
  lemma UnknownNeighborhoodTotal(f: OrderForm, neighborhoods: seq<Neighborhood>)
    requires forall i :: 0 <= i < |neighborhoods| ==> neighborhoods[i].name != f.customerNeighborhood
    ensures Total(f, neighborhoods) == Subtotal(f.items) + 5.00
  {
  }
}
