/**
 * The point-of-sale cart: line items with per-line subtotals, a cart-level
 * discount, payment and bill-splitting details, and the catalog search used
 * to find products.
 */
module PdvCart {
  import opened Basics
  import opened Text
  import opened Seqs

  /** A point-of-sale catalog product. Unit products carry `unitPrice`, weighable ones `pricePerGram`. */
  datatype PdvProduct = PdvProduct(
    id: string,
    code: string,
    name: string,
    category: string,
    isWeighable: bool,
    unitPrice: Option<real>,
    pricePerGram: Option<real>,
    barcode: Option<string>,
    isActive: bool)

  /** A cart line. `weight` is in kilograms; `discount` is an amount off this line. */
  datatype PdvLine = PdvLine(
    id: string,
    product: PdvProduct,
    quantity: int,
    weight: Option<real>,
    discount: real,
    subtotal: real)

  datatype DiscountKind = NoDiscount | Percentage | Amount
  datatype Discount = Discount(kind: DiscountKind, value: real)

  datatype PaymentMethod = Cash | Pix | CreditCard | DebitCard | Voucher | Mixed

  datatype PaymentInfo = PaymentInfo(
    paymentMethod: PaymentMethod,
    changeFor: Option<real>,
    customerName: Option<string>,
    customerPhone: Option<string>)

  datatype SplitInfo = SplitInfo(enabled: bool, parts: int, amounts: seq<real>)

  datatype CartState = CartState(items: seq<PdvLine>, discount: Discount, payment: PaymentInfo, split: SplitInfo)

  /** A number that JavaScript treats as true: present and non-zero. */
  predicate Truthy(x: Option<real>) { x.Some? && x.value != 0.0 }

  // ---- line subtotal ----

  /** The price before the line discount: by weight, by unit, or nothing when the needed price or weight is missing. */
  function BasePrice(p: PdvProduct, quantity: int, weight: Option<real>): real {
    if p.isWeighable && Truthy(weight) && Truthy(p.pricePerGram) then weight.value * 1000.0 * p.pricePerGram.value
    else if !p.isWeighable && Truthy(p.unitPrice) then quantity as real * p.unitPrice.value
    else 0.0
  }

  /** The line subtotal: the base price less the line discount, never below zero. */
  function ItemSubtotal(p: PdvProduct, quantity: int, weight: Option<real>, discount: real): (r: real)
    ensures r >= 0.0
    ensures r >= BasePrice(p, quantity, weight) - discount
    ensures r == 0.0 || r == BasePrice(p, quantity, weight) - discount
  {
    MaxReal(0.0, BasePrice(p, quantity, weight) - discount)
  }

  /** The subtotal is zero exactly when the discount covers the base price. */
  lemma SubtotalZeroIff(p: PdvProduct, quantity: int, weight: Option<real>, discount: real)
    ensures ItemSubtotal(p, quantity, weight, discount) == 0.0 <==> BasePrice(p, quantity, weight) <= discount
  {
  }

  /** A unit product's subtotal ignores the weight; a weighable product's ignores the quantity. */
  lemma SubtotalIndependence(p: PdvProduct, q1: int, q2: int, w1: Option<real>, w2: Option<real>, d: real)
    ensures !p.isWeighable ==> ItemSubtotal(p, q1, w1, d) == ItemSubtotal(p, q1, w2, d)
    ensures p.isWeighable ==> ItemSubtotal(p, q1, w1, d) == ItemSubtotal(p, q2, w1, d)
  {
  }

  /** A larger line discount never raises the subtotal. */
  lemma SubtotalAntitoneInDiscount(p: PdvProduct, q: int, w: Option<real>, d1: real, d2: real)
    requires d1 <= d2
    ensures ItemSubtotal(p, q, w, d2) <= ItemSubtotal(p, q, w, d1)
  {
  }

  /** The source's demonstration unit product: 3 at 15.90 with 1.00 off is 46.70; a weighable product with no weight is 0. */
  lemma SubtotalExamples(p: PdvProduct)
    ensures !p.isWeighable && p.unitPrice == Some(15.90) ==> ItemSubtotal(p, 3, None, 1.0) == 46.70
    ensures p.isWeighable ==> ItemSubtotal(p, 1, None, 0.0) == 0.0
  {
  }

  /** A line whose stored subtotal agrees with its product, quantity, weight and discount. */
  predicate Consistent(l: PdvLine) { l.subtotal == ItemSubtotal(l.product, l.quantity, l.weight, l.discount) }

  predicate AllConsistent(items: seq<PdvLine>) { forall i :: 0 <= i < |items| ==> Consistent(items[i]) }

  // ---- line operations ----

  /** The unique line id the source builds from the product id, the clock and a random number. */
  function NewLineId(productId: string, now: nat, random: string): (r: string)
    ensures |r| > |productId| && r[..|productId|] == productId && r[|productId|] == '-'
  {
    productId + "-" + NatToString(now) + "-" + random
  }

  /** Index of the line a unit product merges into; weighable products never merge. */
  function MergeTarget(items: seq<PdvLine>, p: PdvProduct): (r: Option<nat>)
    ensures r.Some? ==> !p.isWeighable && r.value < |items| && items[r.value].product.id == p.id
    ensures r.Some? ==> forall j :: 0 <= j < r.value ==> items[j].product.id != p.id
    ensures r.None? ==> p.isWeighable || forall j :: 0 <= j < |items| ==> items[j].product.id != p.id
  {
    if p.isWeighable then None else FirstIndex(items, (l: PdvLine) => l.product.id == p.id)
  }

  /**
   * `addItem`: a unit product already in the cart has `quantity` added to its
   * first line (weight kept, subtotal recomputed); otherwise a new line with
   * the id `NewLineId` builds from the clock reading `now` and the random
   * text `random`, no discount, and its own subtotal is appended.
   */
  function AddItem(items: seq<PdvLine>, p: PdvProduct, quantity: int, weight: Option<real>, now: nat, random: string): (r: seq<PdvLine>)
    ensures MergeTarget(items, p).Some? ==>
              var k := MergeTarget(items, p).value;
              && |r| == |items|
              && r[k] == items[k].(quantity := items[k].quantity + quantity,
                                   subtotal := ItemSubtotal(items[k].product, items[k].quantity + quantity, items[k].weight, items[k].discount))
              && r[k].weight == items[k].weight
              && forall j :: 0 <= j < |items| && j != k ==> r[j] == items[j]
    ensures MergeTarget(items, p).None? ==>
              r == items + [PdvLine(NewLineId(p.id, now, random), p, quantity, weight, 0.0, ItemSubtotal(p, quantity, weight, 0.0))]
  {
    match MergeTarget(items, p)
    case Some(k) =>
      var l := items[k];
      var q := l.quantity + quantity;
      items[k := l.(quantity := q, subtotal := ItemSubtotal(l.product, q, l.weight, l.discount))]
    case None =>
      items + [PdvLine(NewLineId(p.id, now, random), p, quantity, weight, 0.0, ItemSubtotal(p, quantity, weight, 0.0))]
  }

  /** The test `removeItem` keeps a line by: it belongs to another product. */
  function OtherProduct(pid: string): PdvLine -> bool { (l: PdvLine) => l.product.id != pid }

  /** `removeItem`: every line of product `pid` goes, the others stay in order, each copy kept. */
  function RemoveItem(items: seq<PdvLine>, pid: string): (r: seq<PdvLine>)
    ensures forall i :: 0 <= i < |r| ==> r[i].product.id != pid && r[i] in items
    ensures IsSubsequence(r, items)
    ensures |r| == CountIf(items, OtherProduct(pid))
    ensures forall l :: l in items && l.product.id != pid ==> l in r
    ensures (forall i :: 0 <= i < |items| ==> items[i].product.id != pid) ==> r == items
  {
    FilterKeepsAll(items, OtherProduct(pid));
    Filter(items, OtherProduct(pid))
  }

  /** Apply `f` to the lines of product `pid`, leaving every other line as it is. */
  function UpdateLines(items: seq<PdvLine>, pid: string, f: PdvLine -> PdvLine): (r: seq<PdvLine>)
    ensures |r| == |items|
    ensures forall i :: 0 <= i < |items| ==> r[i] == if items[i].product.id == pid then f(items[i]) else items[i]
  {
    if |items| == 0 then []
    else [if items[0].product.id == pid then f(items[0]) else items[0]] + UpdateLines(items[1..], pid, f)
  }

  /** The line with a new quantity and its subtotal recomputed; id, product, weight and discount are kept. */
  function WithQuantity(l: PdvLine, q: int): PdvLine {
    l.(quantity := q, subtotal := ItemSubtotal(l.product, q, l.weight, l.discount))
  }

  /** The line with a new weight and its subtotal recomputed; id, product, quantity and discount are kept. */
  function WithWeight(l: PdvLine, w: real): PdvLine {
    l.(weight := Some(w), subtotal := ItemSubtotal(l.product, l.quantity, Some(w), l.discount))
  }

  /** The line with a new discount and its subtotal recomputed; id, product, quantity and weight are kept. */
  function WithDiscount(l: PdvLine, d: real): PdvLine {
    l.(discount := d, subtotal := ItemSubtotal(l.product, l.quantity, l.weight, d))
  }

  /** `updateItemQuantity`: a quantity of zero or less removes the product's lines. */
  function UpdateItemQuantity(items: seq<PdvLine>, pid: string, q: int): (r: seq<PdvLine>)
    ensures q <= 0 ==> r == RemoveItem(items, pid)
    ensures q > 0 ==> |r| == |items|
    ensures q > 0 ==> forall i :: 0 <= i < |items| ==>
              if items[i].product.id == pid then r[i] == WithQuantity(items[i], q) && r[i].quantity == q && Consistent(r[i])
              else r[i] == items[i]
  {
    if q <= 0 then RemoveItem(items, pid) else UpdateLines(items, pid, (l: PdvLine) => WithQuantity(l, q))
  }

  /** `updateItemWeight`: the product's lines get the new weight and a recomputed subtotal. */
  function UpdateItemWeight(items: seq<PdvLine>, pid: string, w: real): (r: seq<PdvLine>)
    ensures |r| == |items|
    ensures forall i :: 0 <= i < |items| ==>
              if items[i].product.id == pid then r[i] == WithWeight(items[i], w) && r[i].weight == Some(w) && Consistent(r[i])
              else r[i] == items[i]
  {
    UpdateLines(items, pid, (l: PdvLine) => WithWeight(l, w))
  }

  /** `applyItemDiscount`: the product's lines get the new line discount and a recomputed subtotal. */
  function ApplyItemDiscount(items: seq<PdvLine>, pid: string, d: real): (r: seq<PdvLine>)
    ensures |r| == |items|
    ensures forall i :: 0 <= i < |items| ==>
              if items[i].product.id == pid then r[i] == WithDiscount(items[i], d) && r[i].discount == d && Consistent(r[i])
              else r[i] == items[i]
  {
    UpdateLines(items, pid, (l: PdvLine) => WithDiscount(l, d))
  }

  // ---- totals ----

  function LineSubtotal(l: PdvLine): real { l.subtotal }
  function LineQuantity(l: PdvLine): int { l.quantity }

  /** `getSubtotal`: the sum of the line subtotals. */
  function Subtotal(items: seq<PdvLine>): real { Sum(items, LineSubtotal) }

  /** `getDiscountAmount`. */
  function DiscountAmount(sub: real, d: Discount): (r: real)
    ensures d.kind == Percentage ==> r == sub * d.value / 100.0
    ensures d.kind == Amount ==> r <= d.value && r <= sub && (r == d.value || r == sub)
    ensures d.kind == NoDiscount ==> r == 0.0
  {
    match d.kind
    case Percentage => sub * (d.value / 100.0)
    case Amount => MinReal(d.value, sub)
    case NoDiscount => 0.0
  }

  /** `getTotal`: the subtotal less the discount, never below zero. */
  function Total(items: seq<PdvLine>, d: Discount): (r: real)
    ensures r >= 0.0
    ensures r >= Subtotal(items) - DiscountAmount(Subtotal(items), d)
    ensures r == 0.0 || r == Subtotal(items) - DiscountAmount(Subtotal(items), d)
  {
    MaxReal(0.0, Subtotal(items) - DiscountAmount(Subtotal(items), d))
  }

  /** `itemCount`: the number of lines. */
  function ItemCount(items: seq<PdvLine>): nat { |items| }

  /** `totalItems`: the sum of line quantities. */
  function TotalItems(items: seq<PdvLine>): int { SumInt(items, LineQuantity) }

  // ---- payment, split and clearing ----

  /** A `Partial` payment update; `None` leaves a field as it is, and `Some(None)` clears an optional one. */
  datatype PaymentPatch = PaymentPatch(
    paymentMethod: Option<PaymentMethod>,
    changeFor: Option<Option<real>>,
    customerName: Option<Option<string>>,
    customerPhone: Option<Option<string>>)

  datatype SplitPatch = SplitPatch(enabled: Option<bool>, parts: Option<int>, amounts: Option<seq<real>>)

  /** `updatePaymentInfo`: the fields the patch carries replace the old ones. */
  function UpdatePaymentInfo(p: PaymentInfo, patch: PaymentPatch): (r: PaymentInfo)
    ensures r.paymentMethod == patch.paymentMethod.GetOr(p.paymentMethod)
    ensures r.changeFor == patch.changeFor.GetOr(p.changeFor)
    ensures r.customerName == patch.customerName.GetOr(p.customerName)
    ensures r.customerPhone == patch.customerPhone.GetOr(p.customerPhone)
  {
    PaymentInfo(
      if patch.paymentMethod.Some? then patch.paymentMethod.value else p.paymentMethod,
      if patch.changeFor.Some? then patch.changeFor.value else p.changeFor,
      if patch.customerName.Some? then patch.customerName.value else p.customerName,
      if patch.customerPhone.Some? then patch.customerPhone.value else p.customerPhone)
  }

  /** `updateSplitInfo`: the fields the patch carries replace the old ones. */
  function UpdateSplitInfo(s: SplitInfo, patch: SplitPatch): (r: SplitInfo)
    ensures r.enabled == patch.enabled.GetOr(s.enabled)
    ensures r.parts == patch.parts.GetOr(s.parts)
    ensures r.amounts == patch.amounts.GetOr(s.amounts)
  {
    SplitInfo(
      if patch.enabled.Some? then patch.enabled.value else s.enabled,
      if patch.parts.Some? then patch.parts.value else s.parts,
      if patch.amounts.Some? then patch.amounts.value else s.amounts)
  }

  const InitialPayment := PaymentInfo(Cash, None, None, None)
  const InitialSplit := SplitInfo(false, 2, [])

  /** The cart as the hook first creates it. */
  const EmptyCart := CartState([], Discount(NoDiscount, 0.0), InitialPayment, InitialSplit)

  /** `clearCart`: no lines, no discount, cash payment, splitting off in 2 parts. */
  function ClearCart(c: CartState): (r: CartState)
    ensures r.items == [] && r.discount == Discount(NoDiscount, 0.0)
    ensures r.payment.paymentMethod == Cash && r.payment.changeFor.None? && r.payment.customerName.None? && r.payment.customerPhone.None?
    ensures !r.split.enabled && r.split.parts == 2 && r.split.amounts == []
  {
    EmptyCart
  }

  // ---- product search ----

  /** The search term occurs in the lowercased name, code, barcode (when present) or category. */
  predicate Matches(p: PdvProduct, term: string) {
    || Contains(Lower(p.name), term)
    || Contains(Lower(p.code), term)
    || (p.barcode.Some? && Contains(Lower(p.barcode.value), term))
    || Contains(Lower(p.category), term)
  }

  function MatchesTerm(term: string): PdvProduct -> bool { (p: PdvProduct) => Matches(p, term) }

  /**
   * `searchProducts`: a query that is blank once trimmed returns the whole
   * list; otherwise the products matching the lowercased (untrimmed) query,
   * in catalog order.
   */
  function SearchProducts(products: seq<PdvProduct>, query: string): (r: seq<PdvProduct>)
    ensures IsBlank(query) ==> r == products
    ensures IsSubsequence(r, products)
    ensures !IsBlank(query) ==> |r| == CountIf(products, MatchesTerm(Lower(query)))
    ensures !IsBlank(query) ==> forall i :: 0 <= i < |r| ==> Matches(r[i], Lower(query))
    ensures !IsBlank(query) ==> forall p :: p in products && Matches(p, Lower(query)) ==> p in r
  {
    if IsBlank(query) then
      SubsequenceRefl(products);
      products
    else
      Filter(products, MatchesTerm(Lower(query)))
  }

  // ---- proofs ----

  lemma {:induction false} SubsequenceRefl<T>(s: seq<T>)
    ensures IsSubsequence(s, s)
    decreases |s|
  {
    if |s| > 0 {
      SubsequenceRefl(s[1..]);
    }
  }

  /** Every line operation keeps the stored subtotals consistent. */
  lemma OperationsKeepConsistent(items: seq<PdvLine>, p: PdvProduct, pid: string, q: int, w: Option<real>, wt: real, d: real, now: nat, random: string)
    requires AllConsistent(items)
    ensures AllConsistent(AddItem(items, p, q, w, now, random))
    ensures AllConsistent(RemoveItem(items, pid))
    ensures AllConsistent(UpdateItemQuantity(items, pid, q))
    ensures AllConsistent(UpdateItemWeight(items, pid, wt))
    ensures AllConsistent(ApplyItemDiscount(items, pid, d))
  {
    AddItemConsistent(items, p, q, w, now, random);
    RemoveConsistent(items, pid);
  }

  lemma AddItemConsistent(items: seq<PdvLine>, p: PdvProduct, q: int, w: Option<real>, now: nat, random: string)
    requires AllConsistent(items)
    ensures AllConsistent(AddItem(items, p, q, w, now, random))
  {
  }

  lemma RemoveConsistent(items: seq<PdvLine>, pid: string)
    requires AllConsistent(items)
    ensures AllConsistent(RemoveItem(items, pid))
  {
    var r := RemoveItem(items, pid);
    forall i | 0 <= i < |r|
      ensures Consistent(r[i])
    {
      var k :| 0 <= k < |items| && items[k] == r[i];
    }
  }

  /** With consistent lines the cart subtotal, like every line's, is never negative. */
  lemma SubtotalNonNegative(items: seq<PdvLine>)
    requires AllConsistent(items)
    ensures Subtotal(items) >= 0.0
  {
    SumNonNegative(items, LineSubtotal);
  }

  /** Adding `q` of a product raises the total item count by exactly `q`, and the line count by at most one. */
  lemma {:induction false} AddItemCounts(items: seq<PdvLine>, p: PdvProduct, q: int, w: Option<real>, now: nat, random: string)
    ensures TotalItems(AddItem(items, p, q, w, now, random)) == TotalItems(items) + q
    ensures ItemCount(AddItem(items, p, q, w, now, random)) == ItemCount(items) + (if MergeTarget(items, p).Some? then 0 else 1)
  {
    var r := AddItem(items, p, q, w, now, random);
    match MergeTarget(items, p)
    case Some(k) =>
      SumIntAt(items, k, items[k].quantity + q);
      assert r == items[k := items[k].(quantity := items[k].quantity + q,
                                          subtotal := ItemSubtotal(items[k].product, items[k].quantity + q, items[k].weight, items[k].discount))];
    case None =>
      SumIntAppend(items, [r[|items|]], LineQuantity);
      assert [r[|items|]][1..] == [];
  }

  /** Replacing line `k` by one with quantity `v` changes the quantity sum by `v - old`. */
  lemma {:induction false} SumIntAt(items: seq<PdvLine>, k: nat, v: int)
    requires k < |items|
    ensures forall l: PdvLine :: l.quantity == v ==> TotalItems(items[k := l]) == TotalItems(items) - items[k].quantity + v
    decreases |items|
  {
    forall l: PdvLine | l.quantity == v
      ensures TotalItems(items[k := l]) == TotalItems(items) - items[k].quantity + v
    {
      var t := items[k := l];
      if k == 0 {
        assert t[1..] == items[1..];
      } else {
        SumIntAt(items[1..], k - 1, v);
        assert t[1..] == items[1..][k - 1 := l];
      }
    }
  }

  /** `removeItem` is idempotent. */
  lemma RemoveIdempotent(items: seq<PdvLine>, pid: string)
    ensures RemoveItem(RemoveItem(items, pid), pid) == RemoveItem(items, pid)
  {
  }

  /** The quantity update touches only the product's lines: removing that product afterwards gives the same cart as removing it before. */
  lemma {:induction false} UpdateThenRemove(items: seq<PdvLine>, pid: string, q: int)
    ensures RemoveItem(UpdateItemQuantity(items, pid, q), pid) == RemoveItem(items, pid)
    decreases |items|
  {
    if q <= 0 {
      RemoveIdempotent(items, pid);
    } else if |items| > 0 {
      var u := UpdateItemQuantity(items, pid, q);
      UpdateThenRemove(items[1..], pid, q);
      assert u[1..] == UpdateItemQuantity(items[1..], pid, q);
      assert u[0].product == items[0].product;
    }
  }

  /** Updating to the same quantity twice is the same as updating once. */
  lemma UpdateQuantityIdempotent(items: seq<PdvLine>, pid: string, q: int)
    ensures UpdateItemQuantity(UpdateItemQuantity(items, pid, q), pid, q) == UpdateItemQuantity(items, pid, q)
  {
    if q <= 0 {
      RemoveIdempotent(items, pid);
    } else {
      var u := UpdateItemQuantity(items, pid, q);
      var v := UpdateItemQuantity(u, pid, q);
      assert forall i :: 0 <= i < |u| ==> v[i] == u[i];
    }
  }

  /** With a percentage in [0, 100] or a non-negative fixed amount, the discount lies in [0, subtotal] and the total is exactly subtotal − discount. */
  lemma DiscountWithinSubtotal(sub: real, d: Discount)
    requires sub >= 0.0
    requires d.kind == Percentage ==> 0.0 <= d.value <= 100.0
    requires d.kind == Amount ==> d.value >= 0.0
    ensures 0.0 <= DiscountAmount(sub, d) <= sub
    ensures MaxReal(0.0, sub - DiscountAmount(sub, d)) == sub - DiscountAmount(sub, d)
  {
    if d.kind == Percentage {
      PercentDiscountWithin(sub, d);
    }
  }

  lemma PercentDiscountWithin(sub: real, d: Discount)
    requires sub >= 0.0 && d.kind == Percentage && 0.0 <= d.value <= 100.0
    ensures 0.0 <= DiscountAmount(sub, d) <= sub
  {
    var v := d.value;
    var x := sub * v / 100.0;
    PercentOfWithin(sub, v);
    assert DiscountAmount(sub, d) == x;
  }

  /** `v` percent of a non-negative amount, for `v` in [0, 100], lies between zero and the amount. */
  lemma PercentOfWithin(a: real, v: real)
    requires a >= 0.0 && 0.0 <= v <= 100.0
    ensures 0.0 <= a * v / 100.0 <= a
  {
    var x := a * v;
    assert 0.0 <= x by { MulNonNegative(a, v); }
    assert x <= a * 100.0 by {
      MulNonNegative(a, 100.0 - v);
      assert a * (100.0 - v) == a * 100.0 - x;
    }
  }

  lemma MulNonNegative(a: real, b: real)
    requires a >= 0.0 && b >= 0.0
    ensures a * b >= 0.0
  {
  }

  /** A fixed-amount discount gives the subtotal less the amount, or zero once the amount exceeds it. */
  lemma AmountDiscountTotal(items: seq<PdvLine>, v: real)
    ensures Total(items, Discount(Amount, v)) == MaxReal(0.0, Subtotal(items) - v)
  {
  }

  /** Clearing gives the freshly created cart, and clearing twice equals clearing once. */
  lemma ClearCartIsInitial(c: CartState)
    ensures ClearCart(c) == EmptyCart
    ensures ClearCart(ClearCart(c)) == ClearCart(c)
    ensures Total(ClearCart(c).items, ClearCart(c).discount) == 0.0
  {
  }

  /** An empty patch changes nothing, and applying a patch twice equals applying it once. */
  lemma PatchLaws(p: PaymentInfo, pp: PaymentPatch, s: SplitInfo, sp: SplitPatch)
    ensures UpdatePaymentInfo(p, PaymentPatch(None, None, None, None)) == p
    ensures UpdatePaymentInfo(UpdatePaymentInfo(p, pp), pp) == UpdatePaymentInfo(p, pp)
    ensures UpdateSplitInfo(s, SplitPatch(None, None, None)) == s
    ensures UpdateSplitInfo(UpdateSplitInfo(s, sp), sp) == UpdateSplitInfo(s, sp)
  {
  }

  /** Searching is idempotent: searching the results again with the same query gives the same results. */
  lemma SearchIdempotent(products: seq<PdvProduct>, query: string)
    ensures SearchProducts(SearchProducts(products, query), query) == SearchProducts(products, query)
  {
    if !IsBlank(query) {
      FilterIdempotent(products, (p: PdvProduct) => Matches(p, Lower(query)));
    }
  }
}
