/**
 * The smart upsell suggestion engine of the delivery storefront: an ordered
 * list of rules maps the cart, the catalog and the fixed table of paid
 * complements to at most two suggestions.
 */
module Upsell {
  import opened Basics
  import opened Text
  import opened Seqs
  import opened Delivery

  /** The persuasion angle of a suggestion, which picks its icon and colours. */
  datatype Trigger = SocialProof | Urgency | Affinity | Value

  /** An entry of the paid-complement price table. */
  datatype PaidComplement = PaidComplement(name: string, price: real)

  /** What a suggestion offers: a catalog product, or a paid complement shown as a virtual product. */
  datatype Offer = FromCatalog(product: Product) | ComplementOffer(complement: PaidComplement)

  /** The four complement pitches, in the order the engine tries them. */
  datatype Pitch = PacocaPitch | CondensedMilkPitch | StrawberryPitch | GranolaPitch

  /**
   * The message of a suggestion, with the values it interpolates. The text
   * itself and the currency formatting of the amounts are presentation.
   */
  datatype Message =
    | PromoMessage
    | UpgradeMessage(priceIncrease: real)
    | ComboMessage
    | BeverageMessage(productName: string)
    | MilkshakeMessage
    | ComplementMessage(pitch: Pitch, price: real)
    | LowValueMessage(productName: string)
    | PremiumMessage

  datatype Suggestion = Suggestion(
    offer: Offer,
    message: Message,
    trigger: Trigger,
    confidence: real,
    priceIncrease: Option<real>)

  /** The fixed paid-complement table, with prices in reais. */
  const PaidComplements: seq<PaidComplement> := [
    PaidComplement("AMENDOIN", 2.00),
    PaidComplement("CASTANHA EM BANDA", 3.00),
    PaidComplement("CEREJA", 2.00),
    PaidComplement("CHOCOBALL POWER", 2.00),
    PaidComplement("CREME DE COOKIES", 3.00),
    PaidComplement("CHOCOLATE COM AVELÃ (NUTELA)", 3.00),
    PaidComplement("COBERTURA DE CHOCOLATE", 2.00),
    PaidComplement("GRANOLA", 2.00),
    PaidComplement("KIWI", 3.00),
    PaidComplement("LEITE CONDENSADO", 2.00),
    PaidComplement("MORANGO", 3.00),
    PaidComplement("PAÇOCA", 2.00)
  ]

  const VirtualProductImage: string :=
    "https://images.pexels.com/photos/1092730/pexels-photo-1092730.jpeg?auto=compress&cs=tinysrgb&w=400"

  const CartValueFloor: real := 25.0
  const CartValueCeiling: real := 40.0
  const SuggestionCap: nat := 2

  // ---- what the rules read from the cart ----

  predicate IsAcai(p: Product) { p.category == "acai" }

  /** A 300g açaí: the starter size the promotion pushes and the upgrade starts from. */
  predicate IsAcai300g(p: Product) { Contains(p.name, "300g") && IsAcai(p) }

  predicate IsAcai500g(p: Product) { Contains(p.name, "500g") && IsAcai(p) }

  function CartProductIds(cart: seq<CartItem>): set<string> {
    set i | 0 <= i < |cart| :: cart[i].product.id
  }

  predicate HasCategory(cart: seq<CartItem>, category: string) {
    exists i :: 0 <= i < |cart| && cart[i].product.category == category
  }

  predicate HasAcai300g(cart: seq<CartItem>) {
    exists i :: 0 <= i < |cart| && IsAcai300g(cart[i].product)
  }

  predicate Is300gLine(it: CartItem) { IsAcai300g(it.product) }

  function CartTotal(cart: seq<CartItem>): real {
    Sum(cart, (it: CartItem) => it.totalPrice)
  }

  /** The names of every complement on every line, lowercased and trimmed. */
  function AddedComplements(cart: seq<CartItem>): set<string> {
    set i, j | 0 <= i < |cart| && 0 <= j < |cart[i].selectedComplements|
      :: Trim(Lower(cart[i].selectedComplements[j].name))
  }

  /** The id of the virtual product for a paid complement: `complement-` and the lowercased name with whitespace runs as `-`. */
  function ComplementProductId(name: string): string {
    "complement-" + CollapseSpaces(Lower(name), '-')
  }

  /** The product a suggestion shows; a paid complement becomes a virtual product in category `complementos`. */
  function OfferProduct(o: Offer): Product {
    match o
    case FromCatalog(p) => p
    case ComplementOffer(c) =>
      Product(ComplementProductId(c.name), c.name, "complementos", c.price, None,
              Some("Adicional: " + c.name), VirtualProductImage, true)
  }

  // ---- the rules, in priority order ----

  function Offered(found: Option<Product>, message: Product -> Message, trigger: Trigger, confidence: real): seq<Suggestion> {
    match found
    case None => []
    case Some(p) => [Suggestion(FromCatalog(p), message(p), trigger, confidence, None)]
  }

  /** Promote a 300g açaí when the cart has none. */
  function PromoRule(cart: seq<CartItem>, catalog: seq<Product>): seq<Suggestion> {
    if HasAcai300g(cart) then []
    else
      var ids := CartProductIds(cart);
      Offered(Find(catalog, (p: Product) => IsAcai300g(p) && p.id !in ids), _ => PromoMessage, SocialProof, 0.95)
  }

  /** Offer the 500g açaí to a cart holding a 300g one, priced against the first such line. */
  function UpgradeRule(cart: seq<CartItem>, catalog: seq<Product>): seq<Suggestion> {
    var small := Filter(cart, Is300gLine);
    if |small| == 0 then []
    else
      var ids := CartProductIds(cart);
      match Find(catalog, (p: Product) => IsAcai500g(p) && p.id !in ids)
      case None => []
      case Some(up) =>
        var increase := up.price - small[0].product.price;
        [Suggestion(FromCatalog(up), UpgradeMessage(increase), SocialProof, 0.9, Some(increase))]
  }

  /** Offer a combo to a single-line cart that has no combo. */
  function ComboRule(cart: seq<CartItem>, catalog: seq<Product>): seq<Suggestion> {
    if |cart| == 1 && !HasCategory(cart, "combo") then
      var ids := CartProductIds(cart);
      Offered(Find(catalog, (p: Product) => p.category == "combo" && p.id !in ids), _ => ComboMessage, Value, 0.8)
    else []
  }

  /** Offer a product of `category` to a cart with açaí and nothing of that category. */
  function PairingRule(cart: seq<CartItem>, catalog: seq<Product>, category: string,
                       message: Product -> Message, trigger: Trigger, confidence: real): seq<Suggestion> {
    if HasCategory(cart, "acai") && !HasCategory(cart, category) then
      var ids := CartProductIds(cart);
      Offered(Find(catalog, (p: Product) => p.category == category && p.id !in ids), message, trigger, confidence)
    else []
  }

  function BeverageRule(cart: seq<CartItem>, catalog: seq<Product>): seq<Suggestion> {
    PairingRule(cart, catalog, "bebidas", (p: Product) => BeverageMessage(p.name), SocialProof, 0.7)
  }

  function MilkshakeRule(cart: seq<CartItem>, catalog: seq<Product>): seq<Suggestion> {
    PairingRule(cart, catalog, "milkshake", _ => MilkshakeMessage, Affinity, 0.75)
  }

  /** The table entry each pitch advertises, if the table has one. */
  function PitchComplement(table: seq<PaidComplement>, pitch: Pitch): Option<PaidComplement> {
    match pitch
    case PacocaPitch => Find(table, (c: PaidComplement) => Contains(c.name, "PAÇOCA"))
    case CondensedMilkPitch => Find(table, (c: PaidComplement) => Contains(c.name, "LEITE CONDENSADO"))
    case StrawberryPitch =>
      Find(table, (c: PaidComplement) => Contains(c.name, "MORANGO") && !Contains(c.name, "COBERTURA"))
    case GranolaPitch => Find(table, (c: PaidComplement) => Contains(c.name, "GRANOLA"))
  }

  function PitchTrigger(pitch: Pitch): Trigger {
    match pitch
    case PacocaPitch => Affinity
    case CondensedMilkPitch => SocialProof
    case StrawberryPitch => SocialProof
    case GranolaPitch => Urgency
  }

  /** Every pitch whose complement exists and is not already on the cart, in pitch order. */
  function PitchSuggestions(pitches: seq<Pitch>, table: seq<PaidComplement>, added: set<string>): seq<Suggestion> {
    if |pitches| == 0 then []
    else
      var rest := PitchSuggestions(pitches[1..], table, added);
      match PitchComplement(table, pitches[0])
      case Some(c) =>
        if Lower(c.name) !in added then
          [Suggestion(ComplementOffer(c), ComplementMessage(pitches[0], c.price), PitchTrigger(pitches[0]), 0.85, None)] + rest
        else rest
      case None => rest
  }

  function ComplementRule(cart: seq<CartItem>, table: seq<PaidComplement>): seq<Suggestion> {
    if HasCategory(cart, "acai") then
      PitchSuggestions([PacocaPitch, CondensedMilkPitch, StrawberryPitch, GranolaPitch], table, AddedComplements(cart))
    else []
  }

  /** A low-value cart is offered an açaí worth more than half of its total. */
  function LowValueRule(cart: seq<CartItem>, catalog: seq<Product>): seq<Suggestion> {
    var total := CartTotal(cart);
    if total < CartValueFloor then
      var ids := CartProductIds(cart);
      Offered(Find(catalog, (p: Product) => p.price > total * 0.5 && p.id !in ids && IsAcai(p)),
              (p: Product) => LowValueMessage(p.name), Urgency, 0.6)
    else []
  }

  /** `p.originalPrice && p.originalPrice > p.price`: a non-zero original price above the current one. */
  predicate IsDiscounted(p: Product) {
    p.originalPrice.Some? && p.originalPrice.value != 0.0 && p.originalPrice.value > p.price
  }

  /** A high-value cart is offered the first discounted product it does not hold. */
  function PremiumRule(cart: seq<CartItem>, catalog: seq<Product>): seq<Suggestion> {
    if CartTotal(cart) > CartValueCeiling then
      var ids := CartProductIds(cart);
      Offered(Find(catalog, (p: Product) => IsDiscounted(p) && p.id !in ids), _ => PremiumMessage, Affinity, 0.85)
    else []
  }

  /** Every rule's suggestions, in rule order, before the cap. */
  function AllSuggestions(cart: seq<CartItem>, catalog: seq<Product>, table: seq<PaidComplement>): seq<Suggestion> {
    if |cart| == 0 then []
    else
      PromoRule(cart, catalog) + UpgradeRule(cart, catalog) + ComboRule(cart, catalog)
      + BeverageRule(cart, catalog) + MilkshakeRule(cart, catalog) + ComplementRule(cart, table)
      + LowValueRule(cart, catalog) + PremiumRule(cart, catalog)
  }

  /** A suggestion the engine may make for this cart: never a catalog product already in it, never a complement already on it. */
  predicate Admissible(s: Suggestion, cart: seq<CartItem>, catalog: seq<Product>, table: seq<PaidComplement>) {
    match s.offer
    case FromCatalog(p) => p in catalog && p.id !in CartProductIds(cart)
    case ComplementOffer(c) => c in table && Lower(c.name) !in AddedComplements(cart) && HasCategory(cart, "acai")
  }

  predicate AllAdmissibleIn(ss: seq<Suggestion>, cart: seq<CartItem>, catalog: seq<Product>, table: seq<PaidComplement>) {
    forall i :: 0 <= i < |ss| ==> Admissible(ss[i], cart, catalog, table)
  }

  /**
   * `generateUpsellSuggestions`: the first two suggestions of the rule list.
   */
  function GenerateSuggestions(cart: seq<CartItem>, catalog: seq<Product>, table: seq<PaidComplement>): (r: seq<Suggestion>)
    ensures |r| <= SuggestionCap && |r| <= |AllSuggestions(cart, catalog, table)|
    ensures |cart| == 0 ==> r == []
    ensures forall i :: 0 <= i < |r| ==> Admissible(r[i], cart, catalog, table)
    ensures r == AllSuggestions(cart, catalog, table)[..|r|]
    ensures |r| < SuggestionCap ==> r == AllSuggestions(cart, catalog, table)
  {
    var all := AllSuggestions(cart, catalog, table);
    AllAdmissible(cart, catalog, table);
    all[..Min(SuggestionCap, |all|)]
  }

  // ---- proofs ----

  lemma AdmissibleConcat(a: seq<Suggestion>, b: seq<Suggestion>, cart: seq<CartItem>, catalog: seq<Product>, table: seq<PaidComplement>)
    requires AllAdmissibleIn(a, cart, catalog, table) && AllAdmissibleIn(b, cart, catalog, table)
    ensures AllAdmissibleIn(a + b, cart, catalog, table)
  {
    forall i | 0 <= i < |a + b|
      ensures Admissible((a + b)[i], cart, catalog, table)
    {
      if i >= |a| {
        assert (a + b)[i] == b[i - |a|];
      }
    }
  }

  lemma OfferedAdmissible(found: Option<Product>, message: Product -> Message, trigger: Trigger, confidence: real,
                          cart: seq<CartItem>, catalog: seq<Product>, table: seq<PaidComplement>)
    requires found.Some? ==> found.value in catalog && found.value.id !in CartProductIds(cart)
    ensures AllAdmissibleIn(Offered(found, message, trigger, confidence), cart, catalog, table)
  {
  }

  lemma {:induction false} PitchSuggestionsAdmissible(pitches: seq<Pitch>, cart: seq<CartItem>, catalog: seq<Product>, table: seq<PaidComplement>)
    requires HasCategory(cart, "acai")
    ensures AllAdmissibleIn(PitchSuggestions(pitches, table, AddedComplements(cart)), cart, catalog, table)
    decreases |pitches|
  {
    if |pitches| > 0 {
      PitchSuggestionsAdmissible(pitches[1..], cart, catalog, table);
      var rest := PitchSuggestions(pitches[1..], table, AddedComplements(cart));
      match PitchComplement(table, pitches[0])
      case Some(c) =>
        if Lower(c.name) !in AddedComplements(cart) {
          var head := [Suggestion(ComplementOffer(c), ComplementMessage(pitches[0], c.price), PitchTrigger(pitches[0]), 0.85, None)];
          AdmissibleConcat(head, rest, cart, catalog, table);
        }
      case None =>
    }
  }

  lemma PromoAdmissible(cart: seq<CartItem>, catalog: seq<Product>, table: seq<PaidComplement>)
    ensures AllAdmissibleIn(PromoRule(cart, catalog), cart, catalog, table)
  {
    var ids := CartProductIds(cart);
    OfferedAdmissible(Find(catalog, (p: Product) => IsAcai300g(p) && p.id !in ids), _ => PromoMessage, SocialProof, 0.95, cart, catalog, table);
  }

  lemma UpgradeAdmissible(cart: seq<CartItem>, catalog: seq<Product>, table: seq<PaidComplement>)
    ensures AllAdmissibleIn(UpgradeRule(cart, catalog), cart, catalog, table)
  {
  }

  lemma ComboAdmissible(cart: seq<CartItem>, catalog: seq<Product>, table: seq<PaidComplement>)
    ensures AllAdmissibleIn(ComboRule(cart, catalog), cart, catalog, table)
  {
    var ids := CartProductIds(cart);
    OfferedAdmissible(Find(catalog, (p: Product) => p.category == "combo" && p.id !in ids), _ => ComboMessage, Value, 0.8, cart, catalog, table);
  }

  lemma PairingAdmissible(cart: seq<CartItem>, catalog: seq<Product>, table: seq<PaidComplement>, category: string,
                          message: Product -> Message, trigger: Trigger, confidence: real)
    ensures AllAdmissibleIn(PairingRule(cart, catalog, category, message, trigger, confidence), cart, catalog, table)
  {
    var ids := CartProductIds(cart);
    OfferedAdmissible(Find(catalog, (p: Product) => p.category == category && p.id !in ids), message, trigger, confidence, cart, catalog, table);
  }

  lemma ComplementAdmissible(cart: seq<CartItem>, catalog: seq<Product>, table: seq<PaidComplement>)
    ensures AllAdmissibleIn(ComplementRule(cart, table), cart, catalog, table)
  {
    if HasCategory(cart, "acai") {
      PitchSuggestionsAdmissible([PacocaPitch, CondensedMilkPitch, StrawberryPitch, GranolaPitch], cart, catalog, table);
    }
  }

  lemma LowValueAdmissible(cart: seq<CartItem>, catalog: seq<Product>, table: seq<PaidComplement>)
    ensures AllAdmissibleIn(LowValueRule(cart, catalog), cart, catalog, table)
  {
    var ids := CartProductIds(cart);
    var total := CartTotal(cart);
    OfferedAdmissible(Find(catalog, (p: Product) => p.price > total * 0.5 && p.id !in ids && IsAcai(p)), (p: Product) => LowValueMessage(p.name), Urgency, 0.6, cart, catalog, table);
  }

  lemma PremiumAdmissible(cart: seq<CartItem>, catalog: seq<Product>, table: seq<PaidComplement>)
    ensures AllAdmissibleIn(PremiumRule(cart, catalog), cart, catalog, table)
  {
    var ids := CartProductIds(cart);
    OfferedAdmissible(Find(catalog, (p: Product) => IsDiscounted(p) && p.id !in ids), _ => PremiumMessage, Affinity, 0.85, cart, catalog, table);
  }

  lemma AllAdmissible(cart: seq<CartItem>, catalog: seq<Product>, table: seq<PaidComplement>)
    ensures AllAdmissibleIn(AllSuggestions(cart, catalog, table), cart, catalog, table)
  {
    if |cart| > 0 {
      PromoAdmissible(cart, catalog, table);
      UpgradeAdmissible(cart, catalog, table);
      ComboAdmissible(cart, catalog, table);
      PairingAdmissible(cart, catalog, table, "bebidas", (p: Product) => BeverageMessage(p.name), SocialProof, 0.7);
      PairingAdmissible(cart, catalog, table, "milkshake", _ => MilkshakeMessage, Affinity, 0.75);
      ComplementAdmissible(cart, catalog, table);
      LowValueAdmissible(cart, catalog, table);
      PremiumAdmissible(cart, catalog, table);
      var a := PromoRule(cart, catalog) + UpgradeRule(cart, catalog);
      AdmissibleConcat(PromoRule(cart, catalog), UpgradeRule(cart, catalog), cart, catalog, table);
      var b := a + ComboRule(cart, catalog);
      AdmissibleConcat(a, ComboRule(cart, catalog), cart, catalog, table);
      var c := b + BeverageRule(cart, catalog);
      AdmissibleConcat(b, BeverageRule(cart, catalog), cart, catalog, table);
      var d := c + MilkshakeRule(cart, catalog);
      AdmissibleConcat(c, MilkshakeRule(cart, catalog), cart, catalog, table);
      var e := d + ComplementRule(cart, table);
      AdmissibleConcat(d, ComplementRule(cart, table), cart, catalog, table);
      var f := e + LowValueRule(cart, catalog);
      AdmissibleConcat(e, LowValueRule(cart, catalog), cart, catalog, table);
      AdmissibleConcat(f, PremiumRule(cart, catalog), cart, catalog, table);
    }
  }

  /** The 300g promotion needs a cart without a 300g açaí and the upgrade needs one, so at most one of them fires. */
  lemma PromoUpgradeExclusive(cart: seq<CartItem>, catalog: seq<Product>)
    ensures |PromoRule(cart, catalog)| > 0 ==> !HasAcai300g(cart) && |UpgradeRule(cart, catalog)| == 0
    ensures |UpgradeRule(cart, catalog)| > 0 ==> HasAcai300g(cart) && |PromoRule(cart, catalog)| == 0
  {
    var small := Filter(cart, Is300gLine);
    if |small| > 0 {
      var k :| 0 <= k < |cart| && cart[k] == small[0];
      assert IsAcai300g(cart[k].product);
    }
    if !HasAcai300g(cart) {
      forall i | 0 <= i < |cart| ensures !Is300gLine(cart[i]) { }
      CountIfBound(cart, (it: CartItem) => !Is300gLine(it));
      CountComplement(cart, Is300gLine);
    }
  }

  lemma {:induction false} CountComplement<T>(s: seq<T>, f: T -> bool)
    ensures CountIf(s, f) + CountIf(s, (x: T) => !f(x)) == |s|
    decreases |s|
  {
    if |s| > 0 {
      CountComplement(s[1..], f);
    }
  }

  /**
   * The upgrade is priced against the first 300g açaí line of the cart: its
   * price increase is the 500g product's price minus that line's product price.
   */
  lemma UpgradePriceIncrease(cart: seq<CartItem>, catalog: seq<Product>)
    requires |UpgradeRule(cart, catalog)| > 0
    ensures var s := UpgradeRule(cart, catalog)[0];
            var first := FirstIndex(cart, Is300gLine);
            && |UpgradeRule(cart, catalog)| == 1
            && first.Some?
            && s.offer.FromCatalog? && IsAcai500g(s.offer.product)
            && s.priceIncrease == Some(s.offer.product.price - cart[first.value].product.price)
            && s.trigger == SocialProof && s.confidence == 0.9
  {
    FilterHeadIsFirst(cart, Is300gLine);
  }

  lemma {:induction false} FilterHeadIsFirst<T>(s: seq<T>, f: T -> bool)
    requires |Filter(s, f)| > 0
    ensures FirstIndex(s, f).Some? && Filter(s, f)[0] == s[FirstIndex(s, f).value]
    decreases |s|
  {
    if !f(s[0]) {
      FilterHeadIsFirst(s[1..], f);
    }
  }

  /** The low-value rule needs a total under 25 and the premium rule one over 40: they never both fire. */
  lemma LowValuePremiumExclusive(cart: seq<CartItem>, catalog: seq<Product>)
    ensures |LowValueRule(cart, catalog)| > 0 ==> CartTotal(cart) < CartValueFloor && |PremiumRule(cart, catalog)| == 0
    ensures |PremiumRule(cart, catalog)| > 0 ==> CartTotal(cart) > CartValueCeiling && |LowValueRule(cart, catalog)| == 0
  {
  }

  /** What the low-value rule offers: an açaí worth more than half of the cart total, with the urgency trigger. */
  lemma LowValueOffer(cart: seq<CartItem>, catalog: seq<Product>)
    requires |LowValueRule(cart, catalog)| > 0
    ensures var s := LowValueRule(cart, catalog)[0];
            && s.offer.FromCatalog? && IsAcai(s.offer.product)
            && s.offer.product.price > CartTotal(cart) * 0.5
            && s.trigger == Urgency && s.confidence == 0.6
  {
  }

  /** What the premium rule offers: a product whose original price is above its price. */
  lemma PremiumOffer(cart: seq<CartItem>, catalog: seq<Product>)
    requires |PremiumRule(cart, catalog)| > 0
    ensures var s := PremiumRule(cart, catalog)[0];
            && s.offer.FromCatalog? && IsDiscounted(s.offer.product)
            && s.trigger == Affinity && s.confidence == 0.85
  {
  }

  lemma VirtualProductShape(c: PaidComplement)
    ensures var p := OfferProduct(ComplementOffer(c));
            && p.category == "complementos" && p.price == c.price && p.name == c.name
            && |p.id| >= 11 && p.id[..11] == "complement-"
            && forall k :: 11 <= k < |p.id| ==> !IsSpace(p.id[k])
  {
    ComplementIdShape(c.name);
  }

  /** A virtual product id is `complement-` followed by text without whitespace. */
  lemma ComplementIdShape(name: string)
    ensures var id := ComplementProductId(name);
            && |id| >= 11 && id[..11] == "complement-"
            && forall k :: 11 <= k < |id| ==> !IsSpace(id[k])
  {
    var tail := CollapseSpaces(Lower(name), '-');
    var id := "complement-" + tail;
    assert id[..11] == "complement-";
    forall k | 11 <= k < |id|
      ensures !IsSpace(id[k])
    {
      assert id[k] == tail[k - 11];
    }
  }

  /**
   * A paid-complement suggestion shows a virtual product: id `complement-`
   * followed by the lowercased name with no whitespace left, category
   * `complementos`, and the table price.
   */
  lemma ComplementSuggestionShape(cart: seq<CartItem>, catalog: seq<Product>, table: seq<PaidComplement>, s: Suggestion)
    ensures s in GenerateSuggestions(cart, catalog, table) && s.offer.ComplementOffer? ==>
              var c := s.offer.complement;
              var p := OfferProduct(s.offer);
              && c in table
              && Lower(c.name) !in AddedComplements(cart)
              && p.category == "complementos" && p.price == c.price && p.name == c.name
              && |p.id| >= 11 && p.id[..11] == "complement-"
              && forall k :: 11 <= k < |p.id| ==> !IsSpace(p.id[k])
  {
    if s.offer.ComplementOffer? {
      VirtualProductShape(s.offer.complement);
    }
  }

  lemma LowerPacoca()
    ensures Lower("PAÇOCA") == "paçoca"
  {
    var up := "PAÇOCA";
    var lo := Lower(up);
    assert lo[0] == 'p' && lo[1] == 'a' && lo[2] == 'ç' && lo[3] == 'o' && lo[4] == 'c' && lo[5] == 'a';
  }

  lemma LowerMixedPacoca()
    ensures Lower(" Paçoca ") == " paçoca "
  {
    var mixed := Lower(" Paçoca ");
    assert mixed[0] == ' ' && mixed[1] == 'p' && mixed[2] == 'a' && mixed[3] == 'ç';
    assert mixed[4] == 'o' && mixed[5] == 'c' && mixed[6] == 'a' && mixed[7] == ' ';
  }

  lemma TrimStartPacoca()
    ensures TrimStart(" paçoca ") == "paçoca "
  {
    assert " paçoca "[1..] == "paçoca ";
    assert TrimStart("paçoca ") == "paçoca ";
  }

  lemma TrimEndPacoca()
    ensures TrimEnd("paçoca ") == "paçoca"
  {
    assert "paçoca "[..6] == "paçoca";
    assert TrimEnd("paçoca") == "paçoca";
  }

  lemma TrimPacoca()
    ensures Trim(Lower(" Paçoca ")) == "paçoca"
  {
    LowerMixedPacoca();
    TrimStartPacoca();
    TrimEndPacoca();
  }

  lemma PacocaAdded(cart: seq<CartItem>, k: nat)
    requires k < |cart| && cart[k].selectedComplements == [SelectedComplement(" Paçoca ", 0.0)]
    ensures Lower("PAÇOCA") in AddedComplements(cart)
  {
    LowerPacoca();
    TrimPacoca();
    assert cart[k].selectedComplements[0].name == " Paçoca ";
    assert Trim(Lower(cart[k].selectedComplements[0].name)) in AddedComplements(cart);
  }

  /** A cart complement written ` Paçoca ` suppresses the table's `PAÇOCA`: names match after lowercasing and trimming. */
  lemma PacocaSuppressed(cart: seq<CartItem>, catalog: seq<Product>, k: nat)
    requires k < |cart| && cart[k].selectedComplements == [SelectedComplement(" Paçoca ", 0.0)]
    ensures forall s :: s in GenerateSuggestions(cart, catalog, PaidComplements)
              ==> s.offer != ComplementOffer(PaidComplement("PAÇOCA", 2.00))
  {
    PacocaAdded(cart, k);
  }

  /**
   * The complement rule compares complement names only, never the cart's
   * product ids: a cart holding the virtual paçoca product itself, with no
   * paçoca selected as a complement, is offered paçoca again.
   */
  lemma VirtualComplementRepeated(c: PaidComplement, acai: Product, cart: seq<CartItem>)
    requires c == PaidComplement("PAÇOCA", 2.00)
    requires acai == Product("a1", "Açaí", "acai", 10.0, None, None, "", true)
    requires cart == [CartItem("l1", acai, 1, [], None, 10.0),
                      CartItem("l2", OfferProduct(ComplementOffer(c)), 1, [], None, 2.0)]
    ensures OfferProduct(ComplementOffer(c)).id in CartProductIds(cart)
    ensures var r := ComplementRule(cart, [c]);
            |r| > 0 && r[0].offer == ComplementOffer(c) && Admissible(r[0], cart, [], [c])
  {
    assert cart[1].product.id == OfferProduct(ComplementOffer(c)).id;
    assert IsAcai(cart[0].product);
    assert HasCategory(cart, "acai");
    assert AddedComplements(cart) == {};
    ContainsWitness(c.name, "PAÇOCA", 0);
    assert PitchComplement([c], PacocaPitch) == Some(c);
  }

  /** A cart holding only a 300g açaí at 14.50, with the 500g at 19.90 in the catalog, is first offered the upgrade for 5.40 more. */
  lemma UpgradeScenario(acai300: Product, acai500: Product)
    requires acai300 == Product("a300", "Açaí 300g", "acai", 14.50, None, None, "", true)
    requires acai500 == Product("a500", "Açaí 500g", "acai", 19.90, None, None, "", true)
    ensures var r := GenerateSuggestions([CartItem("l1", acai300, 1, [], None, 14.50)], [acai500], PaidComplements);
            |r| > 0 && r[0].offer == FromCatalog(acai500) && r[0].priceIncrease == Some(5.40)
  {
    var cart := [CartItem("l1", acai300, 1, [], None, 14.50)];
    assert "Açaí 300g"[5..9] == "300g";
    ContainsWitness("Açaí 300g", "300g", 5);
    assert "Açaí 500g"[5..9] == "500g";
    ContainsWitness("Açaí 500g", "500g", 5);
    assert Is300gLine(cart[0]);
    assert HasAcai300g(cart);
    assert Filter(cart, Is300gLine) == cart;
    assert UpgradeRule(cart, [acai500]) == [Suggestion(FromCatalog(acai500), UpgradeMessage(5.40), SocialProof, 0.9, Some(5.40))];
  }

  /** A 10.00 cart with a 12.00 açaí it does not hold fires the low-value rule. */
  lemma LowValueScenario(cart: seq<CartItem>, acai: Product)
    requires CartTotal(cart) == 10.0
    requires acai.category == "acai" && acai.price == 12.0 && acai.id !in CartProductIds(cart)
    ensures |LowValueRule(cart, [acai])| == 1 && LowValueRule(cart, [acai])[0].trigger == Urgency
  {
  }
}
