/**
 * The smart upsell banner as an event-driven state machine: recomputation on
 * cart, catalog and configuration changes, an 8-second rotation modelled as
 * `Tick` events, and dismissal.
 *
 * `rotation` is the list captured by the running rotation interval, if any.
 * The interval is re-armed only when visibility, the cart or the AI flag
 * changes, so after a catalog-only change it keeps rotating through the list
 * it captured earlier.
 */
module UpsellBanner {
  import opened Basics
  import opened Delivery
  import opened Upsell
  import opened Text

  datatype BannerState = BannerState(
    cart: seq<CartItem>,
    catalog: seq<Product>,
    aiEnabled: bool,
    visible: bool,
    current: Option<Suggestion>,
    index: nat,
    rotation: Option<seq<Suggestion>>)

  datatype Event =
    | CartChanged(cart: seq<CartItem>)
    | CatalogChanged(catalog: seq<Product>)
    | ConfigChanged(enabled: bool)
    | Tick
    | Dismiss
    | Accept

  function Suggestions(s: BannerState): seq<Suggestion> {
    GenerateSuggestions(s.cart, s.catalog, PaidComplements)
  }

  /** The recompute effect: show the first suggestion when there is one and AI is on, else hide. */
  function Recompute(s: BannerState): BannerState {
    var sugg := Suggestions(s);
    if |sugg| > 0 && s.aiEnabled then s.(visible := true, current := Some(sugg[0]), index := 0)
    else s.(visible := false, current := None)
  }

  /** The rotation effect: an interval runs only while visible, with AI on and more than one suggestion. */
  function Rearm(s: BannerState): BannerState {
    var sugg := Suggestions(s);
    s.(rotation := if s.visible && s.aiEnabled && |sugg| > 1 then Some(sugg) else None)
  }

  /**
   * The banner's own reading of the stored settings: the specific key decides
   * when present and parseable, otherwise the general settings' `enabled`; a
   * parse failure keeps the initial `true`.
   */
  function StoredAiEnabled(specific: Stored<bool>, general: Stored<GeneralSettings>): (r: bool)
    ensures !r <==> (specific == Parsed(false)
                     || (specific == Absent && general.Parsed? && general.value.enabled == Some(false)))
  {
    match specific
    case Parsed(v) => v
    case Unparseable => true
    case Absent =>
      match general
      case Parsed(g) => NotFalse(g.enabled)
      case _ => true
  }

  /** The banner once mounted: settings resolved, suggestions computed, rotation armed. */
  function Mount(cart: seq<CartItem>, catalog: seq<Product>, specific: Stored<bool>, general: Stored<GeneralSettings>): BannerState {
    Rearm(Recompute(BannerState(cart, catalog, StoredAiEnabled(specific, general), false, None, 0, None)))
  }

  function Step(s: BannerState, e: Event): BannerState {
    match e
    case CartChanged(c) => Rearm(Recompute(s.(cart := c)))
    case CatalogChanged(p) =>
      var t := Recompute(s.(catalog := p));
      if t.visible != s.visible then Rearm(t) else t
    case ConfigChanged(en) =>
      if en == s.aiEnabled then s else Rearm(Recompute(s.(aiEnabled := en)))
    case Tick =>
      if s.rotation.Some? && |s.rotation.value| > 1 then
        var next := (s.index + 1) % |s.rotation.value|;
        s.(index := next, current := Some(s.rotation.value[next]))
      else s
    case Dismiss => if s.visible then s.(visible := false, rotation := None) else s
    case Accept => if s.visible then s.(visible := false, rotation := None) else s
  }

  /** The banner renders only while visible, holding a suggestion, with AI on. */
  predicate Shown(s: BannerState) { s.visible && s.current.Some? && s.aiEnabled }

  /** The product handed to the select callback when the shown suggestion is clicked. */
  function AcceptedProduct(s: BannerState): (r: Option<Product>)
    ensures r.Some? <==> Shown(s)
    ensures r.Some? ==> r.value == OfferProduct(s.current.value.offer)
  {
    if Shown(s) then Some(OfferProduct(s.current.value.offer)) else None
  }

  /** What every reachable state satisfies. */
  predicate Inv(s: BannerState) {
    && (s.visible ==> s.current.Some? && s.aiEnabled)
    && (s.rotation.Some? ==> s.visible && s.aiEnabled && |s.rotation.value| > 1 && s.index < |s.rotation.value|)
  }

  /**
   * A suggestion still fits the cart: a catalog product not in the cart, or a
   * table complement not already on it, offered to an açaí cart. This is
   * admissibility without the catalog, which a stale rotation list may no
   * longer match.
   */
  predicate FitsCart(sg: Suggestion, cart: seq<CartItem>) {
    match sg.offer
    case FromCatalog(p) => p.id !in CartProductIds(cart)
    case ComplementOffer(c) => c in PaidComplements && Lower(c.name) !in AddedComplements(cart) && HasCategory(cart, "acai")
  }

  /** Everything the banner holds, shown or queued for rotation, fits its cart. */
  predicate FitsInv(s: BannerState) {
    && (s.current.Some? ==> FitsCart(s.current.value, s.cart))
    && (s.rotation.Some? ==> forall i :: 0 <= i < |s.rotation.value| ==> FitsCart(s.rotation.value[i], s.cart))
  }

  function Run(s: BannerState, events: seq<Event>): BannerState
    decreases |events|
  {
    if |events| == 0 then s else Run(Step(s, events[0]), events[1..])
  }

  function Ticks(s: BannerState, n: nat): BannerState
    decreases n
  {
    if n == 0 then s else Ticks(Step(s, Tick), n - 1)
  }

  // ---- proofs ----

  lemma MountInv(cart: seq<CartItem>, catalog: seq<Product>, specific: Stored<bool>, general: Stored<GeneralSettings>)
    ensures Inv(Mount(cart, catalog, specific, general))
  {
  }

  lemma StepInv(s: BannerState, e: Event)
    requires Inv(s)
    ensures Inv(Step(s, e))
  {
  }

  lemma {:induction false} RunInv(s: BannerState, events: seq<Event>)
    requires Inv(s)
    ensures Inv(Run(s, events))
    decreases |events|
  {
    if |events| > 0 {
      StepInv(s, events[0]);
      RunInv(Step(s, events[0]), events[1..]);
    }
  }

  /** The suggestions computed for a state fit its cart. */
  lemma SuggestionsFit(s: BannerState)
    ensures forall i :: 0 <= i < |Suggestions(s)| ==> FitsCart(Suggestions(s)[i], s.cart)
  {
    var sugg := Suggestions(s);
    forall i | 0 <= i < |sugg|
      ensures FitsCart(sugg[i], s.cart)
    {
      assert Admissible(sugg[i], s.cart, s.catalog, PaidComplements);
    }
  }

  /** Recomputation replaces the shown suggestion, so it fits whatever was shown before. */
  lemma RecomputeFits(s: BannerState)
    ensures var t := Recompute(s); t.current.Some? ==> FitsCart(t.current.value, t.cart)
  {
    SuggestionsFit(s);
  }

  lemma RearmFits(s: BannerState)
    requires s.current.Some? ==> FitsCart(s.current.value, s.cart)
    ensures FitsInv(Rearm(s))
  {
    SuggestionsFit(s);
  }

  /** Every event keeps everything the banner holds fitting its cart. */
  lemma StepFits(s: BannerState, e: Event)
    requires FitsInv(s)
    ensures FitsInv(Step(s, e))
  {
    match e
    case CartChanged(c) =>
      RecomputeFits(s.(cart := c));
      RearmFits(Recompute(s.(cart := c)));
    case CatalogChanged(p) =>
      RecomputeFits(s.(catalog := p));
      RearmFits(Recompute(s.(catalog := p)));
    case ConfigChanged(en) =>
      RecomputeFits(s.(aiEnabled := en));
      RearmFits(Recompute(s.(aiEnabled := en)));
    case Tick =>
    case Dismiss =>
    case Accept =>
  }

  lemma {:induction false} RunFits(s: BannerState, events: seq<Event>)
    requires FitsInv(s)
    ensures FitsInv(Run(s, events))
    decreases |events|
  {
    if |events| > 0 {
      StepFits(s, events[0]);
      RunFits(Step(s, events[0]), events[1..]);
    }
  }

  /**
   * Whatever happened since mounting, a product handed to the select callback
   * is the shown suggestion's product and fits the current cart: a catalog
   * product is never one the cart already holds.
   */
  lemma AcceptedFitsCart(cart: seq<CartItem>, catalog: seq<Product>, specific: Stored<bool>,
                         general: Stored<GeneralSettings>, events: seq<Event>)
    ensures var s := Run(Mount(cart, catalog, specific, general), events);
            AcceptedProduct(s).Some? ==>
              && FitsCart(s.current.value, s.cart)
              && (s.current.value.offer.FromCatalog? ==> AcceptedProduct(s).value.id !in CartProductIds(s.cart))
  {
    var m0 := BannerState(cart, catalog, StoredAiEnabled(specific, general), false, None, 0, None);
    RecomputeFits(m0);
    RearmFits(Recompute(m0));
    RunFits(Mount(cart, catalog, specific, general), events);
  }

  /**
   * After a cart change the banner is visible exactly when there are
   * suggestions and AI is on, then showing the first one with index 0; the
   * rotation runs exactly when it is visible with more than one suggestion.
   */
  lemma CartChangeRecomputes(s: BannerState, cart: seq<CartItem>)
    ensures var t := Step(s, CartChanged(cart));
            var sugg := GenerateSuggestions(cart, s.catalog, PaidComplements);
            && t.cart == cart
            && (t.visible <==> |sugg| > 0 && s.aiEnabled)
            && (t.visible ==> t.index == 0 && t.current == Some(sugg[0]))
            && (!t.visible ==> t.current.None? && !Shown(t))
            && (t.rotation.Some? <==> t.visible && |sugg| > 1)
            && (t.rotation.Some? ==> t.rotation.value == sugg)
  {
  }

  /** A tick while rotating moves to `(index + 1) mod n` and shows that suggestion; the index stays in `[0, n)`. */
  lemma TickAdvances(s: BannerState)
    requires Inv(s) && s.rotation.Some?
    ensures var t := Step(s, Tick);
            var l := s.rotation.value;
            && t.index == (s.index + 1) % |l| && t.index < |l|
            && t.current == Some(l[t.index])
            && t == s.(index := t.index, current := t.current)
  {
  }

  /** Without a running rotation a tick changes nothing. */
  lemma TickIdle(s: BannerState)
    requires s.rotation.None?
    ensures Step(s, Tick) == s
  {
  }

  /** Dismissal hides the banner and stops the rotation, so no number of ticks brings it back. */
  lemma DismissStopsRotation(s: BannerState, n: nat)
    ensures var d := Step(s, Dismiss);
            && !d.visible && !Shown(d) && (Inv(s) ==> d.rotation.None?)
            && (Inv(s) ==> Ticks(d, n) == d)
  {
    var d := Step(s, Dismiss);
    if Inv(s) {
      TicksIdle(d, n);
    }
  }

  lemma {:induction false} TicksIdle(s: BannerState, n: nat)
    requires s.rotation.None?
    ensures Ticks(s, n) == s
    decreases n
  {
    if n > 0 {
      TickIdle(s);
      TicksIdle(Step(s, Tick), n - 1);
    }
  }

  /** A configuration change takes effect through a fresh recomputation: turning AI off hides the banner. */
  lemma ConfigOffHides(s: BannerState)
    requires Inv(s)
    ensures var t := Step(s, ConfigChanged(false));
            !t.visible && t.rotation.None? && !Shown(t)
  {
  }

  /** With two suggestions the index goes 0, 1, 0 on successive ticks. */
  lemma TwoSuggestionRotation(s: BannerState, a: Suggestion, b: Suggestion)
    requires Inv(s) && s.rotation == Some([a, b]) && s.index == 0
    ensures Step(s, Tick).index == 1 && Step(s, Tick).current == Some(b)
    ensures Step(Step(s, Tick), Tick).index == 0 && Step(Step(s, Tick), Tick).current == Some(a)
  {
  }
}
