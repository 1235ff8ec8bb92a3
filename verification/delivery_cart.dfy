/**
 * The delivery cart drawer's own logic: where a quantity change goes, the
 * item count, and whether the AI sales assistant appears, which combines the
 * caller's flag with two locally held flags read from stored settings and
 * kept up to date by configuration-change events.
 */
module DeliveryCart {
  import opened Basics
  import opened Seqs
  import opened Delivery

  /** The caller callback a quantity change is routed to. */
  datatype QuantityAction = RemoveLine(itemId: string) | UpdateLine(itemId: string, quantity: int)

  /** `handleQuantityChange`: zero or less removes the line, anything else updates it. */
  function HandleQuantityChange(itemId: string, newQuantity: int): (r: QuantityAction)
    ensures r.itemId == itemId
    ensures r.RemoveLine? <==> newQuantity <= 0
    ensures r.UpdateLine? ==> r.quantity == newQuantity && r.quantity > 0
  {
    if newQuantity <= 0 then RemoveLine(itemId) else UpdateLine(itemId, newQuantity)
  }

  function ItemQuantity(it: CartItem): int { it.quantity }

  /** `getTotalItems`: the sum of the line quantities. */
  function TotalItems(items: seq<CartItem>): int { SumInt(items, ItemQuantity) }

  /** The two flags the cart keeps: the AI switch and whether suggestions may appear in the cart. */
  datatype AiFlags = AiFlags(localAiEnabled: bool, showInCart: bool)

  /** Both flags start out true. */
  const InitialFlags := AiFlags(true, true)

  /**
   * `checkAISettings`. A specific AI key that is present decides the AI flag
   * and leaves the other flag alone; otherwise the general settings give both
   * flags (anything but an explicit `false` counts as on); with neither, or
   * when parsing fails, both flags are on.
   */
  function CheckAISettings(flags: AiFlags, specific: Stored<bool>, general: Stored<GeneralSettings>): (r: AiFlags)
    ensures specific.Parsed? ==> r == flags.(localAiEnabled := specific.value)
    ensures specific.Unparseable? ==> r == AiFlags(true, true)
    ensures specific.Absent? && general.Parsed? ==>
              r.localAiEnabled == (general.value.enabled != Some(false))
              && r.showInCart == (general.value.showInCart != Some(false))
    ensures specific.Absent? && !general.Parsed? ==> r == AiFlags(true, true)
  {
    match specific
    case Parsed(v) => flags.(localAiEnabled := v)
    case Unparseable => AiFlags(true, true)
    case Absent =>
      match general
      case Parsed(g) => AiFlags(NotFalse(g.enabled), NotFalse(g.showInCart))
      case _ => AiFlags(true, true)
  }

  /** The detail of an `aiSuggestionsConfigChanged` event; `settings` is absent when the event carries none. */
  datatype ConfigDetail = ConfigDetail(enabled: bool, settings: Option<GeneralSettings>)

  /** `handleConfigChange`: the AI flag follows the event, the other flag only when the event carries settings. */
  function HandleConfigChange(flags: AiFlags, detail: ConfigDetail): (r: AiFlags)
    ensures r.localAiEnabled == detail.enabled
    ensures detail.settings.None? ==> r.showInCart == flags.showInCart
    ensures detail.settings.Some? ==> r.showInCart == (detail.settings.value.showInCart != Some(false))
  {
    AiFlags(detail.enabled,
            if detail.settings.Some? then NotFalse(detail.settings.value.showInCart) else flags.showInCart)
  }

  /** `finalAiEnabled`: the caller's flag and both local flags. */
  predicate FinalAiEnabled(propEnabled: bool, flags: AiFlags) {
    propEnabled && flags.localAiEnabled && flags.showInCart
  }

  /** The assistant block renders only in an open cart with items, products to suggest, an add callback and AI on. */
  predicate AssistantShown(isOpen: bool, items: seq<CartItem>, products: seq<Product>, hasAddCallback: bool,
                           propEnabled: bool, flags: AiFlags) {
    isOpen && |items| > 0 && |products| > 0 && hasAddCallback && FinalAiEnabled(propEnabled, flags)
  }

  // ---- proofs ----

  /** The item count of a concatenation is the sum of the counts, and an added line adds its quantity. */
  lemma TotalItemsAppend(a: seq<CartItem>, b: seq<CartItem>, it: CartItem)
    ensures TotalItems(a + b) == TotalItems(a) + TotalItems(b)
    ensures TotalItems(a + [it]) == TotalItems(a) + it.quantity
  {
    SumIntAppend(a, b, ItemQuantity);
    SumIntAppend(a, [it], ItemQuantity);
  }

  /** When every line holds at least one unit, the count is at least the number of lines. */
  lemma {:induction false} TotalItemsAtLeastLines(items: seq<CartItem>)
    requires forall i :: 0 <= i < |items| ==> items[i].quantity >= 1
    ensures TotalItems(items) >= |items|
    decreases |items|
  {
    if |items| > 0 {
      assert forall i :: 0 <= i < |items[1..]| ==> items[1..][i] == items[i + 1];
      TotalItemsAtLeastLines(items[1..]);
    }
  }

  /** Reading the settings at mount: the assistant's AI flag is off exactly when a stored value says `false`. */
  lemma MountedFlags(specific: Stored<bool>, general: Stored<GeneralSettings>)
    ensures var r := CheckAISettings(InitialFlags, specific, general);
            && (!r.localAiEnabled <==>
                  (specific == Parsed(false) || (specific.Absent? && general.Parsed? && general.value.enabled == Some(false))))
            && (!r.showInCart <==> specific.Absent? && general.Parsed? && general.value.showInCart == Some(false))
  {
  }

  /** An event that disables AI hides the assistant whatever else holds. */
  lemma DisableEventHides(flags: AiFlags, settings: Option<GeneralSettings>, isOpen: bool, items: seq<CartItem>,
                          products: seq<Product>, hasAdd: bool, prop: bool)
    ensures !AssistantShown(isOpen, items, products, hasAdd, prop, HandleConfigChange(flags, ConfigDetail(false, settings)))
  {
  }

  /** An event carrying settings overrides both flags, so the previous flags no longer matter; any event is idempotent. */
  lemma ConfigEventLaws(f1: AiFlags, f2: AiFlags, d: ConfigDetail)
    ensures d.settings.Some? ==> HandleConfigChange(f1, d) == HandleConfigChange(f2, d)
    ensures HandleConfigChange(HandleConfigChange(f1, d), d) == HandleConfigChange(f1, d)
  {
  }

  /** With the caller's flag on and both local flags on, the assistant shows exactly for an open cart with items, products and a callback. */
  lemma ShownWhenEnabled(isOpen: bool, items: seq<CartItem>, products: seq<Product>, hasAdd: bool)
    ensures AssistantShown(isOpen, items, products, hasAdd, true, InitialFlags)
            <==> isOpen && |items| > 0 && |products| > 0 && hasAdd
  {
  }
}
