/**
 * The delivery storefront's catalog product and cart line, as the cart and
 * the upsell banner read them, and the stored AI-suggestion settings both of
 * them consult.
 */
module Delivery {
  import opened Basics

  /** A catalog product of the delivery storefront. Money is a `real` amount of reais. */
  datatype Product = Product(
    id: string,
    name: string,
    category: string,
    price: real,
    originalPrice: Option<real>,
    description: Option<string>,
    image: string,
    isActive: bool)

  /** A complement chosen on a cart line. */
  datatype SelectedComplement = SelectedComplement(name: string, price: real)

  /** One line of the delivery cart; `totalPrice` is maintained by the cart owner, outside this model. */
  datatype CartItem = CartItem(
    id: string,
    product: Product,
    quantity: int,
    selectedComplements: seq<SelectedComplement>,
    observations: Option<string>,
    totalPrice: real)

  /**
   * The parsed general settings object. A field is `None` when it is missing
   * or holds anything other than a boolean: the source only ever compares it
   * with `false`.
   */
  datatype GeneralSettings = GeneralSettings(enabled: Option<bool>, showInCart: Option<bool>)

  /** `x !== false`. */
  predicate NotFalse(x: Option<bool>) { x != Some(false) }
}
