/**
 * The quantity selector of the product page: the chosen quantity, kept
 * within the per-item cap, and the button that adds that many of the shown
 * product to the cart.
 */
module ProductDetailView {
  import opened Common
  import opened Catalog
  import Cart

  /** A quantity the selector accepts: from 1 to the per-item cap. */
  predicate InRange(q: int)
  {
    1 <= q <= Cart.MaxQuantityPerItem
  }

  /**
   * `handleQuantityChange` (frontend/src/components/ProductDetail.js:39-44):
   * the quantity after the field changed, where `parsed` is what `parseInt`
   * gave (`None` for `NaN`, which fails both comparisons).
   */
  function OnQuantityChange(quantity: int, parsed: Option<int>): (r: int)
    ensures parsed.Some? && InRange(parsed.value) ==> r == parsed.value
    ensures !(parsed.Some? && InRange(parsed.value)) ==> r == quantity
    ensures InRange(quantity) ==> InRange(r)
  {
    match parsed
    case None => quantity
    case Some(value) => if value >= 1 && value <= Cart.MaxQuantityPerItem then value else quantity
  }

  /** Whatever the user types, the selector never leaves the accepted range once in it. */
  lemma {:induction false} SelectorStaysInRange(quantity: int, inputs: seq<Option<int>>)
    requires InRange(quantity)
    ensures InRange(FoldChanges(quantity, inputs))
    decreases |inputs|
  {
    if inputs != [] {
      SelectorStaysInRange(OnQuantityChange(quantity, inputs[0]), inputs[1..]);
    }
  }

  /** The quantity after a sequence of edits of the field. */
  function FoldChanges(quantity: int, inputs: seq<Option<int>>): int
    decreases |inputs|
  {
    if inputs == [] then quantity else FoldChanges(OnQuantityChange(quantity, inputs[0]), inputs[1..])
  }

  /** The page's state: the loaded product (`null` until it arrives) and the chosen quantity. */
  class ProductDetail {
    var product: Option<Product>
    var quantity: int

    ghost predicate Valid()
      reads this
    {
      InRange(quantity)
    }

    /** The page once `loadProduct` has settled with `loaded` (frontend/src/components/ProductDetail.js:8-11). */
    constructor (loaded: Option<Product>)
      ensures Valid() && product == loaded && quantity == 1
    {
      product, quantity := loaded, 1;
    }

    method HandleQuantityChange(parsed: Option<int>)
      requires Valid()
      modifies this
      ensures Valid()
      ensures product == old(product) && quantity == OnQuantityChange(old(quantity), parsed)
    {
      if parsed.Some? && parsed.value >= 1 && parsed.value <= Cart.MaxQuantityPerItem {
        quantity := parsed.value;
      }
    }

    /**
     * `handleAddToCart` (frontend/src/components/ProductDetail.js:32-37):
     * with a product shown, `add(product, quantity)` and the selector back
     * at 1; without one, nothing.
     */
    method HandleAddToCart(cart: Cart.CartProvider)
      requires Valid() && cart.Valid()
      modifies this, cart
      ensures Valid() && cart.Valid()
      ensures product == old(product)
      ensures old(product).Some? ==>
        cart.items == Cart.AddCommand(old(cart.items), old(product), old(quantity)) && quantity == 1
      ensures old(product).None? ==> cart.items == old(cart.items) && quantity == old(quantity)
      ensures old(cart.ItemCount()) <= Cart.MaxTotalItems ==> cart.ItemCount() <= Cart.MaxTotalItems
    {
      if product.Some? && quantity > 0 {
        cart.Add(product, quantity);
        quantity := 1;
      }
    }
  }
}
