/** The product page: a quantity stepper, a favourite toggle and an Add to Cart button that is
    disabled while the product is out of stock. */
module ProductDetail {
  import opened Wrappers
  import Quantity

  /** Where a press leads: Add to Cart opens the cart screen. */
  datatype Route = CartScreenRoute

  /** The stock line under the price. */
  function StockLabel(inStock: bool): (s: string)
    ensures s == "In Stock" <==> inStock
    ensures s == "Out of Stock" <==> !inStock
  {
    if inStock then "In Stock" else "Out of Stock"
  }

  class ProductDetailScreen {
    var quantity: int
    var isFavorite: bool
    /** `product.inStock` of the product shown; the page never changes it. */
    const inStock: bool

    ghost predicate Valid()
      reads this
    {
      quantity >= 1
    }

    /** The page opens with quantity 1 and the heart not filled. */
    constructor (inStock: bool)
      ensures Valid() && quantity == 1 && !isFavorite && this.inStock == inStock
    {
      quantity := 1;
      isFavorite := false;
      this.inStock := inStock;
    }

    /** The stepper buttons: minus passes -1, plus passes 1. */
    method UpdateQuantity(change: int)
      modifies this
      ensures quantity == Quantity.Step(old(quantity), change)
      ensures Valid() && isFavorite == old(isFavorite)
    {
      quantity := Quantity.Step(quantity, change);
    }

    /** The heart button. */
    method ToggleFavorite()
      modifies this
      ensures isFavorite == !old(isFavorite) && quantity == old(quantity)
    {
      isFavorite := !isFavorite;
    }

    /** The button is disabled exactly when the product is out of stock. */
    function AddToCartDisabled(): (b: bool)
      reads this
      ensures b <==> !inStock
    {
      !inStock
    }

    /** A press on Add to Cart: nothing while disabled, otherwise the cart screen opens. */
    method PressAddToCart() returns (r: Option<Route>)
      ensures r.Some? <==> inStock
    {
      if AddToCartDisabled() {
        r := None;
      } else {
        r := Some(CartScreenRoute);
      }
    }
  }

  /** Pressing the heart twice restores the favourite flag. */
  method ToggleTwiceRestores(p: ProductDetailScreen)
    modifies p
    ensures p.isFavorite == old(p.isFavorite) && p.quantity == old(p.quantity)
  {
    p.ToggleFavorite();
    p.ToggleFavorite();
  }
}
