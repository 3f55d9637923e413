/**
 * The cart provider's state (src/context/CartContext.jsx): one object owns
 * the line items; each mutation replaces them with the result of a pure
 * updater from module Cart, as the state setter does, and the two reads
 * fold over them.
 */
module CartContext {
  import opened Cart

  class CartStore {
    /** The line items, in insertion order. */
    var cartItems: seq<LineItem>

    /** At most one line per id, and every line holds at least one unit. */
    predicate Valid()
      reads this
    {
      WellFormed(cartItems)
    }

    /** A session starts with an empty cart. */
    constructor ()
      ensures Valid()
      ensures cartItems == []
    {
      cartItems := [];
    }

    /** `addToCart`: one more unit of an existing line, or a new last line of one unit. */
    method AddToCart(product: Product)
      requires Valid()
      modifies this
      ensures Valid()
      ensures cartItems == AddItem(old(cartItems), product)
      ensures GetCartCount() == old(GetCartCount()) + 1
    {
      AddItemWellFormed(cartItems, product);
      AddItemSums(cartItems, product);
      cartItems := AddItem(cartItems, product);
    }

    /** `removeFromCart`: drop the line with the id, if any. */
    method RemoveFromCart(productId: ProductId)
      requires Valid()
      modifies this
      ensures Valid()
      ensures cartItems == RemoveItem(old(cartItems), productId)
    {
      RemoveItemWellFormed(cartItems, productId);
      cartItems := RemoveItem(cartItems, productId);
    }

    /**
     * `updateQuantity`: a quantity of zero or less removes the line; a
     * positive one overwrites the stored quantity and never creates a line.
     */
    method UpdateQuantity(productId: ProductId, quantity: int)
      requires Valid()
      modifies this
      ensures Valid()
      ensures quantity <= 0 ==> cartItems == RemoveItem(old(cartItems), productId)
      ensures quantity > 0 ==> cartItems == SetQuantity(old(cartItems), productId, quantity)
    {
      if quantity <= 0 {
        RemoveFromCart(productId);
      } else {
        SetQuantityWellFormed(cartItems, productId, quantity);
        cartItems := SetQuantity(cartItems, productId, quantity);
      }
    }

    /** `clearCart`: back to the empty cart, whose totals are zero. */
    method ClearCart()
      modifies this
      ensures Valid()
      ensures cartItems == []
      ensures GetTotalPrice() == 0.0 && GetCartCount() == 0
    {
      cartItems := [];
    }

    /** `getTotalPrice`: Σ price × quantity over the stored lines. */
    function GetTotalPrice(): (r: real)
      reads this
      ensures r == PriceSum(cartItems)
    {
      TotalPrice(cartItems)
    }

    /** `getCartCount`: Σ quantity; in a valid cart at least the number of lines. */
    function GetCartCount(): (r: int)
      reads this
      ensures r == QuantitySum(cartItems)
      ensures Valid() ==> r >= |cartItems|
    {
      CountAtLeastLines(cartItems);
      CartCount(cartItems)
    }
  }
}
