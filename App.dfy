/**
 * The application shell: the current page, the cart store and the cart
 * sheet's open flag, with the handlers that the pages call back into.
 */
module App {
  import opened Cart
  import opened CartStore

  datatype Page = Home | About | Submissions | Shop | Contact | Checkout

  class Storefront {
    var currentPage: Page
    var cartItems: seq<CartItem>
    var isCartOpen: bool
    var cookieConsentGiven: bool

    /** The store's invariant: at most one line per (id, size). */
    ghost predicate Valid()
      reads this
    {
      Unique(cartItems)
    }

    constructor()
      ensures Valid()
      ensures currentPage == Home && cartItems == [] && !isCartOpen && !cookieConsentGiven
    {
      currentPage := Home;
      cartItems := [];
      isCartOpen := false;
      cookieConsentGiven := false;
    }

    /** `handleAddToCart`: copy the lines, bump the matching line's quantity in the copy, or append. */
    method AddToCart(product: Product, size: string, quantity: int)
      requires Valid()
      modifies this
      ensures Valid()
      ensures cartItems == Added(old(cartItems), product, size, quantity)
      ensures currentPage == old(currentPage) && isCartOpen == old(isCartOpen)
      ensures cookieConsentGiven == old(cookieConsentGiven)
    {
      AddPreservesUnique(cartItems, product, size, quantity);
      var existingItemIndex := FindIndex(cartItems, product.id, size);
      if existingItemIndex > -1 {
        var current := cartItems;
        var updatedCart := new CartItem[|current|](k requires 0 <= k < |current| => current[k]);
        updatedCart[existingItemIndex] := updatedCart[existingItemIndex].(quantity := updatedCart[existingItemIndex].quantity + quantity);
        assert updatedCart[..] == current[existingItemIndex := current[existingItemIndex].(quantity := current[existingItemIndex].quantity + quantity)];
        cartItems := updatedCart[..];
      } else {
        cartItems := cartItems + [NewLine(product, size, quantity)];
      }
    }

    /** `handleRemoveItem`. */
    method RemoveItem(id: int, size: string)
      requires Valid()
      modifies this
      ensures Valid()
      ensures cartItems == Removed(old(cartItems), id, size)
      ensures currentPage == old(currentPage) && isCartOpen == old(isCartOpen)
      ensures cookieConsentGiven == old(cookieConsentGiven)
    {
      RemovePreservesUnique(cartItems, id, size);
      cartItems := Removed(cartItems, id, size);
    }

    /** `handleUpdateQuantity`: the quantity is stored as given, with no clamping. */
    method UpdateQuantity(id: int, size: string, quantity: int)
      requires Valid()
      modifies this
      ensures Valid()
      ensures cartItems == Updated(old(cartItems), id, size, quantity)
      ensures currentPage == old(currentPage) && isCartOpen == old(isCartOpen)
      ensures cookieConsentGiven == old(cookieConsentGiven)
    {
      UpdatePreservesUnique(cartItems, id, size, quantity);
      cartItems := Updated(cartItems, id, size, quantity);
    }

    /** `handleCheckout`: close the sheet and show the checkout page. */
    method StartCheckout()
      requires Valid()
      modifies this
      ensures Valid()
      ensures !isCartOpen && currentPage == Checkout
      ensures cartItems == old(cartItems) && cookieConsentGiven == old(cookieConsentGiven)
    {
      isCartOpen := false;
      currentPage := Checkout;
    }

    /** `handleCheckoutComplete`: empty the cart and go home. */
    method CheckoutComplete()
      requires Valid()
      modifies this
      ensures Valid()
      ensures cartItems == [] && currentPage == Home
      ensures isCartOpen == old(isCartOpen) && cookieConsentGiven == old(cookieConsentGiven)
    {
      cartItems := [];
      currentPage := Home;
    }

    /** The checkout page's `onBack`: back to the shop with the sheet open, cart untouched. */
    method CheckoutBack()
      requires Valid()
      modifies this
      ensures Valid()
      ensures currentPage == Shop && isCartOpen
      ensures cartItems == old(cartItems) && cookieConsentGiven == old(cookieConsentGiven)
    {
      currentPage := Shop;
      isCartOpen := true;
    }

    /** `handleCookieAccept` / `handleCookieDecline`. */
    method CookieDecision(accepted: bool)
      requires Valid()
      modifies this
      ensures Valid()
      ensures cookieConsentGiven == accepted
      ensures cartItems == old(cartItems) && currentPage == old(currentPage) && isCartOpen == old(isCartOpen)
    {
      cookieConsentGiven := accepted;
    }

    /** Navigation: the page links and the cart button, and the sheet's close. */
    method Navigate(page: Page)
      requires Valid()
      modifies this
      ensures Valid()
      ensures currentPage == page
      ensures cartItems == old(cartItems) && isCartOpen == old(isCartOpen) && cookieConsentGiven == old(cookieConsentGiven)
    {
      currentPage := page;
    }

    method SetCartOpen(open: bool)
      requires Valid()
      modifies this
      ensures Valid()
      ensures isCartOpen == open
      ensures cartItems == old(cartItems) && currentPage == old(currentPage) && cookieConsentGiven == old(cookieConsentGiven)
    {
      isCartOpen := open;
    }
  }
}
