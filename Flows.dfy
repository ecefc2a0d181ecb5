/**
 * End-to-end flows across the components, as the app wires them: the shop
 * page and product dialog feed the cart store; the checkout page's
 * callbacks land on the app shell.
 */
module Flows {
  import opened Basics
  import opened Cart
  import opened CartStore
  import opened Storage
  import opened App
  import opened Checkout
  import opened Shop
  import opened ProductModal

  /**
   * Pick a product from the grid, choose a size, press "+" once and add:
   * the cart gets one line with exactly that size and quantity 2, and after
   * the reset the dialog is closed with its selection back at M / 1.
   */
  method ShopAddFlow(product: Product, size: string)
    returns (cart: seq<CartItem>, modalOpen: bool, quantityAfterReset: int, sizeAfterReset: string)
    requires product in Catalogue && size in Sizes
    ensures cart == [CartItem(product.id, product.name, product.priceCents, size, 2)]
    ensures !modalOpen && quantityAfterReset == 1 && sizeAfterReset == "M"
  {
    var app := new Storefront();
    app.Navigate(Page.Shop);
    var shop := new ShopPage();
    assert product in FilteredProducts(shop.selectedCategory);
    shop.ProductClick(product);
    var modal := new Modal(shop.selectedProduct);
    modal.SelectSize(size);
    modal.Increment();
    var request := modal.AddToCart();
    app.AddToCart(request.value.product, request.value.size, request.value.quantity);
    var closes := modal.ResetFires();
    if closes {
      shop.CloseModal();
    }
    cart, modalOpen := app.cartItems, shop.isModalOpen;
    quantityAfterReset, sizeAfterReset := modal.quantity, modal.selectedSize;
  }

  /** Adding one Community Crew Tee in M to an empty cart gives one line totalling 2999 cents. */
  lemma OneTeeCart()
    ensures Added([], Catalogue[2], "M", 1) == [CartItem(3, "Community Crew Tee", 2999, "M", 1)]
    ensures SumOf(Added([], Catalogue[2], "M", 1), LineTotal) == 2999
  {
    AddAppends([], Catalogue[2], "M", 1);
  }

  /**
   * Checkout of one $29.99 item, whatever the stored consent: when the
   * dialog shows, the first delivery submit is held back, consent is
   * accepted and the form resubmitted.  The completion timer fires once and
   * leaves an empty cart on the home page.
   */
  method CheckoutFlow(initial: map<string, string>)
    returns (orderTotal: int, timersScheduled: nat, page: Page, cart: seq<CartItem>)
    ensures orderTotal == 2999 && timersScheduled == 1
    ensures page == Home && cart == []
  {
    var storage := new LocalStorage(initial);
    var app := new Storefront();
    app.AddToCart(Catalogue[2], "M", 1);
    OneTeeCart();
    var lines := app.cartItems;
    app.StartCheckout();
    var checkout := new CheckoutPage(lines, storage);
    orderTotal := checkout.OrderTotal();
    if !checkout.hasConsent {
      checkout.DeliverySubmit();
      assert checkout.step == Delivery;
      checkout.ConsentAccept();
    }
    assert checkout.hasConsent && checkout.step == Delivery && checkout.completionsScheduled == 0;
    checkout.DeliverySubmit();
    checkout.PaymentSubmit();
    timersScheduled := checkout.completionsScheduled;
    var callsOnComplete := checkout.CompletionFires();
    if callsOnComplete {
      app.CheckoutComplete();
    }
    page, cart := app.currentPage, app.cartItems;
  }

  /**
   * Declining the checkout consent returns to the shop with the cart sheet
   * open and the cart exactly as it was.
   */
  method DeclineFlow(initial: map<string, string>, product: Product, size: string, quantity: int)
    returns (page: Page, cartOpen: bool, cart: seq<CartItem>, stored: map<string, string>)
    requires !IsAccepted(Lookup(initial, CheckoutConsentKey))
    ensures page == Page.Shop && cartOpen
    ensures cart == Added([], product, size, quantity)
    ensures stored == initial
  {
    var storage := new LocalStorage(initial);
    var app := new Storefront();
    app.AddToCart(product, size, quantity);
    app.StartCheckout();
    var checkout := new CheckoutPage(app.cartItems, storage);
    assert checkout.showConsentDialog;
    var back := checkout.ConsentDecline();
    if back {
      app.CheckoutBack();
    }
    page, cartOpen, cart, stored := app.currentPage, app.isCartOpen, app.cartItems, storage.entries;
  }
}
