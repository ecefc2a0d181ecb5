/**
 * The product dialog: size and quantity selection, the add button, and the
 * one-second reset that follows an add.
 */
module ProductModal {
  import opened Basics
  import opened Cart
  import opened CartStore

  /** The selectable sizes, in display order. */
  const Sizes: seq<string> := ["XS", "S", "M", "L", "XL", "XXL"]
  const DefaultSize := "M"

  /** The arguments of one `onAddToCart` call. */
  datatype AddRequest = AddRequest(product: Product, size: string, quantity: int)

  class Modal {
    /** The product prop; the dialog renders nothing without one. */
    var product: Option<Product>
    var selectedSize: string
    var quantity: int
    var added: bool
    /** Reset timers scheduled and not yet fired. */
    var resetTimers: nat

    /** A size from the list, a quantity in 1..10, and a reset pending exactly while `added` is shown. */
    ghost predicate Valid()
      reads this
    {
      && selectedSize in Sizes
      && MinQuantity <= quantity <= MaxQuantity
      && resetTimers == (if added then 1 else 0)
    }

    /** The add button is disabled while "Added to Cart!" is shown. */
    predicate AddEnabled()
      reads this
      ensures Valid() ==> (AddEnabled() <==> resetTimers == 0)
    {
      !added
    }

    constructor(product: Option<Product>)
      ensures Valid()
      ensures this.product == product
      ensures selectedSize == DefaultSize && quantity == 1 && !added
    {
      this.product := product;
      selectedSize := DefaultSize;
      quantity := 1;
      added := false;
      resetTimers := 0;
    }

    /** A new product prop; the selection state is kept. */
    method SetProduct(product: Option<Product>)
      requires Valid()
      modifies this
      ensures Valid()
      ensures this.product == product
      ensures selectedSize == old(selectedSize) && quantity == old(quantity) && added == old(added)
      ensures resetTimers == old(resetTimers)
    {
      this.product := product;
    }

    /** The size radio group. */
    method SelectSize(size: string)
      requires Valid() && size in Sizes
      modifies this
      ensures Valid()
      ensures selectedSize == size
      ensures product == old(product) && quantity == old(quantity) && added == old(added)
      ensures resetTimers == old(resetTimers)
    {
      selectedSize := size;
    }

    /** The "-" button. */
    method Decrement()
      requires Valid()
      modifies this
      ensures Valid()
      ensures quantity == DecrementRequest(old(quantity))
      ensures product == old(product) && selectedSize == old(selectedSize) && added == old(added)
      ensures resetTimers == old(resetTimers)
    {
      quantity := DecrementRequest(quantity);
    }

    /** The "+" button. */
    method Increment()
      requires Valid()
      modifies this
      ensures Valid()
      ensures quantity == IncrementRequest(old(quantity))
      ensures product == old(product) && selectedSize == old(selectedSize) && added == old(added)
      ensures resetTimers == old(resetTimers)
    {
      quantity := IncrementRequest(quantity);
    }

    /** `handleAddToCart`: with a product, request exactly the selection, show "added" and schedule the reset. */
    method AddToCart() returns (request: Option<AddRequest>)
      requires Valid() && AddEnabled()
      modifies this
      ensures Valid()
      ensures old(product).Some? ==> request == Some(AddRequest(old(product).value, old(selectedSize), old(quantity)))
      ensures old(product).Some? ==> added && !AddEnabled()
      ensures old(product).None? ==> request == None && added == old(added)
      ensures product == old(product) && selectedSize == old(selectedSize) && quantity == old(quantity)
    {
      request := None;
      if product.Some? {
        request := Some(AddRequest(product.value, selectedSize, quantity));
        added := true;
        resetTimers := resetTimers + 1;
      }
    }

    /** The reset timer fires: clear "added", call `onClose`, and restore quantity 1 and size M. */
    method ResetFires() returns (callsOnClose: bool)
      requires Valid() && resetTimers > 0
      modifies this
      ensures Valid()
      ensures !added && AddEnabled() && quantity == 1 && selectedSize == DefaultSize
      ensures callsOnClose && resetTimers == old(resetTimers) - 1
      ensures product == old(product)
    {
      added := false;
      resetTimers := resetTimers - 1;
      callsOnClose := true;
      quantity := 1;
      selectedSize := DefaultSize;
    }
  }
}
