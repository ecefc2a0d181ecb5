/**
 * The shop page: a fixed catalogue, a category filter over it, and the
 * product click that opens the product dialog.
 */
module Shop {
  import opened Basics
  import opened CartStore

  /** The nine catalogue products, prices in cents. */
  const Catalogue: seq<Product> := [
    Product(1, "Shadow Tank Pro", "mens", 3499),
    Product(2, "Strength Flex Leggings", "womens", 4499),
    Product(3, "Community Crew Tee", "unisex", 2999),
    Product(4, "Power Hoodie", "unisex", 5499),
    Product(5, "Elite Training Shorts", "mens", 3999),
    Product(6, "Unity Sports Bra", "womens", 3699),
    Product(7, "Foundation Joggers", "mens", 4999),
    Product(8, "Empower Crop Top", "womens", 3299),
    Product(9, "Legacy Snapback", "unisex", 2499)
  ]

  /** The filter buttons' category ids. */
  const CategoryIds: seq<string> := ["all", "mens", "womens", "unisex"]

  /** Catalogue ids are 1 to 9 in order, hence distinct. */
  lemma CatalogueIds()
    ensures |Catalogue| == 9
    ensures forall k :: 0 <= k < |Catalogue| ==> Catalogue[k].id == k + 1
  {
  }

  /** `products.filter((p) => p.category === category)`. */
  function FilterByCategory(products: seq<Product>, category: string): (r: seq<Product>)
    ensures forall p :: p in r <==> p in products && p.category == category
    ensures IsSubsequence(r, products)
    ensures |r| <= |products|
  {
    if products == [] then []
    else if products[0].category == category then
      var rest := FilterByCategory(products[1..], category);
      assert ([products[0]] + rest)[1..] == rest;
      [products[0]] + rest
    else FilterByCategory(products[1..], category)
  }

  /** The filter keeps every product of the category exactly as often as it occurs, and no other. */
  lemma {:induction false} FilterKeepsMultiplicity(products: seq<Product>, category: string)
    ensures forall p :: multiset(FilterByCategory(products, category))[p] ==
                        if p.category == category then multiset(products)[p] else 0
  {
    if products != [] {
      FilterKeepsMultiplicity(products[1..], category);
      assert products == [products[0]] + products[1..];
      if products[0].category == category {
        var rest := FilterByCategory(products[1..], category);
        assert FilterByCategory(products, category) == [products[0]] + rest;
      }
    }
  }

  /** `filteredProducts`: "all" shows the whole catalogue, any other category its products in catalogue order. */
  function FilteredProducts(selectedCategory: string): (r: seq<Product>)
    ensures selectedCategory == "all" ==> r == Catalogue
    ensures selectedCategory != "all" ==>
      (forall p :: p in r <==> p in Catalogue && p.category == selectedCategory) && IsSubsequence(r, Catalogue)
    ensures |r| <= |Catalogue|
  {
    if selectedCategory == "all" then Catalogue else FilterByCategory(Catalogue, selectedCategory)
  }

  /** The badge text under a product card (the product dialog uses the same mapping). */
  function CategoryLabel(category: string): (text: string)
    ensures text == "Men's" <==> category == "mens"
    ensures text == "Women's" <==> category == "womens"
    ensures text == "Unisex" <==> category != "mens" && category != "womens"
  {
    if category == "mens" then "Men's"
    else if category == "womens" then "Women's"
    else "Unisex"
  }

  class ShopPage {
    var selectedCategory: string
    var selectedProduct: Option<Product>
    var isModalOpen: bool

    constructor()
      ensures selectedCategory == "all" && selectedProduct == None && !isModalOpen
    {
      selectedCategory := "all";
      selectedProduct := None;
      isModalOpen := false;
    }

    /** A category button. */
    method SelectCategory(category: string)
      requires category in CategoryIds
      modifies this
      ensures selectedCategory == category
      ensures selectedProduct == old(selectedProduct) && isModalOpen == old(isModalOpen)
    {
      selectedCategory := category;
    }

    /** `handleProductClick`, on a card of the filtered grid. */
    method ProductClick(product: Product)
      requires product in FilteredProducts(selectedCategory)
      modifies this
      ensures selectedProduct == Some(product) && isModalOpen
      ensures product in Catalogue
      ensures selectedCategory == old(selectedCategory)
    {
      selectedProduct := Some(product);
      isModalOpen := true;
    }

    /** The dialog's `onClose`. */
    method CloseModal()
      modifies this
      ensures !isModalOpen
      ensures selectedCategory == old(selectedCategory) && selectedProduct == old(selectedProduct)
    {
      isModalOpen := false;
    }
  }
}
