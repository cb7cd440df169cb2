/** The shop page (src/pages/Shop.tsx): the category filter over the product
    list, the product modal with its quantity stepper, and the hand-off of the
    chosen product and quantity to the cart. */
module ShopPage {
  import opened Store
  import opened Text
  import CartOps
  import Storefront

  /** A product shows under a filter other than "All" when it has a category
      equal to the filter up to case. */
  predicate InCategory(p: Product, filter: string)
  {
    p.category.Some? && Lower(p.category.value) == Lower(filter)
  }

  /** The `filter` over the product list for one category. */
  function ByCategory(products: seq<Product>, filter: string): (r: seq<Product>)
    ensures |r| <= |products|
    ensures forall p :: p in r <==> p in products && InCategory(p, filter)
  {
    if products == [] then []
    else
      var rest := ByCategory(products[1..], filter);
      assert forall p :: p in products <==> p == products[0] || p in products[1..];
      if InCategory(products[0], filter) then [products[0]] + rest else rest
  }

  /** `filteredProducts`: the whole list under "All", else one category. */
  function FilteredProducts(products: seq<Product>, filter: string): (r: seq<Product>)
    ensures filter == "All" ==> r == products
    ensures filter != "All" ==> forall p :: p in r <==> p in products && InCategory(p, filter)
    ensures filter != "All" ==> r == ByCategory(products, filter)
  {
    if filter == "All" then products else ByCategory(products, filter)
  }

  /** The category filter keeps the original order: it distributes over
      concatenation. */
  lemma {:induction false} ByCategoryKeepsOrder(a: seq<Product>, b: seq<Product>, filter: string)
    ensures ByCategory(a + b, filter) == ByCategory(a, filter) + ByCategory(b, filter)
  {
    if a == [] {
      assert a + b == b;
    } else {
      assert (a + b)[1..] == a[1..] + b;
      ByCategoryKeepsOrder(a[1..], b, filter);
    }
  }

  /** A list whose products all match is kept whole. */
  lemma {:induction false} ByCategoryKeepsMatching(products: seq<Product>, filter: string)
    requires forall i :: 0 <= i < |products| ==> InCategory(products[i], filter)
    ensures ByCategory(products, filter) == products
  {
    if products != [] {
      ByCategoryKeepsMatching(products[1..], filter);
    }
  }

  /** Two filters equal up to case select the same products. */
  lemma {:induction false} ByCategoryIgnoresCase(products: seq<Product>, f: string, g: string)
    requires Lower(f) == Lower(g)
    ensures ByCategory(products, f) == ByCategory(products, g)
  {
    if products != [] {
      ByCategoryIgnoresCase(products[1..], f, g);
    }
  }

  /** A product without a category shows only under "All". */
  lemma UncategorisedOnlyUnderAll(products: seq<Product>, filter: string, p: Product)
    requires p in products && p.category.None?
    ensures p in FilteredProducts(products, filter) <==> filter == "All"
  {
  }

  /** The page state. */
  class Shop {
    var filter: string
    var selected: Option<Product>
    var quantity: int

    /** The stepper never shows less than one. */
    ghost predicate Valid()
      reads this
    {
      quantity >= 1
    }

    constructor ()
      ensures filter == "All" && selected == None && quantity == 1
      ensures Valid()
    {
      filter := "All";
      selected := None;
      quantity := 1;
    }

    /** The products the grid shows. */
    function Visible(products: seq<Product>): seq<Product>
      reads this
    {
      FilteredProducts(products, filter)
    }

    /** A category button. */
    method SetFilter(category: string)
      modifies this`filter
      ensures filter == category
      ensures forall products :: Visible(products) == FilteredProducts(products, category)
    {
      filter := category;
    }

    /** `handleOpenModal`: select the product and reset the quantity to 1. */
    method OpenModal(product: Product)
      modifies this`selected, this`quantity
      ensures selected == Some(product) && quantity == 1
      ensures Valid()
    {
      selected := Some(product);
      quantity := 1;
    }

    /** The close button. */
    method CloseModal()
      modifies this`selected
      ensures selected == None
    {
      selected := None;
    }

    /** The "-" of the stepper: `Math.max(1, quantity - 1)`. */
    method Decrement()
      modifies this`quantity
      ensures quantity == (if old(quantity) - 1 > 1 then old(quantity) - 1 else 1)
      ensures Valid()
    {
      quantity := if quantity - 1 > 1 then quantity - 1 else 1;
    }

    /** The "+" of the stepper. */
    method Increment()
      requires Valid()
      modifies this`quantity
      ensures quantity == old(quantity) + 1
      ensures Valid()
    {
      quantity := quantity + 1;
    }

    /** "Add to Cart" in the modal (which only shows while a product is
        selected): pass the product and the quantity on, then close. */
    method AddToCart(app: Storefront.App)
      requires Valid() && selected.Some? && app.Synced()
      modifies this`selected, app, app.store
      ensures app.cart == CartOps.AddToCart(old(app.cart), old(selected).value, quantity)
      ensures quantity >= 1
      ensures app.products == old(app.products) && app.Synced()
      ensures app.store.users == old(app.store.users) && app.store.currentUser == old(app.store.currentUser)
      ensures selected == None && Valid()
    {
      app.AddToCart(selected.value, quantity);
      selected := None;
    }
  }
}
