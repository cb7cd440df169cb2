/** The cart computations of the application root (src/App.tsx): the new cart
    each handler computes with `find`, `map`, `filter` and spread, and the
    `reduce` that counts the items. */
module CartOps {
  import opened Store

  /** The cart has an entry for product `id`. */
  predicate Contains(cart: seq<CartItem>, id: int)
  {
    exists i :: 0 <= i < |cart| && cart[i].Id() == id
  }

  /** At most one entry per product id: the invariant the cart operations keep. */
  predicate Distinct(cart: seq<CartItem>)
  {
    forall i, j :: 0 <= i < j < |cart| ==> cart[i].Id() != cart[j].Id()
  }

  /** Every entry has a quantity of at least one. */
  predicate AllPositive(cart: seq<CartItem>)
  {
    forall i :: 0 <= i < |cart| ==> cart[i].quantity >= 1
  }

  /** The array `find`: the first entry with product `id`, if any. */
  function Find(cart: seq<CartItem>, id: int): (r: Option<CartItem>)
    ensures r.Some? <==> Contains(cart, id)
    ensures r.Some? ==> exists k :: 0 <= k < |cart| && cart[k] == r.value && r.value.Id() == id
                                    && forall j :: 0 <= j < k ==> cart[j].Id() != id
  {
    if cart == [] then None
    else if cart[0].Id() == id then Some(cart[0])
    else
      var r := Find(cart[1..], id);
      if r.Some? then
        ghost var k :| 0 <= k < |cart[1..]| && cart[1..][k] == r.value && r.value.Id() == id
                      && forall j :: 0 <= j < k ==> cart[1..][j].Id() != id;
        assert cart[k + 1] == r.value;
        r
      else
        r
  }

  /** The `map` that adds `amount` to the quantity of every entry with product `id`. */
  function AddQuantity(cart: seq<CartItem>, id: int, amount: int): (r: seq<CartItem>)
    ensures |r| == |cart|
    ensures forall i :: 0 <= i < |cart| && cart[i].Id() == id ==>
              r[i] == cart[i].(quantity := cart[i].quantity + amount)
    ensures forall i :: 0 <= i < |cart| && cart[i].Id() != id ==> r[i] == cart[i]
  {
    if cart == [] then []
    else
      var head := if cart[0].Id() == id then cart[0].(quantity := cart[0].quantity + amount) else cart[0];
      [head] + AddQuantity(cart[1..], id, amount)
  }

  /** The `map` that sets the quantity of every entry with product `id` to `q`. */
  function SetQuantity(cart: seq<CartItem>, id: int, q: int): (r: seq<CartItem>)
    ensures |r| == |cart|
    ensures forall i :: 0 <= i < |cart| && cart[i].Id() == id ==> r[i] == cart[i].(quantity := q)
    ensures forall i :: 0 <= i < |cart| && cart[i].Id() != id ==> r[i] == cart[i]
  {
    if cart == [] then []
    else
      var head := if cart[0].Id() == id then cart[0].(quantity := q) else cart[0];
      [head] + SetQuantity(cart[1..], id, q)
  }

  /** `addToCart`: merge into the existing entry for the product, or append a new one. */
  function AddToCart(cart: seq<CartItem>, product: Product, amount: int): (r: seq<CartItem>)
    ensures Contains(cart, product.id) ==>
              |r| == |cart|
              && (forall i :: 0 <= i < |cart| && cart[i].Id() == product.id ==>
                    r[i] == cart[i].(quantity := cart[i].quantity + amount))
              && (forall i :: 0 <= i < |cart| && cart[i].Id() != product.id ==> r[i] == cart[i])
    ensures !Contains(cart, product.id) ==> r == cart + [CartItem(product, amount)]
  {
    if Find(cart, product.id).Some? then AddQuantity(cart, product.id, amount)
    else cart + [CartItem(product, amount)]
  }

  /** `removeFromCart`: the `filter` that keeps the entries of other products. */
  function RemoveFromCart(cart: seq<CartItem>, id: int): (r: seq<CartItem>)
    ensures |r| <= |cart|
    ensures !Contains(r, id)
    ensures forall x :: x in r <==> x in cart && x.Id() != id
    ensures !Contains(cart, id) ==> r == cart
  {
    if cart == [] then []
    else if cart[0].Id() == id then RemoveFromCart(cart[1..], id)
    else
      var rest := RemoveFromCart(cart[1..], id);
      assert forall x :: x in cart <==> x == cart[0] || x in cart[1..];
      assert !Contains(cart, id) ==> !Contains(cart[1..], id) by {
        if Contains(cart[1..], id) {
          var k :| 0 <= k < |cart[1..]| && cart[1..][k].Id() == id;
          assert cart[k + 1].Id() == id;
        }
      }
      [cart[0]] + rest
  }

  /** `updateQuantity`: a quantity below one is ignored; otherwise every entry
      with that product id gets the new quantity. */
  function UpdateQuantity(cart: seq<CartItem>, id: int, q: int): (r: seq<CartItem>)
    ensures q < 1 ==> r == cart
    ensures q >= 1 ==>
              |r| == |cart|
              && (forall i :: 0 <= i < |cart| && cart[i].Id() == id ==> r[i] == cart[i].(quantity := q))
              && (forall i :: 0 <= i < |cart| && cart[i].Id() != id ==> r[i] == cart[i])
  {
    if q < 1 then cart else SetQuantity(cart, id, q)
  }

  /** A cart change as the pages request it. */
  datatype CartAction = Add(product: Product, amount: int) | Remove(id: int) | Update(id: int, quantity: int)

  function Apply(cart: seq<CartItem>, action: CartAction): seq<CartItem>
  {
    match action
    case Add(p, amount) => AddToCart(cart, p, amount)
    case Remove(id) => RemoveFromCart(cart, id)
    case Update(id, q) => UpdateQuantity(cart, id, q)
  }

  /** The cart after a sequence of changes, in order. */
  function ApplyAll(cart: seq<CartItem>, actions: seq<CartAction>): seq<CartItem>
    decreases |actions|
  {
    if actions == [] then cart else ApplyAll(Apply(cart, actions[0]), actions[1..])
  }

  /** `totalCartItems`: the `reduce` that sums quantities from 0, left to right. */
  function TotalCartItems(cart: seq<CartItem>): int
  {
    SumQuantitiesFrom(0, cart)
  }

  function SumQuantitiesFrom(acc: int, cart: seq<CartItem>): int
    decreases cart
  {
    if cart == [] then acc else SumQuantitiesFrom(acc + cart[0].quantity, cart[1..])
  }

  /** Reference definition: the sum of the quantities. */
  function QuantitySum(cart: seq<CartItem>): int
  {
    if cart == [] then 0 else cart[0].quantity + QuantitySum(cart[1..])
  }

  /** The number of entries for product `id`. */
  function CountId(cart: seq<CartItem>, id: int): nat
  {
    if cart == [] then 0 else (if cart[0].Id() == id then 1 else 0) + CountId(cart[1..], id)
  }

}

/** The application root (src/App.tsx): the product list and the cart, both
    loaded from the key-value store at start-up and written back after every
    change. */
module Storefront {
  import opened Store
  import CartOps

  /** The application state: the product list and the cart, and the store they
      are written back to. */
  class App {
    var products: seq<Product>
    var cart: seq<CartItem>
    const store: Store

    /** The write-back effects have run: both keys hold the current state. */
    ghost predicate Synced()
      reads this, store
    {
      store.products == Some(products) && store.cart == Some(cart)
    }

    /** Start-up: read each key (an absent key gives []), then the effects write both back. */
    constructor (store: Store)
      modifies store
      ensures this.store == store
      ensures products == OrEmpty(old(store.products))
      ensures cart == OrEmpty(old(store.cart))
      ensures Synced()
      ensures store.users == old(store.users) && store.currentUser == old(store.currentUser)
    {
      products := OrEmpty(store.products);
      cart := OrEmpty(store.cart);
      this.store := store;
      new;
      store.products := Some(products);
      store.cart := Some(cart);
    }

    /** `addProduct`: append the new product at the end of the list. */
    method AddProduct(product: Product)
      requires Synced()
      modifies this, store
      ensures products == old(products) + [product]
      ensures cart == old(cart)
      ensures Synced()
      ensures store.users == old(store.users) && store.currentUser == old(store.currentUser)
    {
      products := products + [product];
      store.products := Some(products);
    }

    method AddToCart(product: Product, amount: int)
      requires Synced()
      modifies this, store
      ensures cart == CartOps.AddToCart(old(cart), product, amount)
      ensures products == old(products)
      ensures Synced()
      ensures store.users == old(store.users) && store.currentUser == old(store.currentUser)
    {
      cart := CartOps.AddToCart(cart, product, amount);
      store.cart := Some(cart);
    }

    method RemoveFromCart(id: int)
      requires Synced()
      modifies this, store
      ensures cart == CartOps.RemoveFromCart(old(cart), id)
      ensures products == old(products)
      ensures Synced()
      ensures store.users == old(store.users) && store.currentUser == old(store.currentUser)
    {
      cart := CartOps.RemoveFromCart(cart, id);
      store.cart := Some(cart);
    }

    method UpdateQuantity(id: int, q: int)
      requires Synced()
      modifies this, store
      ensures cart == CartOps.UpdateQuantity(old(cart), id, q)
      ensures q < 1 ==> unchanged(this, store)
      ensures products == old(products)
      ensures Synced()
      ensures store.users == old(store.users) && store.currentUser == old(store.currentUser)
    {
      if q < 1 {
        return;
      }
      cart := CartOps.SetQuantity(cart, id, q);
      store.cart := Some(cart);
    }
  }
}
