/** The records the storefront keeps and the browser key-value store that holds
    them. Every value lives under one of four keys (`district_products`,
    `district_cart`, `district_users`, `district_current_user`); a key may be
    absent. JSON encoding is not modelled: each key holds a typed value. */
module Store {

  datatype Option<T> = None | Some(value: T)

  /** A catalogue entry. Prices are whole cents so that sums are exact. A
      product read back from the store may lack a category, so it is optional. */
  datatype Product = Product(
    id: int,
    name: string,
    price: int,
    category: Option<string>,
    images: seq<string>,
    description: Option<string>,
    sku: Option<string>)

  /** A cart line: the product's own fields plus the quantity chosen. */
  datatype CartItem = CartItem(product: Product, quantity: int)
  {
    function Id(): int { product.id }
    function Price(): int { product.price }
  }

  datatype ShippingData = ShippingData(
    fullName: string,
    phone: string,
    address: string,
    city: string,
    country: string)

  /** The record written at order confirmation; `user` is an email or "Guest". */
  datatype Order = Order(
    id: int,
    shipping: ShippingData,
    items: seq<CartItem>,
    total: int,
    date: string,
    user: string)

  datatype User = User(
    email: string,
    password: string,
    fullName: string,
    phone: string,
    history: seq<Order>)

  /** Where a handler sends the browser next. */
  datatype Route = Home | CheckoutFinal | Dashboard

  /** The browser's key-value store: one field per key, `None` when the key is absent. */
  class Store {
    var products: Option<seq<Product>>
    var cart: Option<seq<CartItem>>
    var users: Option<seq<User>>
    var currentUser: Option<User>

    constructor (products: Option<seq<Product>>, cart: Option<seq<CartItem>>,
                 users: Option<seq<User>>, currentUser: Option<User>)
      ensures this.products == products && this.cart == cart
      ensures this.users == users && this.currentUser == currentUser
    {
      this.products := products;
      this.cart := cart;
      this.users := users;
      this.currentUser := currentUser;
    }
  }

  /** Reading a list key: an absent key reads as the empty list. */
  function OrEmpty<T>(o: Option<seq<T>>): (s: seq<T>)
    ensures o.None? ==> s == []
    ensures o.Some? ==> s == o.value
  {
    match o
    case None => []
    case Some(v) => v
  }
}
