/** The final checkout step (src/pages/CheckoutFinal.tsx): the shipping form
    prefilled from the current user, and order confirmation, which snapshots
    the stored cart, records the order in the user's history when someone is
    logged in, deletes the cart key and picks the next view. The total is the
    plain sum of price times quantity: no shipping fee is added. */
module Checkout {
  import opened Store
  import CartPage
  import CartOps
  import Storefront
  import Gateway

  const DefaultCity := "Bitola"
  const DefaultCountry := "North Macedonia"
  const GuestName := "Guest"

  /** The initial `shippingData`: name and phone from the current user, if any. */
  function Prefill(current: Option<User>): (s: ShippingData)
    ensures s.address == "" && s.city == DefaultCity && s.country == DefaultCountry
    ensures current.None? ==> s.fullName == "" && s.phone == ""
    ensures current.Some? ==> s.fullName == current.value.fullName && s.phone == current.value.phone
  {
    match current
    case None => ShippingData("", "", "", DefaultCity, DefaultCountry)
    case Some(u) => ShippingData(u.fullName, u.phone, "", DefaultCity, DefaultCountry)
  }

  /** `Math.floor(100000 + random * 900000)`: a six-digit order number. */
  function OrderId(random: real): (id: int)
    requires 0.0 <= random < 1.0
    ensures 100000 <= id <= 999999
  {
    var x := 100000.0 + random * 900000.0;
    assert random * 900000.0 < 900000.0;
    x.Floor
  }

  /** The `orderData` record. */
  function MakeOrder(id: int, shipping: ShippingData, items: seq<CartItem>, date: string,
                     current: Option<User>): (o: Order)
    ensures o.id == id && o.date == date
    ensures o.items == items && o.shipping == shipping
    ensures o.total == CartPage.LineTotalSum(items)
    ensures o.user == (if current.Some? then current.value.email else GuestName)
  {
    CartPage.SubtotalIsSum(items);
    Order(id, shipping, items, CartPage.Subtotal(items), date,
          match current case Some(u) => u.email case None => GuestName)
  }

  /** The `map` over the stored users that appends the order to the history of
      every user with this email. */
  function AppendToHistory(users: seq<User>, email: string, order: Order): (r: seq<User>)
    ensures |r| == |users|
    ensures forall i :: 0 <= i < |users| && users[i].email == email ==>
              r[i] == users[i].(history := users[i].history + [order])
    ensures forall i :: 0 <= i < |users| && users[i].email != email ==> r[i] == users[i]
  {
    if users == [] then []
    else
      var head := if users[0].email == email then users[0].(history := users[0].history + [order]) else users[0];
      [head] + AppendToHistory(users[1..], email, order)
  }

  /** After confirmation: the order history for a logged-in user who asked
      for it, the home page otherwise. */
  function NextView(viewHistory: bool, current: Option<User>): (r: Route)
    ensures r == Dashboard <==> viewHistory && current.Some?
    ensures r != Dashboard ==> r == Home
  {
    if viewHistory && current.Some? then Dashboard else Home
  }

  /** Recording an order changes no stored email, so unique emails stay unique,
      and a user whose email is unique gains exactly that one order while
      every other user is left as it was. */
  lemma AppendToHistoryKeepsEmails(users: seq<User>, email: string, order: Order, k: nat)
    requires Gateway.EmailsUnique(users)
    requires k < |users| && users[k].email == email
    ensures Gateway.EmailsUnique(AppendToHistory(users, email, order))
    ensures forall i :: 0 <= i < |users| ==> AppendToHistory(users, email, order)[i].email == users[i].email
    ensures AppendToHistory(users, email, order)[k].history == users[k].history + [order]
    ensures forall i :: 0 <= i < |users| && i != k ==> AppendToHistory(users, email, order)[i] == users[i]
  {
    var r := AppendToHistory(users, email, order);
    forall i | 0 <= i < |users| && i != k ensures r[i] == users[i] {
      if i < k {
        assert users[i].email != users[k].email;
      } else {
        assert users[k].email != users[i].email;
      }
    }
  }

  /** Two records at 20.00 and one at 15.00 make an order of 55.00, and a
      single 30.00 record an order of 30.00: the total is the subtotal with no
      shipping fee on either side of 50.00. */
  lemma OrderTotalHasNoShippingFee(a: Product, b: Product, c: Product, id: int, s: ShippingData, date: string)
    requires a.id != b.id && a.price == 2000 && b.price == 1500 && c.price == 3000
    ensures var cart := CartOps.AddToCart(CartOps.AddToCart([], a, 2), b, 1);
            cart == [CartItem(a, 2), CartItem(b, 1)]
            && MakeOrder(id, s, cart, date, None).total == 5500
            && MakeOrder(id, s, cart, date, None).user == GuestName
    ensures MakeOrder(id, s, [CartItem(c, 1)], date, None).total == 3000
  {
    var cart := CartOps.AddToCart(CartOps.AddToCart([], a, 2), b, 1);
    assert [CartItem(a, 2)][1..] == [];
    assert cart == [CartItem(a, 2), CartItem(b, 1)];
    assert cart[1..] == [CartItem(b, 1)] && cart[1..][1..] == [];
    assert CartPage.LineTotalSum(cart[1..]) == 1500 + CartPage.LineTotalSum([]);
    assert CartPage.LineTotalSum(cart) == 4000 + CartPage.LineTotalSum(cart[1..]);
    assert [CartItem(c, 1)][1..] == [];
    assert CartPage.LineTotalSum([CartItem(c, 1)]) == 3000 + CartPage.LineTotalSum([]);
  }

  /** The page. The component re-reads the current user on every render, and its
      handler uses the last render's value; nothing on the page writes that key,
      so a single read at construction gives the same value. */
  class CheckoutPage {
    const currentUser: Option<User>
    var shipping: ShippingData

    constructor (store: Store)
      ensures currentUser == store.currentUser
      ensures shipping == Prefill(currentUser)
    {
      currentUser := store.currentUser;
      shipping := Prefill(store.currentUser);
    }

    /** `handleConfirmOrder`. `random` stands for `Math.random()`, `date` for
        the timestamp, `viewHistory` for the answer to the confirmation
        dialog. Returns the order record and the next view. */
    method ConfirmOrder(store: Store, random: real, date: string, viewHistory: bool)
      returns (order: Order, next: Route)
      requires 0.0 <= random < 1.0
      modifies store
      ensures order == MakeOrder(OrderId(random), shipping, OrEmpty(old(store.cart)), date, currentUser)
      ensures 100000 <= order.id <= 999999
      ensures store.cart == None
      ensures store.products == old(store.products)
      ensures currentUser.Some? ==>
                store.users == Some(AppendToHistory(OrEmpty(old(store.users)), currentUser.value.email, order))
                && store.currentUser == Some(currentUser.value.(history := currentUser.value.history + [order]))
      ensures currentUser.None? ==> store.users == old(store.users) && store.currentUser == old(store.currentUser)
      ensures next == NextView(viewHistory, currentUser)
    {
      var items := OrEmpty(store.cart);
      order := MakeOrder(OrderId(random), shipping, items, date, currentUser);
      if currentUser.Some? {
        var user := currentUser.value;
        var allUsers := OrEmpty(store.users);
        store.users := Some(AppendToHistory(allUsers, user.email, order));
        store.currentUser := Some(user.(history := user.history + [order]));
      }
      store.cart := None;
      next := NextView(viewHistory, currentUser);
    }
  }

  /** Confirmation followed by the page reload: the reloaded application is
      loaded afresh from the store, so it starts with the stored products and
      an empty cart, and the confirmation's changes to the users stay. */
  method ConfirmAndReload(page: CheckoutPage, store: Store, random: real, date: string, viewHistory: bool)
    returns (next: Route, app: Storefront.App)
    requires 0.0 <= random < 1.0
    modifies store
    ensures fresh(app) && app.store == store && app.Synced()
    ensures app.cart == [] && app.products == OrEmpty(old(store.products))
    ensures page.currentUser.Some? ==>
              var order := MakeOrder(OrderId(random), page.shipping, OrEmpty(old(store.cart)), date, page.currentUser);
              var user := page.currentUser.value;
              store.users == Some(AppendToHistory(OrEmpty(old(store.users)), user.email, order))
              && store.currentUser == Some(user.(history := user.history + [order]))
    ensures page.currentUser.None? ==>
              store.users == old(store.users) && store.currentUser == old(store.currentUser)
    ensures next == NextView(viewHistory, page.currentUser)
  {
    var order;
    order, next := page.ConfirmOrder(store, random, date, viewHistory);
    app := new Storefront.App(store);
  }
}
