/** The cart page (src/pages/Cart.tsx): the subtotal, the empty-bag branch, one
    line per entry with its total, and the requests its buttons send to the
    application root. No shipping fee is computed anywhere: the page shows the
    subtotal as the total and says shipping is calculated at checkout. */
module CartPage {
  import opened Store
  import opened CartOps

  /** A line's displayed total: unit price times quantity. */
  function LineTotal(item: CartItem): int
  {
    item.Price() * item.quantity
  }

  /** The `subtotal` `reduce`: line totals added from 0, left to right. */
  function Subtotal(cart: seq<CartItem>): int
  {
    SubtotalFrom(0, cart)
  }

  function SubtotalFrom(acc: int, cart: seq<CartItem>): int
    decreases cart
  {
    if cart == [] then acc else SubtotalFrom(acc + LineTotal(cart[0]), cart[1..])
  }

  /** Reference definition: the sum of price times quantity over the entries. */
  function LineTotalSum(cart: seq<CartItem>): int
  {
    if cart == [] then 0 else LineTotal(cart[0]) + LineTotalSum(cart[1..])
  }

  /** One rendered table row. */
  datatype Line = Line(id: int, name: string, unitPrice: int, quantity: int, total: int)

  /** What the page renders: the empty state, or the rows and the summary box. */
  datatype View =
    | EmptyBag
    | Bag(lines: seq<Line>, subtotal: int, total: int)

  function LineOf(item: CartItem): Line
  {
    Line(item.Id(), item.product.name, item.Price(), item.quantity, LineTotal(item))
  }

  function Render(cart: seq<CartItem>): (v: View)
    ensures v.EmptyBag? <==> cart == []
    ensures v.Bag? ==> |v.lines| == |cart|
    ensures v.Bag? ==> forall i :: 0 <= i < |cart| ==>
              v.lines[i].id == cart[i].Id() && v.lines[i].quantity == cart[i].quantity
              && v.lines[i].total == cart[i].Price() * cart[i].quantity
    ensures v.Bag? ==> v.subtotal == LineTotalSum(cart) && v.total == v.subtotal
  {
    if |cart| == 0 then EmptyBag
    else
      SubtotalIsSum(cart);
      Bag(seq(|cart|, i requires 0 <= i < |cart| => LineOf(cart[i])), Subtotal(cart), Subtotal(cart))
  }

  /** The "-" button of a row. */
  function MinusClicked(item: CartItem): CartAction
  {
    Update(item.Id(), item.quantity - 1)
  }

  /** The "+" button of a row. */
  function PlusClicked(item: CartItem): CartAction
  {
    Update(item.Id(), item.quantity + 1)
  }

  /** The "Remove" button of a row. */
  function RemoveClicked(item: CartItem): CartAction
  {
    Remove(item.Id())
  }

  lemma {:induction false} SubtotalFromIsSum(acc: int, cart: seq<CartItem>)
    ensures SubtotalFrom(acc, cart) == acc + LineTotalSum(cart)
    decreases cart
  {
    if cart != [] {
      SubtotalFromIsSum(acc + LineTotal(cart[0]), cart[1..]);
    }
  }

  /** The subtotal is the sum of price times quantity, and 0 for an empty cart. */
  lemma SubtotalIsSum(cart: seq<CartItem>)
    ensures Subtotal(cart) == LineTotalSum(cart)
    ensures cart == [] ==> Subtotal(cart) == 0
  {
    SubtotalFromIsSum(0, cart);
  }

  lemma {:induction false} LineTotalSumAppend(a: seq<CartItem>, b: seq<CartItem>)
    ensures LineTotalSum(a + b) == LineTotalSum(a) + LineTotalSum(b)
  {
    if a == [] {
      assert a + b == b;
    } else {
      assert (a + b)[1..] == a[1..] + b;
      LineTotalSumAppend(a[1..], b);
    }
  }

  /** Raising the quantity of an entry no other entry shares the id of adds
      `amount` times that entry's own price. */
  lemma {:induction false} LineTotalSumAddQuantity(cart: seq<CartItem>, k: nat, amount: int)
    requires Distinct(cart) && k < |cart|
    ensures LineTotalSum(AddQuantity(cart, cart[k].Id(), amount))
            == LineTotalSum(cart) + amount * cart[k].Price()
  {
    var id := cart[k].Id();
    var r := AddQuantity(cart, id, amount);
    assert r[1..] == AddQuantity(cart[1..], id, amount);
    if k == 0 {
      assert r[1..] == cart[1..];
      var q := cart[0].quantity;
      assert LineTotal(r[0]) == cart[0].Price() * (q + amount);
      assert cart[0].Price() * (q + amount) == cart[0].Price() * q + amount * cart[0].Price();
    } else {
      assert cart[1..][k - 1] == cart[k];
      LineTotalSumAddQuantity(cart[1..], k - 1, amount);
    }
  }

  /** The unit price `addToCart` charges for a product: the price stored in the
      cart's entry when there is one, else the product's own. */
  function ChargedPrice(cart: seq<CartItem>, product: Product): int
  {
    match Find(cart, product.id)
    case Some(item) => item.Price()
    case None => product.price
  }

  /** In a cart with distinct ids, adding `amount` of a product raises the
      subtotal by `amount` times the price charged for it. */
  lemma SubtotalAfterAdd(cart: seq<CartItem>, product: Product, amount: int)
    requires Distinct(cart)
    ensures Subtotal(AddToCart(cart, product, amount)) == Subtotal(cart) + amount * ChargedPrice(cart, product)
  {
    SubtotalIsSum(cart);
    SubtotalIsSum(AddToCart(cart, product, amount));
    if Contains(cart, product.id) {
      var k :| 0 <= k < |cart| && cart[k] == Find(cart, product.id).value && cart[k].Id() == product.id;
      LineTotalSumAddQuantity(cart, k, amount);
    } else {
      LineTotalSumAppend(cart, [CartItem(product, amount)]);
    }
  }

  /** "-" on a row whose quantity is 1 leaves the cart as it is. */
  lemma MinusAtOneKeepsCart(cart: seq<CartItem>, item: CartItem)
    requires item.quantity == 1
    ensures Apply(cart, MinusClicked(item)) == cart
  {
  }

  /** "-" and "+" on a row of a cart with distinct ids lower or raise that
      row's quantity by one, down to 1 and no further. */
  lemma StepButtonsMoveByOne(cart: seq<CartItem>, k: nat)
    requires Distinct(cart) && k < |cart| && cart[k].quantity >= 1
    ensures var down := Apply(cart, MinusClicked(cart[k]));
            |down| == |cart| && down[k].quantity == (if cart[k].quantity == 1 then 1 else cart[k].quantity - 1)
    ensures var up := Apply(cart, PlusClicked(cart[k]));
            |up| == |cart| && up[k].quantity == cart[k].quantity + 1
    ensures forall j :: 0 <= j < |cart| && j != k ==>
              Apply(cart, MinusClicked(cart[k]))[j] == cart[j] && Apply(cart, PlusClicked(cart[k]))[j] == cart[j]
  {
  }

  /** "Remove" drops exactly that row's product from the cart. */
  lemma RemoveButtonDropsRow(cart: seq<CartItem>, item: CartItem)
    ensures !Contains(Apply(cart, RemoveClicked(item)), item.Id())
    ensures forall x :: x in cart && x.Id() != item.Id() ==> x in Apply(cart, RemoveClicked(item))
  {
  }
}
