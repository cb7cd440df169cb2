/** What the cart operations of src/App.tsx guarantee, alone and in sequence. */
module CartProperties {
  import opened Store
  import opened CartOps

  lemma AddKeepsDistinct(cart: seq<CartItem>, product: Product, amount: int)
    requires Distinct(cart)
    ensures Distinct(AddToCart(cart, product, amount))
  {
  }

  lemma {:induction false} RemoveKeepsDistinct(cart: seq<CartItem>, id: int)
    requires Distinct(cart)
    ensures Distinct(RemoveFromCart(cart, id))
  {
    if cart != [] && cart[0].Id() != id {
      var rest := RemoveFromCart(cart[1..], id);
      RemoveKeepsDistinct(cart[1..], id);
      assert forall x :: x in rest ==> x in cart[1..];
      assert RemoveFromCart(cart, id) == [cart[0]] + rest;
    } else if cart != [] {
      RemoveKeepsDistinct(cart[1..], id);
    }
  }

  /** Removal keeps the other entries in their original order: it distributes
      over concatenation, and a cart without the id is left as it is. */
  lemma {:induction false} RemoveKeepsOrder(a: seq<CartItem>, b: seq<CartItem>, id: int)
    ensures RemoveFromCart(a + b, id) == RemoveFromCart(a, id) + RemoveFromCart(b, id)
  {
    if a == [] {
      assert a + b == b;
    } else {
      assert (a + b)[1..] == a[1..] + b;
      RemoveKeepsOrder(a[1..], b, id);
    }
  }

  lemma UpdateKeepsDistinct(cart: seq<CartItem>, id: int, q: int)
    requires Distinct(cart)
    ensures Distinct(UpdateQuantity(cart, id, q))
  {
  }

  /** Adding `q1` then `q2` of a product is adding `q1 + q2` once. */
  lemma AddTwiceMerges(cart: seq<CartItem>, product: Product, q1: int, q2: int)
    ensures AddToCart(AddToCart(cart, product, q1), product, q2) == AddToCart(cart, product, q1 + q2)
  {
    var once := AddToCart(cart, product, q1);
    var twice := AddToCart(once, product, q2);
    var merged := AddToCart(cart, product, q1 + q2);
    if Contains(cart, product.id) {
      var k :| 0 <= k < |cart| && cart[k].Id() == product.id;
      assert once[k].Id() == product.id;
      assert |twice| == |merged|;
      forall i | 0 <= i < |twice| ensures twice[i] == merged[i] {
      }
    } else {
      assert once[|cart|].Id() == product.id;
      assert |twice| == |merged|;
      forall i | 0 <= i < |twice| ensures twice[i] == merged[i] {
      }
    }
  }

  /** For a product not yet in the cart, two adds leave one new entry, at the
      end, holding the sum of the two amounts. */
  lemma AddTwiceToAbsent(cart: seq<CartItem>, product: Product, q1: int, q2: int)
    requires !Contains(cart, product.id)
    ensures AddToCart(AddToCart(cart, product, q1), product, q2) == cart + [CartItem(product, q1 + q2)]
    ensures CountId(AddToCart(AddToCart(cart, product, q1), product, q2), product.id) == 1
  {
    AddTwiceMerges(cart, product, q1, q2);
    CountAppend(cart, [CartItem(product, q1 + q2)], product.id);
    CountAbsent(cart, product.id);
  }

  lemma {:induction false} CountAppend(a: seq<CartItem>, b: seq<CartItem>, id: int)
    ensures CountId(a + b, id) == CountId(a, id) + CountId(b, id)
  {
    if a != [] {
      assert (a + b)[1..] == a[1..] + b;
      CountAppend(a[1..], b, id);
    } else {
      assert a + b == b;
    }
  }

  lemma {:induction false} CountAbsent(cart: seq<CartItem>, id: int)
    requires !Contains(cart, id)
    ensures CountId(cart, id) == 0
  {
    if cart != [] {
      CountAbsent(cart[1..], id);
    }
  }

  /** In a cart with distinct ids, an id that is present occurs exactly once. */
  lemma {:induction false} CountDistinct(cart: seq<CartItem>, id: int)
    requires Distinct(cart) && Contains(cart, id)
    ensures CountId(cart, id) == 1
  {
    if cart[0].Id() == id {
      CountAbsent(cart[1..], id);
    } else {
      var k :| 0 <= k < |cart| && cart[k].Id() == id;
      assert cart[1..][k - 1].Id() == id;
      CountDistinct(cart[1..], id);
    }
  }

  /** Quantities stay at least one when every added amount is at least one. */
  lemma AddKeepsPositive(cart: seq<CartItem>, product: Product, amount: int)
    requires AllPositive(cart) && amount >= 1
    ensures AllPositive(AddToCart(cart, product, amount))
  {
  }

  lemma {:induction false} RemoveKeepsPositive(cart: seq<CartItem>, id: int)
    requires AllPositive(cart)
    ensures AllPositive(RemoveFromCart(cart, id))
  {
    var r := RemoveFromCart(cart, id);
    forall i | 0 <= i < |r| ensures r[i].quantity >= 1 {
      assert r[i] in cart;
    }
  }

  lemma UpdateKeepsPositive(cart: seq<CartItem>, id: int, q: int)
    requires AllPositive(cart)
    ensures AllPositive(UpdateQuantity(cart, id, q))
  {
  }

  /** Every sequence of adds, removals and quantity updates keeps at most one
      entry per product id. */
  lemma {:induction false} ActionsKeepDistinct(cart: seq<CartItem>, actions: seq<CartAction>)
    requires Distinct(cart)
    ensures Distinct(ApplyAll(cart, actions))
    decreases |actions|
  {
    if actions != [] {
      var next := Apply(cart, actions[0]);
      match actions[0] {
        case Add(p, amount) => AddKeepsDistinct(cart, p, amount);
        case Remove(id) => RemoveKeepsDistinct(cart, id);
        case Update(id, q) => UpdateKeepsDistinct(cart, id, q);
      }
      ActionsKeepDistinct(next, actions[1..]);
    }
  }

  /** Every add in the sequence has an amount of at least one. */
  predicate AmountsPositive(actions: seq<CartAction>)
  {
    forall i :: 0 <= i < |actions| && actions[i].Add? ==> actions[i].amount >= 1
  }

  /** With positive amounts, every sequence of changes keeps every quantity at least one. */
  lemma {:induction false} ActionsKeepPositive(cart: seq<CartItem>, actions: seq<CartAction>)
    requires AllPositive(cart) && AmountsPositive(actions)
    ensures AllPositive(ApplyAll(cart, actions))
    decreases |actions|
  {
    if actions != [] {
      var next := Apply(cart, actions[0]);
      match actions[0] {
        case Add(p, amount) => AddKeepsPositive(cart, p, amount);
        case Remove(id) => RemoveKeepsPositive(cart, id);
        case Update(id, q) => UpdateKeepsPositive(cart, id, q);
      }
      assert AmountsPositive(actions[1..]) by {
        forall i | 0 <= i < |actions[1..]| && actions[1..][i].Add?
          ensures actions[1..][i].amount >= 1
        {
          assert actions[1..][i] == actions[i + 1];
        }
      }
      ActionsKeepPositive(next, actions[1..]);
    }
  }

  /** The left-to-right `reduce` computes the sum of the quantities. */
  lemma {:induction false} SumQuantitiesFromIsSum(acc: int, cart: seq<CartItem>)
    ensures SumQuantitiesFrom(acc, cart) == acc + QuantitySum(cart)
    decreases cart
  {
    if cart != [] {
      SumQuantitiesFromIsSum(acc + cart[0].quantity, cart[1..]);
    }
  }

  /** `totalCartItems` is the sum of the quantities, and 0 for an empty cart. */
  lemma TotalCartItemsIsSum(cart: seq<CartItem>)
    ensures TotalCartItems(cart) == QuantitySum(cart)
    ensures cart == [] ==> TotalCartItems(cart) == 0
  {
    SumQuantitiesFromIsSum(0, cart);
  }

  lemma {:induction false} QuantitySumAppend(a: seq<CartItem>, b: seq<CartItem>)
    ensures QuantitySum(a + b) == QuantitySum(a) + QuantitySum(b)
  {
    if a != [] {
      assert (a + b)[1..] == a[1..] + b;
      QuantitySumAppend(a[1..], b);
    } else {
      assert a + b == b;
    }
  }

  /** Adding to every entry with the id raises the sum by the amount once per such entry. */
  lemma {:induction false} QuantitySumAddQuantity(cart: seq<CartItem>, id: int, amount: int)
    ensures QuantitySum(AddQuantity(cart, id, amount)) == QuantitySum(cart) + amount * CountId(cart, id)
  {
    if cart != [] {
      var r := AddQuantity(cart, id, amount);
      assert r[1..] == AddQuantity(cart[1..], id, amount);
      QuantitySumAddQuantity(cart[1..], id, amount);
    }
  }

  /** In a cart with distinct ids, adding `amount` of a product raises the item count by `amount`. */
  lemma TotalAfterAdd(cart: seq<CartItem>, product: Product, amount: int)
    requires Distinct(cart)
    ensures TotalCartItems(AddToCart(cart, product, amount)) == TotalCartItems(cart) + amount
  {
    TotalCartItemsIsSum(cart);
    TotalCartItemsIsSum(AddToCart(cart, product, amount));
    if Contains(cart, product.id) {
      QuantitySumAddQuantity(cart, product.id, amount);
      CountDistinct(cart, product.id);
    } else {
      QuantitySumAppend(cart, [CartItem(product, amount)]);
    }
  }
}
