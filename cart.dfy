/** The shopping cart both point-of-sale screens build before a sale or an
    order: adding a product, changing a quantity, and the cart total. */
module Cart {
  import opened Base
  import opened Entities

  /** `{ ...product, qty }`: the product as it was when added, and a quantity. */
  datatype CartItem = CartItem(product: Product, qty: int)

  predicate InCart(cart: seq<CartItem>, id: Id) {
    exists i :: 0 <= i < |cart| && cart[i].product.id == id
  }

  /** No product appears twice. */
  predicate UniqueIds(cart: seq<CartItem>) {
    forall i, j :: 0 <= i < j < |cart| ==> cart[i].product.id != cart[j].product.id
  }

  /** What the screens keep true of their cart: distinct products, each at least once. */
  predicate WellFormed(cart: seq<CartItem>) {
    UniqueIds(cart) && forall i :: 0 <= i < |cart| ==> cart[i].qty >= 1
  }

  /** `addToCart`: an item already in the cart gets one more unit, otherwise
      the product is appended with quantity 1. */
  function AddToCart(cart: seq<CartItem>, p: Product): seq<CartItem> {
    if InCart(cart, p.id) then
      seq(|cart|, i requires 0 <= i < |cart| =>
        if cart[i].product.id == p.id then cart[i].(qty := cart[i].qty + 1) else cart[i])
    else
      cart + [CartItem(p, 1)]
  }

  /** `updateQuantity`: the matching item's quantity moves by `delta` but never below 1. */
  function UpdateQuantity(cart: seq<CartItem>, id: Id, delta: int): seq<CartItem> {
    seq(|cart|, i requires 0 <= i < |cart| =>
      if cart[i].product.id == id then cart[i].(qty := Max1(cart[i].qty + delta)) else cart[i])
  }

  function Max1(n: int): int {
    if n < 1 then 1 else n
  }

  function LineAmount(item: CartItem): Money {
    item.product.price * item.qty
  }

  /** `cart.reduce((acc, item) => acc + price * qty, 0)`. */
  function Total(cart: seq<CartItem>): Money {
    SumOf(cart, LineAmount)
  }

  /** Adding a product that is already in the cart raises exactly its
      quantity by one: same length, same order, every other item unchanged. */
  lemma AddExisting(cart: seq<CartItem>, p: Product, k: nat)
    requires UniqueIds(cart)
    requires k < |cart| && cart[k].product.id == p.id
    ensures AddToCart(cart, p) == cart[k := cart[k].(qty := cart[k].qty + 1)]
  {
    var r := AddToCart(cart, p);
    assert InCart(cart, p.id);
    forall i | 0 <= i < |cart|
      ensures r[i] == cart[k := cart[k].(qty := cart[k].qty + 1)][i]
    {
      if i != k {
        assert cart[i].product.id != p.id;
      }
    }
  }

  /** Adding a product that is not in the cart appends one item with quantity 1. */
  lemma AddNew(cart: seq<CartItem>, p: Product)
    requires !InCart(cart, p.id)
    ensures AddToCart(cart, p) == cart + [CartItem(p, 1)]
    ensures |AddToCart(cart, p)| == |cart| + 1
  {
  }

  /** Adding keeps the cart well formed. */
  lemma AddWellFormed(cart: seq<CartItem>, p: Product)
    requires WellFormed(cart)
    ensures WellFormed(AddToCart(cart, p))
    ensures InCart(AddToCart(cart, p), p.id)
  {
    var r := AddToCart(cart, p);
    if InCart(cart, p.id) {
      var k :| 0 <= k < |cart| && cart[k].product.id == p.id;
      AddExisting(cart, p, k);
      assert r[k].product.id == p.id;
    } else {
      assert r[|cart|].product.id == p.id;
    }
  }

  /** The total grows by the price of the unit added: the price the cart
      item already carries when the product was in the cart, else the product's. */
  lemma {:induction false} TotalAfterAdd(cart: seq<CartItem>, p: Product)
    requires UniqueIds(cart)
    ensures forall k :: 0 <= k < |cart| && cart[k].product.id == p.id ==>
              Total(AddToCart(cart, p)) == Total(cart) + cart[k].product.price
    ensures !InCart(cart, p.id) ==> Total(AddToCart(cart, p)) == Total(cart) + p.price
  {
    if InCart(cart, p.id) {
      var k :| 0 <= k < |cart| && cart[k].product.id == p.id;
      AddExisting(cart, p, k);
      SumOfUpdate(cart, k, cart[k].(qty := cart[k].qty + 1), LineAmount);
      assert LineAmount(cart[k].(qty := cart[k].qty + 1)) == LineAmount(cart[k]) + cart[k].product.price;
    } else {
      SumOfAppend(cart, [CartItem(p, 1)], LineAmount);
      assert SumOf([CartItem(p, 1)], LineAmount) == p.price;
    }
  }

  /** `updateQuantity` changes only the item with that id, keeps the order,
      and sets its quantity to qty + delta, or to 1 when that would fall below 1. */
  lemma UpdateOnlyMatching(cart: seq<CartItem>, id: Id, delta: int)
    ensures |UpdateQuantity(cart, id, delta)| == |cart|
    ensures forall i :: 0 <= i < |cart| && cart[i].product.id != id ==>
              UpdateQuantity(cart, id, delta)[i] == cart[i]
    ensures forall i :: 0 <= i < |cart| && cart[i].product.id == id ==>
              UpdateQuantity(cart, id, delta)[i].product == cart[i].product &&
              UpdateQuantity(cart, id, delta)[i].qty >= 1 &&
              (cart[i].qty + delta >= 1 ==> UpdateQuantity(cart, id, delta)[i].qty == cart[i].qty + delta) &&
              (cart[i].qty + delta < 1 ==> UpdateQuantity(cart, id, delta)[i].qty == 1)
  {
  }

  /** Updating a quantity keeps the cart well formed. */
  lemma UpdateWellFormed(cart: seq<CartItem>, id: Id, delta: int)
    requires WellFormed(cart)
    ensures WellFormed(UpdateQuantity(cart, id, delta))
  {
    var r := UpdateQuantity(cart, id, delta);
    assert forall i :: 0 <= i < |r| ==> r[i].product == cart[i].product;
  }

  /** After an update the total moves by the item's price times the change in its quantity. */
  lemma {:induction false} TotalAfterUpdate(cart: seq<CartItem>, k: nat, delta: int)
    requires UniqueIds(cart) && k < |cart|
    ensures Total(UpdateQuantity(cart, cart[k].product.id, delta)) ==
            Total(cart) + cart[k].product.price * (Max1(cart[k].qty + delta) - cart[k].qty)
  {
    var id := cart[k].product.id;
    var x := cart[k].(qty := Max1(cart[k].qty + delta));
    assert UpdateQuantity(cart, id, delta) == cart[k := x];
    SumOfUpdate(cart, k, x, LineAmount);
  }

  /** The empty cart totals 0; a cart of items with non-negative prices totals at least 0. */
  lemma TotalBounds(cart: seq<CartItem>)
    requires forall i :: 0 <= i < |cart| ==> cart[i].product.price >= 0 && cart[i].qty >= 1
    ensures Total([]) == 0
    ensures Total(cart) >= 0
  {
    SumOfNonNegative(cart, LineAmount);
  }
}
