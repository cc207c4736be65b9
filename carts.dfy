/** Shopping carts (`Cart` and `CartItem` in shop/models.py): totals at the products' live
    prices, and the stock check of `CartItem.clean`. */
module Carts {
  import opened Base
  import opened Catalog

  /** The `ValidationError` of `CartItem.clean`: the product and the units it has. */
  datatype CartShortage = CartShortage(product: string, available: int)

  /** One product in a cart, with the number of units wanted. */
  datatype CartItem = CartItem(product: Product, quantity: int) {

    /** `total_price`: the product's current price times the units wanted. */
    function TotalPrice(): (r: int)
      ensures quantity == 0 ==> r == 0
      ensures quantity == 1 ==> r == product.price
      ensures product.price >= 0 && quantity >= 0 ==> r >= 0
    {
      product.price * quantity
    }

    /** `clean`: refuses more units than the product has in stock. */
    function Clean(): (r: Option<CartShortage>)
      reads product
      ensures r == None <==> quantity <= product.quantity
      ensures r.Some? ==> r.value == CartShortage(product.name, product.quantity)
    {
      if quantity > product.quantity then Some(CartShortage(product.name, product.quantity)) else None
    }
  }

  /** A cart belongs to a customer (`user`) or to an anonymous session (`sessionKey`). */
  datatype Cart = Cart(id: nat, user: Option<nat>, sessionKey: Option<string>, items: seq<CartItem>)

  /** `total_amount`: the sum of the items' `total_price`. */
  function TotalAmount(items: seq<CartItem>): (r: int)
    ensures items == [] ==> r == 0
    ensures |items| == 1 ==> r == items[0].TotalPrice()
    ensures (forall i :: 0 <= i < |items| ==> items[i].TotalPrice() >= 0) ==> r >= 0
  {
    if items == [] then 0 else TotalAmount(items[..|items| - 1]) + items[|items| - 1].TotalPrice()
  }

  /** `total_quantity`: the sum of the items' units. */
  function TotalQuantity(items: seq<CartItem>): (r: int)
    ensures items == [] ==> r == 0
    ensures |items| == 1 ==> r == items[0].quantity
    ensures (forall i :: 0 <= i < |items| ==> items[i].quantity >= 0) ==>
              forall i :: 0 <= i < |items| ==> 0 <= items[i].quantity <= r
  {
    if items == [] then 0 else TotalQuantity(items[..|items| - 1]) + items[|items| - 1].quantity
  }

  /** Both totals add up over a cart split in two. */
  lemma {:induction false} TotalsAppend(a: seq<CartItem>, b: seq<CartItem>)
    ensures TotalAmount(a + b) == TotalAmount(a) + TotalAmount(b)
    ensures TotalQuantity(a + b) == TotalQuantity(a) + TotalQuantity(b)
  {
    if b == [] {
      assert a + b == a;
    } else {
      assert (a + b)[..|a + b| - 1] == a + b[..|b| - 1];
      TotalsAppend(a, b[..|b| - 1]);
    }
  }

  /** With prices and quantities that `clean` accepts, the amount is never negative, and a
      cart whose items each hold at least one unit holds at least as many units as items. */
  lemma {:induction false} TotalsBounds(items: seq<CartItem>)
    requires forall i :: 0 <= i < |items| ==> items[i].product.price >= 0 && items[i].quantity >= 1
    ensures TotalAmount(items) >= 0
    ensures TotalQuantity(items) >= |items|
  {
    if items != [] {
      TotalsBounds(items[..|items| - 1]);
    }
  }

  /** An active product is `available` exactly when one unit of it passes `CartItem.clean`. */
  lemma AvailableIffOneUnitFits(p: Product)
    requires p.isActive
    ensures p.Available() <==> CartItem(p, 1).Clean() == None
  {
  }
}
