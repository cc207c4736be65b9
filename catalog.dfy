/** Products of the catalog (`Product` in shop/models.py) and the values derived from them.
    Money is in integer cents: the source's decimal columns have two places. */
module Catalog {
  import opened Base

  function Abs(x: int): nat {
    if x < 0 then -x else x
  }

  /** Integer division truncated toward zero, which is what Python's `int()` does to a
      quotient (Dafny's own `/` rounds toward negative infinity for a negative divisor). */
  function TruncDiv(a: int, b: int): (q: int)
    requires b != 0
    ensures Abs(q) * Abs(b) <= Abs(a) < (Abs(q) + 1) * Abs(b)
    ensures q > 0 ==> (a > 0 <==> b > 0)
    ensures q < 0 ==> (a > 0 <==> b < 0)
  {
    var m := Abs(a) / Abs(b);
    if (a >= 0) == (b > 0) then m else -m
  }

  /** Why `Product.clean` refuses a product; the quantity is checked first. */
  datatype ProductError = NegativeQuantity | NegativePrice

  /** A catalog product.  Only the stock `quantity` changes in the operations modelled here;
      `price` and `oldPrice` are in cents, `oldPrice` is `None` when the column is null. */
  class Product {
    const name: string
    const price: int
    const oldPrice: Option<int>
    const isActive: bool
    var quantity: int

    constructor (name: string, price: int, oldPrice: Option<int>, isActive: bool, quantity: int)
      ensures this.name == name && this.price == price && this.oldPrice == oldPrice
      ensures this.isActive == isActive && this.quantity == quantity
    {
      this.name := name;
      this.price := price;
      this.oldPrice := oldPrice;
      this.isActive := isActive;
      this.quantity := quantity;
    }

    /** `available`: the product is on sale and has at least one unit in stock. */
    predicate Available()
      reads this
      ensures Available() <==> isActive && quantity >= 1
    {
      isActive && quantity > 0
    }

    /** `has_discount` is `old_price and old_price > price`: a null or zero old price is falsy. */
    predicate HasDiscount()
      ensures HasDiscount() ==> oldPrice.Some? && price < oldPrice.value
      ensures oldPrice == None || oldPrice == Some(0) ==> !HasDiscount()
      ensures oldPrice.Some? && oldPrice.value != 0 ==> (HasDiscount() <==> price < oldPrice.value)
    {
      oldPrice.Some? && oldPrice.value != 0 && oldPrice.value > price
    }

    /** `discount_percent`: `int((1 - price / old_price) * 100)` for a discounted product, else 0.
        The ratio of two cent amounts is the ratio of the decimals, so the percentage is
        `100 * (old - price) / old` truncated toward zero. */
    function DiscountPercent(): (r: int)
      ensures !HasDiscount() ==> r == 0
      ensures HasDiscount() ==> r == TruncDiv(100 * (oldPrice.value - price), oldPrice.value)
      ensures HasDiscount() && oldPrice.value < 0 ==> r <= 0
      ensures HasDiscount() && oldPrice.value > 0 ==>
                r * oldPrice.value <= 100 * (oldPrice.value - price) < (r + 1) * oldPrice.value
      ensures HasDiscount() && price >= 0 ==> 0 <= r <= 100 && (r == 100 <==> price == 0)
    {
      if HasDiscount() then
        var prior := oldPrice.value;
        var q := TruncDiv(100 * (prior - price), prior);
        DiscountBounds(prior, price, q);
        q
      else 0
    }

    /** `clean`: the first of "negative quantity", "negative price" that holds, if any. */
    function Clean(): (r: Option<ProductError>)
      reads this
      ensures r == None <==> quantity >= 0 && price >= 0
      ensures r == Some(NegativeQuantity) <==> quantity < 0
    {
      if quantity < 0 then Some(NegativeQuantity)
      else if price < 0 then Some(NegativePrice)
      else None
    }
  }

  /** Scaling by a positive factor keeps the order of two integers. */
  lemma ScaleOrder(x: int, y: int, c: int)
    requires c > 0
    ensures x <= y <==> x * c <= y * c
  {
    if x <= y {
      assert y * c - x * c == (y - x) * c;
    } else {
      assert x * c - y * c == (x - y) * c;
    }
  }

  /** The truncated percentage of a discount from `prior` down to `price`. */
  lemma DiscountBounds(prior: int, price: int, q: int)
    requires prior != 0 && prior > price
    requires q == TruncDiv(100 * (prior - price), prior)
    ensures prior > 0 ==> q * prior <= 100 * (prior - price) < (q + 1) * prior
    ensures price >= 0 ==> 0 <= q <= 100 && (q == 100 <==> price == 0)
  {
    var a := 100 * (prior - price);
    if prior > 0 {
      assert a > 0 && q >= 0;
      assert Abs(q) == q && Abs(prior) == prior && Abs(a) == a;
      assert q * prior <= a < (q + 1) * prior;
      if price >= 0 {
        assert a == 100 * prior - 100 * price;
        ScaleOrder(q, 100, prior);
        ScaleOrder(q + 1, 100, prior);
      }
    }
  }

  /** A product that passes `clean` and is discounted has a percentage between 0 and 100. */
  lemma CleanDiscountInRange(p: Product)
    requires p.Clean() == None
    ensures 0 <= p.DiscountPercent() <= 100
  {
  }
}
