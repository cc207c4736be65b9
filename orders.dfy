/** Orders (`Order` and `OrderItem` in shop/models.py): the status change with its stock
    bookkeeping and Telegram notices, the order's `save` and the item's price capture.

    The database is replaced by the objects themselves: an order holds its items, an item
    holds its product, and `product.save()` is the in-place update of `quantity`.  Two items
    of one order may hold the same product; each stock check then sees what the earlier
    items left, as the source's sequence of reads and saves does.  The Telegram messages are
    recorded, by kind, in the ghost log of a `Notifier`. */
module Orders {
  import opened Base
  import opened Stock
  import opened Catalog
  import opened Customers
  import Carts

  const StatusNew: string := "new"
  const StatusConfirmed: string := "confirmed"
  const StatusCancelled: string := "cancelled"

  /** A Telegram message, reduced to its kind and the order it is about. */
  datatype Notice = OrderConfirmed(orderId: nat) | OrderCancelled(orderId: nat) | NewOrder(orderId: nat)

  /** The Telegram channel.  `sent` records every message handed over for delivery; the HTTP
      call, the credentials lookup and the swallowed delivery errors are not modelled. */
  class Notifier {
    ghost var sent: seq<Notice>

    constructor ()
      ensures sent == []
    {
      sent := [];
    }

    method Send(n: Notice)
      modifies this
      ensures sent == old(sent) + [n]
    {
      sent := sent + [n];
    }
  }

  /** The `ValidationError` of a confirmation: the product, its units in stock, the units asked. */
  datatype Shortage = Shortage(product: string, inStock: int, requested: int)

  /** One line of an order.  `price` (cents) is the price at the time of the order, `saved`
      whether the row has been stored (has a primary key). */
  datatype OrderItem = OrderItem(product: Product, quantity: int, price: int, saved: bool)
  {
    /** `total_price`: the captured price times the units. */
    function TotalPrice(): (r: int)
      ensures quantity == 0 ==> r == 0
      ensures quantity == 1 ==> r == price
      ensures price >= 0 && quantity >= 0 ==> r >= 0
    {
      price * quantity
    }

    /** `save`: the first save captures the product's current price; later saves keep it. */
    function Save(): (r: OrderItem)
      ensures r.saved && r.product == product && r.quantity == quantity
      ensures saved ==> r == this
      ensures !saved ==> r.price == product.price
    {
      if saved then this else OrderItem(product, quantity, product.price, true)
    }
  }

  /** Saving an item twice is saving it once: the price is captured at the first save only. */
  lemma SaveIdempotent(item: OrderItem)
    ensures item.Save().Save() == item.Save()
    ensures item.Save().TotalPrice() == item.Save().product.price * item.quantity || item.saved
  {
  }

  /** The stock lines of a sequence of items. */
  function LinesOf(items: seq<OrderItem>): (r: seq<Line<Product>>)
    ensures |r| == |items|
    ensures forall i :: 0 <= i < |items| ==> r[i] == Line(items[i].product, items[i].quantity)
  {
    seq(|items|, i requires 0 <= i < |items| => Line(items[i].product, items[i].quantity))
  }

  /** The products a sequence of items refers to. */
  ghost function ProductsOf(items: seq<OrderItem>): set<Product> {
    set j | 0 <= j < |items| :: items[j].product
  }

  /** The current stock of a set of products. */
  ghost function StockOf(ps: set<Product>): (m: map<Product, int>)
    reads ps
    ensures m.Keys == ps
  {
    map p | p in ps :: p.quantity
  }

  /** The sum of the items' `total_price`. */
  function ItemsTotal(items: seq<OrderItem>): (r: int)
    ensures items == [] ==> r == 0
    ensures |items| == 1 ==> r == items[0].price * items[0].quantity
    ensures (forall i :: 0 <= i < |items| ==> items[i].price >= 0 && items[i].quantity >= 0) ==>
              forall i :: 0 <= i < |items| ==> 0 <= items[i].TotalPrice() <= r
  {
    if items == [] then 0 else ItemsTotal(items[..|items| - 1]) + items[|items| - 1].TotalPrice()
  }

  /** The order total adds up over items split in two. */
  lemma {:induction false} ItemsTotalAppend(a: seq<OrderItem>, b: seq<OrderItem>)
    ensures ItemsTotal(a + b) == ItemsTotal(a) + ItemsTotal(b)
  {
    if b != [] {
      assert (a + b)[..|a + b| - 1] == a + b[..|b| - 1];
      ItemsTotalAppend(a, b[..|b| - 1]);
    } else {
      assert a + b == a;
    }
  }

  /** The error a confirmation raises when it stops at line `k`. */
  function ShortageAt(stock: map<Product, int>, lines: seq<Line<Product>>, k: nat): Shortage
    requires Covers(stock, lines) && k < |lines|
  {
    Shortage(lines[k].product.name, Take(stock, lines[..k])[lines[k].product], lines[k].qty)
  }

  /** Each item's product holds its units of `s0` less (`sign` -1) or plus (`sign` 1) what the
      first `i` lines ask for. */
  ghost predicate Walked(items: seq<OrderItem>, s0: map<Product, int>, lines: seq<Line<Product>>, i: nat, sign: int)
    reads ProductsOf(items)
    requires |lines| == |items| && Covers(s0, lines) && i <= |lines|
  {
    forall j :: 0 <= j < |items| ==> items[j].product.quantity == s0[lines[j].product] + sign * QtyFor(lines[..i], lines[j].product)
  }

  /** Read back as a stock table, a walk over the first `k` lines is `Take` (or `Give`) of them. */
  lemma WalkedStock(items: seq<OrderItem>, s0: map<Product, int>, lines: seq<Line<Product>>, k: nat, sign: int)
    requires lines == LinesOf(items) && s0.Keys == ProductsOf(items) && k <= |lines|
    requires sign == -1 || sign == 1
    requires Walked(items, s0, lines, k, sign)
    ensures Covers(s0, lines[..k])
    ensures sign == -1 ==> StockOf(ProductsOf(items)) == Take(s0, lines[..k])
    ensures sign == 1 ==> StockOf(ProductsOf(items)) == Give(s0, lines[..k])
  {
    var m := StockOf(ProductsOf(items));
    forall p | p in s0
      ensures m[p] == s0[p] + sign * QtyFor(lines[..k], p)
    {
      var j :| 0 <= j < |items| && items[j].product == p;
      assert lines[j].product == p;
    }
    forall p | p in s0
      ensures sign == -1 ==> m[p] == Take(s0, lines[..k])[p]
      ensures sign == 1 ==> m[p] == Give(s0, lines[..k])[p]
    {
      TakeAt(s0, lines[..k], p);
      GiveAt(s0, lines[..k], p);
    }
  }

  /** One step of the confirmation walk: the check of item `i`, then, if it passes, the
      item's units taken from its product and a "confirmed" notice sent. */
  method ConfirmItem(items: seq<OrderItem>, id: nat, bot: Notifier, ghost s0: map<Product, int>,
                     ghost lines: seq<Line<Product>>, i: nat, ghost sent0: seq<Notice>) returns (err: Option<Shortage>)
    requires lines == LinesOf(items) && Covers(s0, lines) && i < |lines|
    requires Covers(s0, lines[..i]) && Fits(s0, lines[..i]) && Walked(items, s0, lines, i, -1)
    requires bot.sent == sent0 + Repeat(OrderConfirmed(id), i)
    modifies items[i].product, bot
    ensures err.Some? ==>
      && ShortAt(s0, lines, i) && err == Some(ShortageAt(s0, lines, i))
      && unchanged(items[i].product, bot)
    ensures err.None? ==>
      && Covers(s0, lines[..i + 1]) && Fits(s0, lines[..i + 1]) && Walked(items, s0, lines, i + 1, -1)
      && bot.sent == sent0 + Repeat(OrderConfirmed(id), i + 1)
  {
    var item := items[i];
    FitsStep(s0, lines, i);
    if item.quantity > item.product.quantity {
      return Some(Shortage(item.product.name, item.product.quantity, item.quantity));
    }
    assert lines[..i + 1][..i] == lines[..i];
    item.product.quantity := item.product.quantity - item.quantity;
    bot.Send(OrderConfirmed(id));
    assert sent0 + Repeat(OrderConfirmed(id), i + 1) == sent0 + Repeat(OrderConfirmed(id), i) + [OrderConfirmed(id)];
    return None;
  }

  /** The confirmation walk over `items`: it stops at the first line that does not fit (`k`),
      with the lines before it taken and their notices sent, or takes every line
      (`k == |lines|`).  Only the items' own products change. */
  method ConfirmItems(items: seq<OrderItem>, id: nat, bot: Notifier,
                      ghost s0: map<Product, int>, ghost lines: seq<Line<Product>>) returns (err: Option<Shortage>, ghost k: nat)
    requires lines == LinesOf(items) && Covers(s0, lines) && Walked(items, s0, lines, 0, -1)
    modifies ProductsOf(items), bot
    ensures k <= |lines| && Covers(s0, lines[..k]) && Fits(s0, lines[..k]) && Walked(items, s0, lines, k, -1)
    ensures bot.sent == old(bot.sent) + Repeat(OrderConfirmed(id), k)
    ensures err == None <==> k == |lines|
    ensures err.Some? ==> ShortAt(s0, lines, k) && err == Some(ShortageAt(s0, lines, k))
  {
    ghost var sent0 := bot.sent;
    var i := 0;
    while i < |items|
      invariant 0 <= i <= |items|
      invariant Covers(s0, lines[..i]) && Fits(s0, lines[..i]) && Walked(items, s0, lines, i, -1)
      invariant bot.sent == sent0 + Repeat(OrderConfirmed(id), i)
    {
      assert items[i].product in ProductsOf(items);
      err := ConfirmItem(items, id, bot, s0, lines, i, sent0);
      if err.Some? {
        return err, i;
      }
      i := i + 1;
    }
    return None, i;
  }

  /** The cancellation walk over `items`: every item's units go back to its product, and only
      the items' own products change. */
  method CancelItems(items: seq<OrderItem>, ghost s0: map<Product, int>, ghost lines: seq<Line<Product>>)
    requires lines == LinesOf(items) && Covers(s0, lines) && Walked(items, s0, lines, 0, 1)
    modifies ProductsOf(items)
    ensures Walked(items, s0, lines, |lines|, 1)
  {
    var i := 0;
    while i < |items|
      invariant 0 <= i <= |items| && Walked(items, s0, lines, i, 1)
    {
      var item := items[i];
      assert item.product in ProductsOf(items);
      assert lines[i] == Line(item.product, item.quantity);
      assert lines[..i + 1][..i] == lines[..i];
      item.product.quantity := item.product.quantity + item.quantity;
      i := i + 1;
    }
  }

  /** A customer order.  `totalAmount` is in cents. */
  class Order {
    const id: nat
    const customer: Customer
    const items: seq<OrderItem>
    /** The products the order's items refer to. */
    ghost const products: set<Product> := ProductsOf(items)
    var status: string
    var totalAmount: int
    var contactPhone: string
    var adminComment: string
    var saved: bool

    constructor (id: nat, customer: Customer, items: seq<OrderItem>, contactPhone: string)
      ensures this.id == id && this.customer == customer && this.items == items
      ensures status == StatusNew && totalAmount == 0 && this.contactPhone == contactPhone
      ensures adminComment == "" && !saved
    {
      this.id := id;
      this.customer := customer;
      this.items := items;
      this.contactPhone := contactPhone;
      status := StatusNew;
      totalAmount := 0;
      adminComment := "";
      saved := false;
    }

    /** The order's changeable fields. */
    function State(): OrderState
      reads this
    {
      OrderState(status, totalAmount, contactPhone, adminComment, saved)
    }

    function Lines(): seq<Line<Product>> {
      LinesOf(items)
    }

    /** The current stock of the order's products. */
    ghost function Stock(): (m: map<Product, int>)
      reads products
      ensures m.Keys == products && Covers(m, Lines())
    {
      StockOf(products)
    }

    /** `save`: an order that already has an identity gets its total recomputed from its items;
        a blank contact phone is filled in with the customer's phone. */
    method Save()
      modifies this
      ensures saved
      ensures totalAmount == if old(saved) then ItemsTotal(items) else old(totalAmount)
      ensures contactPhone == if old(contactPhone) == "" then customer.phone else old(contactPhone)
      ensures status == old(status) && adminComment == old(adminComment)
    {
      if saved {
        totalAmount := ItemsTotal(items);
      }
      if contactPhone == "" {
        contactPhone := customer.phone;
      }
      saved := true;
    }

    /** The confirmation walk of `update_status`: item by item, check the units asked against
        the product's stock, raise if they exceed it, else take them and send a "confirmed"
        notice.  A raise leaves the earlier items' units taken and their notices sent. */
    method TakeItems(bot: Notifier) returns (err: Option<Shortage>)
      modifies products, bot
      ensures match FirstShort(old(Stock()), Lines())
        case Some(k) =>
          && err == Some(ShortageAt(old(Stock()), Lines(), k))
          && Stock() == Take(old(Stock()), Lines()[..k])
          && bot.sent == old(bot.sent) + Repeat(OrderConfirmed(id), k)
        case None =>
          && err == None
          && Stock() == Take(old(Stock()), Lines())
          && (forall p :: p in products ==> p.quantity >= 0)
          && bot.sent == old(bot.sent) + Repeat(OrderConfirmed(id), |items|)
    {
      ghost var s0 := Stock();
      ghost var lines := Lines();
      ghost var k;
      assert lines[..0] == [];
      err, k := ConfirmItems(items, id, bot, s0, lines);
      WalkedStock(items, s0, lines, k, -1);
      if err.Some? {
        FirstShortAt(s0, lines, k);
      } else {
        assert lines[..k] == lines;
        FitsLeavesNoNegative(s0, lines);
      }
    }

    /** The cancellation walk of `update_status`: every item's units go back to its product. */
    method GiveItems()
      modifies products
      ensures Stock() == Give(old(Stock()), Lines())
    {
      ghost var s0 := Stock();
      ghost var lines := Lines();
      assert lines[..0] == [];
      CancelItems(items, s0, lines);
      WalkedStock(items, s0, lines, |lines|, 1);
      assert lines[..|lines|] == lines;
    }

    /** The end of `update_status`: the new status and comment are set and the order saved. */
    method Commit(newStatus: string, comment: string)
      modifies this
      ensures Committed(this, newStatus, comment)
      ensures Stock() == old(Stock())
    {
      status := newStatus;
      adminComment := comment;
      Save();
    }

    /** The "confirmed" branch of `update_status` on an order that is not confirmed: the
        confirmation walk, then, unless it raised, the new status, comment and save. */
    method ConfirmAndSave(newStatus: string, comment: string, bot: Notifier) returns (err: Option<Shortage>)
      requires newStatus == StatusConfirmed && status != StatusConfirmed
      modifies this, products, bot
      ensures StatusUpdated(this, newStatus, comment, bot, err)
    {
      err := TakeItems(bot);
      if err.None? {
        Commit(newStatus, comment);
      }
    }

    /** The "cancelled" branch of `update_status` on an order that is not cancelled: every
        item's units go back, one notice is sent, then the new status, comment and save. */
    method CancelAndSave(newStatus: string, comment: string, bot: Notifier)
      requires newStatus == StatusCancelled && status != StatusCancelled
      modifies this, products, bot
      ensures StatusUpdated(this, newStatus, comment, bot, None)
    {
      GiveItems();
      bot.Send(OrderCancelled(id));
      Commit(newStatus, comment);
    }

    /** `update_status`.  The same status again returns at once.  Moving to "confirmed" runs
        the confirmation walk; if it raises, the order itself is left as it was.  Moving to
        "cancelled" gives every item's units back, whatever the old status, and sends one
        notice.  Unless it raised, the order then takes the new status and comment and is
        saved (in this model, inside each branch). */
    method UpdateStatus(newStatus: string, comment: string, bot: Notifier) returns (err: Option<Shortage>)
      modifies this, products, bot
      ensures StatusUpdated(this, newStatus, comment, bot, err)
    {
      if status == newStatus {
        return None;
      }
      var oldStatus := status;
      if newStatus == StatusConfirmed && oldStatus != StatusConfirmed {
        err := ConfirmAndSave(newStatus, comment, bot);
        if err.Some? {
          return;
        }
      } else if newStatus == StatusCancelled && oldStatus != StatusCancelled {
        CancelAndSave(newStatus, comment, bot);
        err := None;
      } else {
        Commit(newStatus, comment);
        err := None;
      }
      if oldStatus == StatusNew && newStatus == StatusNew {
        // `_send_new_order_notification` is called here in the source; the early return above
        // makes the branch unreachable, so no `NewOrder` notice is ever sent.
        assert false;
      }
    }
  }

  /** The fields of an order that `update_status` and `save` change. */
  datatype OrderState = OrderState(status: string, totalAmount: int, contactPhone: string, adminComment: string, saved: bool)

  /** Order `o`, which was in state `was`, took `newStatus` and `comment` and was saved (`save`
      on an order seen before recomputes the total from its items). */
  predicate CommittedFrom(o: Order, was: OrderState, newStatus: string, comment: string)
    reads o
  {
    o.State() == CommitState(o, was, newStatus, comment)
  }

  /** The state order `o` (its items and customer) takes from `was` under `newStatus` and
      `comment` once saved. */
  function CommitState(o: Order, was: OrderState, newStatus: string, comment: string): OrderState {
    OrderState(newStatus, if was.saved then ItemsTotal(o.items) else was.totalAmount,
               if was.contactPhone == "" then o.customer.phone else was.contactPhone, comment, true)
  }

  /** The order took `newStatus` and `comment` and was saved. */
  twostate predicate Committed(o: Order, newStatus: string, comment: string)
    reads o
  {
    CommittedFrom(o, old(o.State()), newStatus, comment)
  }

  /** What `update_status(newStatus, comment)` did to order `o`, its products and the channel,
      given the error it raised (`err`). */
  twostate predicate StatusUpdated(o: Order, newStatus: string, comment: string, bot: Notifier, new err: Option<Shortage>)
    reads o, o.products, bot
  {
    if old(o.status) == newStatus then
      err == None && unchanged(o) && o.Stock() == old(o.Stock()) && bot.sent == old(bot.sent)
    else if newStatus == StatusConfirmed then
      var stop := FirstShort(old(o.Stock()), o.Lines());
      if stop.Some? then
        && err == Some(ShortageAt(old(o.Stock()), o.Lines(), stop.value))
        && unchanged(o)
        && o.Stock() == Take(old(o.Stock()), o.Lines()[..stop.value])
        && bot.sent == old(bot.sent) + Repeat(OrderConfirmed(o.id), stop.value)
      else
        && err == None
        && Committed(o, newStatus, comment)
        && o.Stock() == Take(old(o.Stock()), o.Lines())
        && (forall p :: p in o.products ==> p.quantity >= 0)
        && bot.sent == old(bot.sent) + Repeat(OrderConfirmed(o.id), |o.items|)
    else if newStatus == StatusCancelled then
      && err == None
      && Committed(o, newStatus, comment)
      && o.Stock() == Give(old(o.Stock()), o.Lines())
      && bot.sent == old(bot.sent) + [OrderCancelled(o.id)]
    else
      err == None && Committed(o, newStatus, comment) && o.Stock() == old(o.Stock()) && bot.sent == old(bot.sent)
  }

  /** An order whose items captured their products' prices totals what a cart of the same
      products and units totals at those prices. */
  lemma {:induction false} CapturedTotalMatchesCart(items: seq<OrderItem>, cart: seq<Carts.CartItem>)
    requires |items| == |cart|
    requires forall i :: 0 <= i < |items| ==>
      items[i].product == cart[i].product && items[i].quantity == cart[i].quantity
      && items[i].price == items[i].product.price
    ensures ItemsTotal(items) == Carts.TotalAmount(cart)
  {
    if items != [] {
      CapturedTotalMatchesCart(items[..|items| - 1], cart[..|cart| - 1]);
    }
  }
}
