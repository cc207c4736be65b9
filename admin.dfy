/** The order actions and change-list values of the admin site (`OrderAdmin` and `ProductAdmin`
    in shop/admin.py).  Every action drives `update_status` on the orders whose status is "new"
    and leaves the others alone; a raised `ValidationError` ends the action where it stands. */
module Admin {
  import opened Base
  import opened Text
  import opened Stock
  import opened Catalog
  import opened Orders

  const BulkConfirmComment: string := "Подтверждено массово через админку"
  const BulkCancelComment: string := "Отменено массово через админку"
  const ConfirmComment: string := "Подтверждено через админку"
  const CancelComment: string := "Отменено через админку"

  /** The colour `status_display` paints a status in; statuses outside the three choices are gray. */
  function StatusColor(status: string): (r: string)
    ensures r == "orange" <==> status == StatusNew
    ensures r == "green" <==> status == StatusConfirmed
    ensures r == "red" <==> status == StatusCancelled
    ensures r == "gray" <==> status != StatusNew && status != StatusConfirmed && status != StatusCancelled
  {
    if status == StatusNew then "orange"
    else if status == StatusConfirmed then "green"
    else if status == StatusCancelled then "red"
    else "gray"
  }

  /** `get_status_display`: the label of the status choice, or the stored value itself when it
      is not one of the choices. */
  function StatusLabel(status: string): (r: string)
    ensures status == StatusNew ==> r == "🆕 Новый"
    ensures status == StatusConfirmed ==> r == "✅ Подтвержден"
    ensures status == StatusCancelled ==> r == "❌ Отменен"
    ensures r == status <==> status != StatusNew && status != StatusConfirmed && status != StatusCancelled
  {
    if status == StatusNew then "🆕 Новый"
    else if status == StatusConfirmed then "✅ Подтвержден"
    else if status == StatusCancelled then "❌ Отменен"
    else status
  }

  /** What `status_display` renders: a colour and a label. */
  datatype StatusBadge = StatusBadge(color: string, caption: string)

  function StatusDisplay(status: string): (r: StatusBadge)
    ensures r.color == StatusColor(status) && r.caption == StatusLabel(status)
    ensures r.color == "gray" <==> r.caption == status
  {
    StatusBadge(StatusColor(status), StatusLabel(status))
  }

  /** Two different statuses never render alike: the colour tells the three choices apart from
      each other and from any other value, whose label is the value itself. */
  lemma StatusDisplayInjective(a: string, b: string)
    requires StatusDisplay(a) == StatusDisplay(b)
    ensures a == b
  {
    if StatusColor(a) == "gray" {
      assert StatusLabel(a) == a && StatusLabel(b) == b;
    }
  }

  /** The object id that the admin routes `<object_id>/confirm/` and `<object_id>/cancel/`
      hand to `Order.objects.get(id=...)`: the part of `href` before `suffix`, when it is a
      decimal number. */
  function RouteId(href: string, suffix: string): Option<nat> {
    if EndsWith(href, suffix) && |href| > |suffix| && IsDigits(href[..|href| - |suffix|])
    then Some(ParseNat(href[..|href| - |suffix|]))
    else None
  }

  /** What `action_buttons` renders: links to the two routes, or a dash. */
  datatype Actions = Buttons(confirmHref: string, cancelHref: string) | Dash

  /** `action_buttons`: only a "new" order gets the buttons, and they lead to the confirm and
      cancel routes of that very order. */
  function ActionButtons(id: nat, status: string): (r: Actions)
    ensures r.Buttons? <==> status == StatusNew
    ensures r.Buttons? ==> RouteId(r.confirmHref, "/confirm/") == Some(id)
    ensures r.Buttons? ==> RouteId(r.cancelHref, "/cancel/") == Some(id)
  {
    if status == StatusNew then
      var digits := NatToString(id);
      var confirm := digits + "/confirm/";
      var cancel := digits + "/cancel/";
      assert confirm[..|confirm| - 9] == digits && confirm[|confirm| - 9..] == "/confirm/";
      assert cancel[..|cancel| - 8] == digits && cancel[|cancel| - 8..] == "/cancel/";
      ParseNatToString(id);
      Buttons(confirm, cancel)
    else Dash
  }

  /** The percentage a label of the form "<integer>%" shows. */
  function ParsePercent(text: string): Option<int> {
    if |text| >= 2 && text[|text| - 1] == '%' then
      var number := text[..|text| - 1];
      if (number[0] == '-' && IsDigits(number[1..])) || (number[0] != '-' && IsDigits(number))
      then Some(ParseInt(number))
      else None
    else None
  }

  /** `discount_percent_display`: a discounted product shows its `discount_percent` followed by
      a percent sign, any other a dash. */
  function DiscountLabel(p: Product): (r: string)
    ensures ParsePercent(r) == if p.HasDiscount() then Some(p.DiscountPercent()) else None
    ensures !p.HasDiscount() ==> r == "—"
    ensures p.HasDiscount() ==> |r| >= 2 && IsCanonicalInt(r[..|r| - 1])
  {
    if p.HasDiscount() then
      var number := IntToString(p.DiscountPercent());
      var shown := number + "%";
      assert shown[..|shown| - 1] == number;
      ParseIntToString(p.DiscountPercent());
      shown
    else "—"
  }

  /** The message of a bulk action: the number of selected orders, then the verb. */
  function BulkMessage(selected: nat, verb: string): (r: string)
    ensures IsDigits(Split(r, ' ')[0]) && ParseNat(Split(r, ' ')[0]) == selected
    ensures Split(r, ' ')[1..] == ["заказов"] + Split(verb, ' ')
  {
    var digits := NatToString(selected);
    assert ' ' !in digits;
    SplitAfterTwo(digits, "заказов", ' ', verb);
    ParseNatToString(selected);
    digits + [' '] + "заказов" + [' '] + verb
  }

  /** The message of a single action on order `id`. */
  function OrderMessage(id: nat, verb: string): (r: string)
    ensures Split(r, ' ')[0] == "Заказ"
    ensures |Split(r, ' ')| >= 2 && |Split(r, ' ')[1]| >= 2 && Split(r, ' ')[1][0] == '#'
    ensures IsDigits(Split(r, ' ')[1][1..]) && ParseNat(Split(r, ' ')[1][1..]) == id
    ensures Split(r, ' ')[2..] == Split(verb, ' ')
  {
    var digits := NatToString(id);
    var number := "#" + digits;
    assert ' ' !in digits;
    assert ' ' !in number;
    SplitAfterTwo("Заказ", number, ' ', verb);
    assert number[1..] == digits;
    ParseNatToString(id);
    "Заказ" + [' '] + number + [' '] + verb
  }

  /** A confirmation and a cancellation never report with the same message, for single orders
      and for bulk actions alike, whatever the ids and counts. */
  lemma ActionMessagesDiffer(id: nat, id': nat, n: nat, n': nat)
    ensures OrderMessage(id, "подтвержден") != OrderMessage(id', "отменен")
    ensures BulkMessage(n, "подтверждено") != BulkMessage(n', "отменено")
  {
    assert Split("подтвержден", ' ') == ["подтвержден"];
    assert Split("отменен", ' ') == ["отменен"];
    assert Split("подтверждено", ' ') == ["подтверждено"];
    assert Split("отменено", ' ') == ["отменено"];
  }

  /** The states of the selected orders, in order. */
  ghost function States(orders: seq<Order>): (r: seq<OrderState>)
    reads orders
    ensures |r| == |orders| && forall m :: 0 <= m < |orders| ==> r[m] == orders[m].State()
  {
    seq(|orders|, m requires 0 <= m < |orders| reads orders => orders[m].State())
  }

  /** The stock lines each selected order walks: its own lines if it was "new", none otherwise. */
  function PendingRuns(orders: seq<Order>, was: seq<OrderState>): (r: seq<seq<Line<Product>>>)
    requires |was| == |orders|
    ensures |r| == |orders|
    ensures forall m :: 0 <= m < |orders| ==> r[m] == if was[m].status == StatusNew then orders[m].Lines() else []
  {
    seq(|orders|, m requires 0 <= m < |orders| => if was[m].status == StatusNew then orders[m].Lines() else [])
  }

  /** The notices a full confirmation of each selected order sends: one per line of a "new" order. */
  function ConfirmRuns(orders: seq<Order>, was: seq<OrderState>): (r: seq<seq<Notice>>)
    requires |was| == |orders|
    ensures |r| == |orders|
    ensures forall m :: 0 <= m < |orders| ==>
      r[m] == if was[m].status == StatusNew then Repeat(OrderConfirmed(orders[m].id), |orders[m].items|) else []
  {
    seq(|orders|, m requires 0 <= m < |orders| =>
      if was[m].status == StatusNew then Repeat(OrderConfirmed(orders[m].id), |orders[m].items|) else [])
  }

  /** The notices a cancellation of each selected order sends: one per "new" order. */
  function CancelRuns(orders: seq<Order>, was: seq<OrderState>): (r: seq<seq<Notice>>)
    requires |was| == |orders|
    ensures |r| == |orders|
    ensures forall m :: 0 <= m < |orders| ==>
      r[m] == if was[m].status == StatusNew then [OrderCancelled(orders[m].id)] else []
  {
    seq(|orders|, m requires 0 <= m < |orders| =>
      if was[m].status == StatusNew then [OrderCancelled(orders[m].id)] else [])
  }

  /** How many of the states are "new". */
  function CountNew(was: seq<OrderState>): (r: nat)
    ensures r <= |was|
  {
    if was == [] then 0 else CountNew(was[..|was| - 1]) + (if was[|was| - 1].status == StatusNew then 1 else 0)
  }

  /** Counting the "new" states adds up over states split in two. */
  lemma {:induction false} CountNewAppend(a: seq<OrderState>, b: seq<OrderState>)
    ensures CountNew(a + b) == CountNew(a) + CountNew(b)
  {
    if b != [] {
      assert (a + b)[..|a + b| - 1] == a + b[..|b| - 1];
      CountNewAppend(a, b[..|b| - 1]);
    } else {
      assert a + b == a;
    }
  }

  /** The lines a bulk action walks are exactly the lines of the selected orders that were
      "new": an order in any other state adds none. */
  lemma BulkLinesOfNewOrders(orders: seq<Order>, was: seq<OrderState>, l: Line<Product>)
    requires |was| == |orders|
    ensures l in Flatten(PendingRuns(orders, was)) <==>
              exists m :: 0 <= m < |orders| && was[m].status == StatusNew && l in orders[m].Lines()
  {
    var runs := PendingRuns(orders, was);
    InFlatten(runs, l);
    if exists m :: 0 <= m < |orders| && was[m].status == StatusNew && l in orders[m].Lines() {
      var m :| 0 <= m < |orders| && was[m].status == StatusNew && l in orders[m].Lines();
      assert l in runs[m];
    }
  }

  /** `confirm_orders` sends, in full, one "confirmed" notice per line it walks, each about a
      selected order that was "new". */
  lemma BulkConfirmNoticeKinds(orders: seq<Order>, was: seq<OrderState>, n: Notice)
    requires |was| == |orders|
    ensures |Flatten(ConfirmRuns(orders, was))| == |Flatten(PendingRuns(orders, was))|
    ensures n in Flatten(ConfirmRuns(orders, was)) <==>
              exists m :: 0 <= m < |orders| && was[m].status == StatusNew && |orders[m].items| > 0
                          && n == OrderConfirmed(orders[m].id)
  {
    var runs, notes := PendingRuns(orders, was), ConfirmRuns(orders, was);
    FlattenLengths(runs, notes);
    InFlatten(notes, n);
    if exists m :: 0 <= m < |orders| && was[m].status == StatusNew && |orders[m].items| > 0
                   && n == OrderConfirmed(orders[m].id) {
      var m :| 0 <= m < |orders| && was[m].status == StatusNew && |orders[m].items| > 0
               && n == OrderConfirmed(orders[m].id);
      assert notes[m][0] == n;
    }
  }

  /** The cancellation notices of the first `k` selected orders: one per "new" order. */
  lemma {:induction false} CancelNoticeCount(orders: seq<Order>, was: seq<OrderState>, k: nat)
    requires |was| == |orders| && k <= |orders|
    ensures |Flatten(CancelRuns(orders, was)[..k])| == CountNew(was[..k])
  {
    if k > 0 {
      CancelNoticeCount(orders, was, k - 1);
      FlattenStep(CancelRuns(orders, was), k - 1);
      assert was[..k][..k - 1] == was[..k - 1];
    }
  }

  /** `cancel_orders` sends one "cancelled" notice per selected order that was "new", and no
      other notice. */
  lemma BulkCancelNotices(orders: seq<Order>, was: seq<OrderState>, n: Notice)
    requires |was| == |orders|
    ensures |Flatten(CancelRuns(orders, was))| == CountNew(was)
    ensures n in Flatten(CancelRuns(orders, was)) <==>
              exists m :: 0 <= m < |orders| && was[m].status == StatusNew && n == OrderCancelled(orders[m].id)
  {
    var notes := CancelRuns(orders, was);
    CancelNoticeCount(orders, was, |orders|);
    assert notes[..|orders|] == notes && was[..|orders|] == was;
    InFlatten(notes, n);
    if exists m :: 0 <= m < |orders| && was[m].status == StatusNew && n == OrderCancelled(orders[m].id) {
      var m :| 0 <= m < |orders| && was[m].status == StatusNew && n == OrderCancelled(orders[m].id);
      assert n in notes[m];
    }
  }

  /** Every pending run names products of `ps`, so the stock of `ps` covers all of them. */
  lemma PendingRunsCovered(orders: seq<Order>, was: seq<OrderState>, ps: set<Product>, s0: map<Product, int>)
    requires |was| == |orders| && s0.Keys == ps
    requires forall m :: 0 <= m < |orders| ==> orders[m].products <= ps
    ensures Covers(s0, Flatten(PendingRuns(orders, was)))
  {
    var runs := PendingRuns(orders, was);
    forall m | 0 <= m < |orders|
      ensures Covers(s0, runs[m])
    {
      var o := orders[m];
      forall j | 0 <= j < |runs[m]|
        ensures runs[m][j].product in s0
      {
        assert o.Lines()[j].product == o.items[j].product;
      }
    }
    CoversFlatten(s0, runs);
  }

  /** The products of `part` hold `Take(before, lines[..k])` and the other products of `ps`
      hold their units of `cur`, which agrees with `before` on `part`: then every product of
      `ps` holds `Take(cur, lines[..k])`. */
  lemma TakeReadBack(ps: set<Product>, part: set<Product>, cur: map<Product, int>, before: map<Product, int>,
                     lines: seq<Line<Product>>, k: nat)
    requires part <= ps && cur.Keys == ps && before.Keys == part && PartOf(before, cur)
    requires Covers(before, lines) && k <= |lines|
    requires StockOf(part) == Take(before, lines[..k])
    requires forall p :: p in ps && p !in part ==> p.quantity == cur[p]
    ensures Covers(before, lines[..k]) && Covers(cur, lines[..k])
    ensures forall p :: p in ps ==> p.quantity == Take(cur, lines[..k])[p]
  {
    assert Covers(before, lines[..k]) by {
      forall j | 0 <= j < k
        ensures lines[..k][j].product in before
      {
        assert lines[..k][j] == lines[j];
      }
    }
    forall p | p in ps
      ensures p.quantity == Take(cur, lines[..k])[p]
    {
      PartTakeGive(cur, before, lines[..k], p);
      if p in part {
        assert p.quantity == StockOf(part)[p];
      }
    }
  }

  /** A confirmation walk over `lines` from the stock `cur` stopped at line `k`: the lines
      before it fit, line `k` did not and raised `e`, and each product of `ps` holds `cur` less
      what the lines before `k` ask for. */
  ghost predicate StoppedAt(ps: set<Product>, cur: map<Product, int>, lines: seq<Line<Product>>, k: nat, e: Shortage)
    reads ps
  {
    && Covers(cur, lines) && k < |lines| && Fits(cur, lines[..k]) && ShortAt(cur, lines, k)
    && e == ShortageAt(cur, lines, k)
    && (forall p :: p in ps ==> p in cur && p.quantity == Take(cur, lines[..k])[p])
  }

  /** `update_status('confirmed', comment)` on a "new" order, seen against the stock of every
      product of `ps` (`cur`), of which the order's products are a part: the order's lines walk
      `cur`; the other products keep their units. */
  method ConfirmNew(o: Order, comment: string, bot: Notifier, ghost ps: set<Product>, ghost cur: map<Product, int>)
    returns (err: Option<Shortage>, ghost k: nat)
    requires o.status == StatusNew && o.products <= ps && cur.Keys == ps
    requires forall p :: p in ps ==> p.quantity == cur[p]
    modifies o, ps, bot
    ensures Covers(cur, o.Lines())
    ensures err.None? ==>
      && Fits(cur, o.Lines()) && Committed(o, StatusConfirmed, comment)
      && (forall p :: p in ps ==> p.quantity == Take(cur, o.Lines())[p])
      && bot.sent == old(bot.sent) + Repeat(OrderConfirmed(o.id), |o.items|)
    ensures err.Some? ==>
      && StoppedAt(ps, cur, o.Lines(), k, err.value) && unchanged(o)
      && bot.sent == old(bot.sent) + Repeat(OrderConfirmed(o.id), k)
  {
    ghost var before := o.Stock();
    ghost var lines := o.Lines();
    assert PartOf(before, cur);
    err := o.UpdateStatus(StatusConfirmed, comment, bot);
    PartFirstShort(cur, before, lines);
    forall p | p in ps && p !in o.products
      ensures p.quantity == cur[p]
    {
    }
    k := 0;
    if err.None? {
      assert lines[..|lines|] == lines;
      TakeReadBack(ps, o.products, cur, before, lines, |lines|);
    } else {
      k := FirstShort(before, lines).value;
      TakeReadBack(ps, o.products, cur, before, lines, k);
      PartTakeGive(cur, before, lines[..k], lines[k].product);
    }
  }

  /** Order `o`, which was in state `was` and is now in state `now`, after a bulk action's
      pass over it: a "new" order took `newStatus` and `comment` and was saved; any other kept
      its state. */
  predicate HandledAs(o: Order, now: OrderState, was: OrderState, newStatus: string, comment: string) {
    if was.status == StatusNew then now == CommitState(o, was, newStatus, comment) else now == was
  }

  /** `HandledAs`, with the order's present state. */
  predicate Handled(o: Order, was: OrderState, newStatus: string, comment: string)
    reads o
  {
    HandledAs(o, o.State(), was, newStatus, comment)
  }

  /** The selected orders, now in the states `now`, were in the states `was`: a bulk action's
      pass has handled the first `i` of them; the others are as they were. */
  predicate ProgressOf(orders: seq<Order>, now: seq<OrderState>, was: seq<OrderState>, i: nat,
                       newStatus: string, comment: string)
  {
    && |now| == |was| == |orders| && i <= |orders|
    && forall m :: 0 <= m < |orders| ==>
         if m < i then HandledAs(orders[m], now[m], was[m], newStatus, comment) else now[m] == was[m]
  }

  /** `ProgressOf` moves on past order `i` once that order is handled: the states `next`
      differ from `now` at most in order `i`'s. */
  lemma ProgressNext(orders: seq<Order>, now: seq<OrderState>, next: seq<OrderState>, was: seq<OrderState>,
                     i: nat, newStatus: string, comment: string)
    requires ProgressOf(orders, now, was, i, newStatus, comment) && i < |orders| && |next| == |now|
    requires forall m :: 0 <= m < |orders| && m != i ==> next[m] == now[m]
    requires HandledAs(orders[i], next[i], was[i], newStatus, comment)
    ensures ProgressOf(orders, next, was, i + 1, newStatus, comment)
  {
  }

  /** `ProgressOf` stays at order `i` while that order keeps its state. */
  lemma ProgressKept(orders: seq<Order>, now: seq<OrderState>, next: seq<OrderState>, was: seq<OrderState>,
                     i: nat, newStatus: string, comment: string)
    requires ProgressOf(orders, now, was, i, newStatus, comment) && i < |orders| && |next| == |now|
    requires forall m :: 0 <= m < |orders| && m != i ==> next[m] == now[m]
    requires next[i] == was[i]
    ensures ProgressOf(orders, next, was, i, newStatus, comment)
  {
  }

  /** `ProgressOf` for the selected orders' present states. */
  ghost predicate Progress(orders: seq<Order>, was: seq<OrderState>, i: nat, newStatus: string, comment: string)
    reads orders
  {
    ProgressOf(orders, States(orders), was, i, newStatus, comment)
  }

  /** The state of `confirm_orders` before its pass over order `i`.  `before` is the stock of
      `ps` the action found, `was` the selected orders' states,
      `runs` and `notes` the lines and notices of each order.  The orders before `i` have been
      handled: the stock lost what their lines ask for (`walked`) and their notices (`told`)
      were sent after `sent0`.  The orders from `i` on are as they were. */
  ghost predicate Confirming(orders: seq<Order>, ps: set<Product>, bot: Notifier, before: map<Product, int>,
                             was: seq<OrderState>, runs: seq<seq<Line<Product>>>, notes: seq<seq<Notice>>,
                             sent0: seq<Notice>, i: nat, walked: seq<Line<Product>>, told: seq<Notice>)
    reads orders, ps, bot
  {
    && |was| == |runs| == |notes| == |orders| && i <= |orders|
    && walked == Flatten(runs[..i]) && told == Flatten(notes[..i])
    && Covers(before, walked) && Fits(before, walked)
    && (forall p :: p in ps ==> p in before && p.quantity == Take(before, walked)[p])
    && bot.sent == sent0 + told
    && Progress(orders, was, i, StatusConfirmed, BulkConfirmComment)
  }

  /** `confirm_orders`' treatment of one selected order `o`, whose products are among `ps`:
      if it is "new", `update_status('confirmed', ...)` with the bulk comment.  The stock of
      `ps` is `before` less the lines walked so far (`walked`); `run` and `note` are the lines
      and notices a full confirmation of `o` adds. */
  method ConfirmOne(o: Order, bot: Notifier, ghost ps: set<Product>, ghost before: map<Product, int>,
                    ghost walked: seq<Line<Product>>, ghost run: seq<Line<Product>>,
                    ghost note: seq<Notice>, ghost told: seq<Notice>, ghost sent0: seq<Notice>, ghost was: OrderState)
    returns (err: Option<Shortage>, ghost k: nat)
    requires o.products <= ps && before.Keys == ps && o.State() == was
    requires run == if o.status == StatusNew then o.Lines() else []
    requires note == if o.status == StatusNew then Repeat(OrderConfirmed(o.id), |o.items|) else []
    requires Covers(before, walked) && Fits(before, walked)
    requires forall p :: p in ps ==> p.quantity == Take(before, walked)[p]
    requires bot.sent == sent0 + told
    modifies o, ps, bot
    ensures err.None? ==>
      && Covers(before, walked + run) && Fits(before, walked + run)
      && (forall p :: p in ps ==> p.quantity == Take(before, walked + run)[p])
      && bot.sent == sent0 + (told + note)
      && Handled(o, was, StatusConfirmed, BulkConfirmComment)
    ensures err.Some? ==>
      && was.status == StatusNew && o.State() == was && Covers(before, walked)
      && StoppedAt(ps, Take(before, walked), o.Lines(), k, err.value)
      && bot.sent == sent0 + told + Repeat(OrderConfirmed(o.id), k)
  {
    k := 0;
    if o.status != StatusNew {
      assert walked + run == walked && note == [];
      AppendAssoc(sent0, told, note);
      return None, 0;
    }
    ghost var cur := Take(before, walked);
    err, k := ConfirmNew(o, BulkConfirmComment, bot, ps, cur);
    if err.None? {
      TakeAppend(before, walked, run);
      FitsAppend(before, walked, run);
      AppendAssoc(sent0, told, note);
    }
  }

  /** The state of `confirm_orders` moves on past order `i` once that order is handled, its run
      walked and its notices sent. */
  lemma ConfirmingNext(orders: seq<Order>, ps: set<Product>, bot: Notifier, before: map<Product, int>,
                       was: seq<OrderState>, runs: seq<seq<Line<Product>>>, notes: seq<seq<Notice>>,
                       sent0: seq<Notice>, i: nat, walked: seq<Line<Product>>, told: seq<Notice>)
    requires |was| == |runs| == |notes| == |orders| && i < |orders|
    requires walked == Flatten(runs[..i]) && told == Flatten(notes[..i]) && before.Keys == ps
    requires Covers(before, walked + runs[i]) && Fits(before, walked + runs[i])
    requires forall p :: p in ps ==> p.quantity == Take(before, walked + runs[i])[p]
    requires bot.sent == sent0 + (told + notes[i])
    requires Progress(orders, was, i + 1, StatusConfirmed, BulkConfirmComment)
    ensures Confirming(orders, ps, bot, before, was, runs, notes, sent0, i + 1, walked + runs[i], told + notes[i])
  {
    FlattenStep(runs, i);
    FlattenStep(notes, i);
  }

  /** `confirm_orders` stopped at order `i`, line `k`, raising `e`: the orders before `i` were
      handled and their lines (`walked`) and notices (`told`) went out; order `i` was "new",
      kept its state, and the units of its lines before `k` were taken and their notices sent;
      the orders after it are as they were. */
  ghost predicate ConfirmStopped(orders: seq<Order>, ps: set<Product>, bot: Notifier, before: map<Product, int>,
                                 was: seq<OrderState>, runs: seq<seq<Line<Product>>>, notes: seq<seq<Notice>>,
                                 sent0: seq<Notice>, i: nat, walked: seq<Line<Product>>, told: seq<Notice>,
                                 k: nat, e: Shortage)
    reads orders, ps, bot
  {
    && |was| == |runs| == |notes| == |orders| && i < |orders| && was[i].status == StatusNew
    && walked == Flatten(runs[..i]) && told == Flatten(notes[..i])
    && Covers(before, walked) && Fits(before, walked)
    && Progress(orders, was, i, StatusConfirmed, BulkConfirmComment)
    && StoppedAt(ps, Take(before, walked), orders[i].Lines(), k, e)
    && bot.sent == sent0 + told + Repeat(OrderConfirmed(orders[i].id), k)
  }

  /** One pass of `confirm_orders`' loop, over order `i`: if it was "new" it is confirmed, and
      the action moves on to order `i + 1`.  A `ValidationError` stops order `i` at its line
      `k`. */
  method ConfirmStep(orders: seq<Order>, i: nat, bot: Notifier, ghost ps: set<Product>, ghost before: map<Product, int>,
                     ghost was: seq<OrderState>,
                     ghost runs: seq<seq<Line<Product>>>, ghost notes: seq<seq<Notice>>,
                     ghost sent0: seq<Notice>, ghost walked: seq<Line<Product>>, ghost told: seq<Notice>)
    returns (err: Option<Shortage>, ghost k: nat)
    requires i < |orders| && |was| == |orders|
    requires forall m :: 0 <= m < |orders| && m != i ==> orders[m] != orders[i]
    requires orders[i].products <= ps && before.Keys == ps
    requires runs == PendingRuns(orders, was) && notes == ConfirmRuns(orders, was)
    requires Confirming(orders, ps, bot, before, was, runs, notes, sent0, i, walked, told)
    modifies orders[i], ps, bot
    ensures err.None? ==> Confirming(orders, ps, bot, before, was, runs, notes, sent0, i + 1, walked + runs[i], told + notes[i])
    ensures err.Some? ==> ConfirmStopped(orders, ps, bot, before, was, runs, notes, sent0, i, walked, told, k, err.value)
  {
    var o := orders[i];
    ghost var s0 := States(orders);
    err, k := ConfirmOne(o, bot, ps, before, walked, runs[i], notes[i], told, sent0, was[i]);
    ghost var s1 := States(orders);
    forall m | 0 <= m < |orders| && m != i
      ensures s1[m] == s0[m]
    {
      assert orders[m] != o;
    }
    if err.None? {
      ProgressNext(orders, s0, s1, was, i, StatusConfirmed, BulkConfirmComment);
      ConfirmingNext(orders, ps, bot, before, was, runs, notes, sent0, i, walked, told);
    } else {
      ProgressKept(orders, s0, s1, was, i, StatusConfirmed, BulkConfirmComment);
    }
  }

  /** The loop of `confirm_orders`: from the first order on, each is handled in turn until one
      raises a `ValidationError` (`err`, at order `stop`, line `line`) or all are handled. */
  method ConfirmLoop(orders: seq<Order>, bot: Notifier, ghost ps: set<Product>, ghost before: map<Product, int>,
                     ghost was: seq<OrderState>, ghost runs: seq<seq<Line<Product>>>, ghost notes: seq<seq<Notice>>,
                     ghost sent0: seq<Notice>)
    returns (err: Option<Shortage>, stop: nat, ghost walked: seq<Line<Product>>, ghost told: seq<Notice>,
             ghost line: nat)
    requires forall a, b :: 0 <= a < b < |orders| ==> orders[a] != orders[b]
    requires forall m :: 0 <= m < |orders| ==> orders[m].products <= ps
    requires before.Keys == ps && |was| == |orders|
    requires runs == PendingRuns(orders, was) && notes == ConfirmRuns(orders, was)
    requires Confirming(orders, ps, bot, before, was, runs, notes, sent0, 0, [], [])
    modifies orders, ps, bot
    ensures stop <= |orders| && walked == Flatten(runs[..stop]) && told == Flatten(notes[..stop])
    ensures Covers(before, walked) && Fits(before, walked)
    ensures Progress(orders, was, stop, StatusConfirmed, BulkConfirmComment)
    ensures err.None? ==> stop == |orders| && Confirming(orders, ps, bot, before, was, runs, notes, sent0, stop, walked, told)
    ensures err.Some? ==> ConfirmStopped(orders, ps, bot, before, was, runs, notes, sent0, stop, walked, told, line, err.value)
  {
    walked, told, stop, line := [], [], 0, 0;
    err := None;
    while stop < |orders|
      invariant err.None?
      invariant Confirming(orders, ps, bot, before, was, runs, notes, sent0, stop, walked, told)
    {
      err, line := ConfirmStep(orders, stop, bot, ps, before, was, runs, notes, sent0, walked, told);
      if err.Some? {
        return;
      }
      walked := walked + runs[stop];
      told := told + notes[stop];
      stop := stop + 1;
    }
  }

  /** `confirm_orders`: every selected order that was "new" is confirmed, one after the other,
      with the bulk comment.  `before` is the stock of `ps` the action found, `was` the
      orders' states.  The orders before `stop` were handled: the stock lost what their lines
      ask for (`walked`) and their notices (`told`) went out.  Without a `ValidationError`,
      `stop` is past the last order.  Otherwise order `stop` raised it at its line `line`: the
      units of its lines before that line were taken and their notices sent, but the order
      itself, and every order after it, kept its state. */
  method ConfirmOrders(orders: seq<Order>, bot: Notifier, ghost ps: set<Product>)
    returns (r: Result<string, Shortage>, ghost before: map<Product, int>, ghost was: seq<OrderState>,
             ghost walked: seq<Line<Product>>, ghost told: seq<Notice>, ghost stop: nat, ghost line: nat)
    requires forall a, b :: 0 <= a < b < |orders| ==> orders[a] != orders[b]
    requires forall m :: 0 <= m < |orders| ==> orders[m].products <= ps
    modifies orders, ps, bot
    ensures before == old(StockOf(ps)) && |was| == |orders|
    ensures forall m :: 0 <= m < |orders| ==> was[m] == old(orders[m].State())
    ensures stop <= |orders|
    ensures walked == Flatten(PendingRuns(orders, was)[..stop])
    ensures told == Flatten(ConfirmRuns(orders, was)[..stop])
    ensures Covers(before, Flatten(PendingRuns(orders, was)))
    ensures Covers(before, walked) && Fits(before, walked)
    ensures Progress(orders, was, stop, StatusConfirmed, BulkConfirmComment)
    ensures r.Success? ==>
      && stop == |orders| && r.value == BulkMessage(|orders|, "подтверждено")
      && walked == Flatten(PendingRuns(orders, was)) && FirstShort(before, walked) == None
      && (forall p :: p in ps ==> p.quantity == Take(before, walked)[p])
      && bot.sent == old(bot.sent) + told
    ensures r.Failure? ==>
      && stop < |orders| && was[stop].status == StatusNew
      && StoppedAt(ps, Take(before, walked), orders[stop].Lines(), line, r.error)
      && bot.sent == old(bot.sent) + told + Repeat(OrderConfirmed(orders[stop].id), line)
  {
    was := States(orders);
    before := StockOf(ps);
    ghost var runs := PendingRuns(orders, was);
    ghost var notes := ConfirmRuns(orders, was);
    PendingRunsCovered(orders, was, ps, before);
    assert runs[..0] == [] && notes[..0] == [];
    var err;
    err, stop, walked, told, line := ConfirmLoop(orders, bot, ps, before, was, runs, notes, bot.sent);
    if err.Some? {
      ConfirmStoppedFacts(orders, ps, bot, before, was, runs, notes, old(bot.sent), stop, walked, told, line, err.value);
      return Failure(err.value), before, was, walked, told, stop, line;
    }
    ConfirmDoneFacts(orders, ps, bot, before, was, runs, notes, old(bot.sent), walked, told);
    return Success(BulkMessage(|orders|, "подтверждено")), before, was, walked, told, stop, line;
  }

  /** Once every selected order is handled, the lines walked are all of the "new" orders'
      lines, and none of them was short. */
  lemma ConfirmDoneFacts(orders: seq<Order>, ps: set<Product>, bot: Notifier, before: map<Product, int>,
                         was: seq<OrderState>, runs: seq<seq<Line<Product>>>, notes: seq<seq<Notice>>,
                         sent0: seq<Notice>, walked: seq<Line<Product>>, told: seq<Notice>)
    requires Confirming(orders, ps, bot, before, was, runs, notes, sent0, |orders|, walked, told)
    ensures walked == Flatten(runs) && FirstShort(before, walked) == None
    ensures forall p :: p in ps ==> p.quantity == Take(before, walked)[p]
    ensures bot.sent == sent0 + told
  {
    assert runs[..|orders|] == runs;
    assert notes[..|orders|] == notes;
  }

  /** The facts of a stop at order `i`, line `k`, one by one. */
  lemma ConfirmStoppedFacts(orders: seq<Order>, ps: set<Product>, bot: Notifier, before: map<Product, int>,
                            was: seq<OrderState>, runs: seq<seq<Line<Product>>>, notes: seq<seq<Notice>>,
                            sent0: seq<Notice>, i: nat, walked: seq<Line<Product>>, told: seq<Notice>,
                            k: nat, e: Shortage)
    requires ConfirmStopped(orders, ps, bot, before, was, runs, notes, sent0, i, walked, told, k, e)
    ensures i < |orders| && was[i].status == StatusNew
    ensures StoppedAt(ps, Take(before, walked), orders[i].Lines(), k, e)
    ensures bot.sent == sent0 + told + Repeat(OrderConfirmed(orders[i].id), k)
  {
  }

  /** The whole walk of `confirm_orders`: where it stops (order `stop`, line `line`) is the first
      line of the selected "new" orders' lines, end to end (`walk`), that does not fit the stock
      `s0` it started from, and the stock left there is that walk's up to that line. */
  lemma BulkConfirmStop(orders: seq<Order>, was: seq<OrderState>, s0: map<Product, int>, stop: nat, line: nat, n: nat,
                        walk: seq<Line<Product>>, walked: seq<Line<Product>>)
    requires |was| == |orders| && stop < |orders| && was[stop].status == StatusNew
    requires walk == Flatten(PendingRuns(orders, was)) && walked == Flatten(PendingRuns(orders, was)[..stop])
    requires Covers(s0, walk) && Covers(s0, walked) && Fits(s0, walked)
    requires Covers(Take(s0, walked), orders[stop].Lines()) && line < |orders[stop].items|
    requires Fits(Take(s0, walked), orders[stop].Lines()[..line])
    requires ShortAt(Take(s0, walked), orders[stop].Lines(), line)
    requires n == |walked| + line
    ensures FirstShort(s0, walk) == Some(n)
    ensures n < |walk| && Covers(s0, walk[..n])
    ensures Take(s0, walk[..n]) == Take(Take(s0, walked), orders[stop].Lines()[..line])
  {
    var runs := PendingRuns(orders, was);
    RunsStop(s0, runs, stop, line, n, walk, walked);
    RunsStopStock(s0, runs, stop, line, n, walk, walked);
  }

  /** The notices `confirm_orders` sent before stopping at order `stop`, line `line`, are those
      of the selected "new" orders' lines, end to end (`notices`), up to that line. */
  lemma BulkConfirmNotices(orders: seq<Order>, was: seq<OrderState>, stop: nat, line: nat, n: nat,
                           notices: seq<Notice>, walked: seq<Line<Product>>, told: seq<Notice>)
    requires |was| == |orders| && stop < |orders| && was[stop].status == StatusNew
    requires notices == Flatten(ConfirmRuns(orders, was))
    requires walked == Flatten(PendingRuns(orders, was)[..stop]) && told == Flatten(ConfirmRuns(orders, was)[..stop])
    requires line < |orders[stop].items| && n == |walked| + line
    ensures n <= |notices| && notices[..n] == told + Repeat(OrderConfirmed(orders[stop].id), line)
  {
    var runs, notes := PendingRuns(orders, was), ConfirmRuns(orders, was);
    FlattenLengths(runs[..stop], notes[..stop]);
    RunsAt(notes, stop, line, n, notices, told);
    RepeatPrefix(OrderConfirmed(orders[stop].id), |orders[stop].items|, line);
  }

  /** `update_status('cancelled', comment)` on a "new" order, seen against the stock of every
      product of `ps` (`cur`): every line's units go back to its product, the other products
      keep theirs, and one notice is sent. */
  method CancelNew(o: Order, comment: string, bot: Notifier, ghost ps: set<Product>, ghost cur: map<Product, int>)
    requires o.status == StatusNew && o.products <= ps && cur.Keys == ps
    requires forall p :: p in ps ==> p.quantity == cur[p]
    modifies o, ps, bot
    ensures Covers(cur, o.Lines()) && Committed(o, StatusCancelled, comment)
    ensures forall p :: p in ps ==> p.quantity == Give(cur, o.Lines())[p]
    ensures bot.sent == old(bot.sent) + [OrderCancelled(o.id)]
  {
    ghost var before := o.Stock();
    ghost var lines := o.Lines();
    assert PartOf(before, cur);
    var _ := o.UpdateStatus(StatusCancelled, comment, bot);
    forall p | p in ps
      ensures p.quantity == Give(cur, lines)[p]
    {
      PartTakeGive(cur, before, lines, p);
      if p in o.products {
        assert p.quantity == o.Stock()[p];
      }
    }
  }

  /** The state of `cancel_orders` before its pass over order `i`: as for `confirm_orders`,
      with the lines of the orders before `i` given back (`given`) instead of taken. */
  ghost predicate Cancelling(orders: seq<Order>, ps: set<Product>, bot: Notifier, before: map<Product, int>,
                             was: seq<OrderState>, runs: seq<seq<Line<Product>>>, notes: seq<seq<Notice>>,
                             sent0: seq<Notice>, i: nat, given: seq<Line<Product>>, told: seq<Notice>)
    reads orders, ps, bot
  {
    && |was| == |runs| == |notes| == |orders| && i <= |orders|
    && given == Flatten(runs[..i]) && told == Flatten(notes[..i])
    && Covers(before, given)
    && (forall p :: p in ps ==> p in before && p.quantity == Give(before, given)[p])
    && bot.sent == sent0 + told
    && Progress(orders, was, i, StatusCancelled, BulkCancelComment)
  }

  /** `cancel_orders`' treatment of one selected order `o`, whose products are among `ps`: if
      it is "new", `update_status('cancelled', ...)` with the bulk comment.  The stock of `ps`
      is `before` plus the lines given back so far (`given`); `run` and `note` are the lines and
      notices the cancellation of `o` adds. */
  method CancelOne(o: Order, bot: Notifier, ghost ps: set<Product>, ghost before: map<Product, int>,
                   ghost given: seq<Line<Product>>, ghost run: seq<Line<Product>>,
                   ghost note: seq<Notice>, ghost told: seq<Notice>, ghost sent0: seq<Notice>, ghost was: OrderState)
    requires o.products <= ps && before.Keys == ps && o.State() == was
    requires run == if o.status == StatusNew then o.Lines() else []
    requires note == if o.status == StatusNew then [OrderCancelled(o.id)] else []
    requires Covers(before, given)
    requires forall p :: p in ps ==> p.quantity == Give(before, given)[p]
    requires bot.sent == sent0 + told
    modifies o, ps, bot
    ensures Covers(before, given + run)
    ensures forall p :: p in ps ==> p.quantity == Give(before, given + run)[p]
    ensures bot.sent == sent0 + (told + note)
    ensures Handled(o, was, StatusCancelled, BulkCancelComment)
  {
    if o.status != StatusNew {
      assert given + run == given && note == [];
      AppendAssoc(sent0, told, note);
      return;
    }
    ghost var cur := Give(before, given);
    CancelNew(o, BulkCancelComment, bot, ps, cur);
    assert Covers(before, run) by {
      assert Covers(o.Stock(), o.Lines());
    }
    GiveAppend(before, given, run);
    AppendAssoc(sent0, told, note);
  }

  /** The state of `cancel_orders` moves on past order `i` once that order is handled, its
      run given back and its notice sent. */
  lemma CancellingNext(orders: seq<Order>, ps: set<Product>, bot: Notifier, before: map<Product, int>,
                       was: seq<OrderState>, runs: seq<seq<Line<Product>>>, notes: seq<seq<Notice>>,
                       sent0: seq<Notice>, i: nat, given: seq<Line<Product>>, told: seq<Notice>)
    requires |was| == |runs| == |notes| == |orders| && i < |orders|
    requires given == Flatten(runs[..i]) && told == Flatten(notes[..i]) && before.Keys == ps
    requires Covers(before, given + runs[i])
    requires forall p :: p in ps ==> p.quantity == Give(before, given + runs[i])[p]
    requires bot.sent == sent0 + (told + notes[i])
    requires Progress(orders, was, i + 1, StatusCancelled, BulkCancelComment)
    ensures Cancelling(orders, ps, bot, before, was, runs, notes, sent0, i + 1, given + runs[i], told + notes[i])
  {
    FlattenStep(runs, i);
    FlattenStep(notes, i);
  }

  /** One pass of `cancel_orders`' loop, over order `i`: if it was "new" it is cancelled. */
  method CancelStep(orders: seq<Order>, i: nat, bot: Notifier, ghost ps: set<Product>, ghost before: map<Product, int>,
                    ghost was: seq<OrderState>,
                    ghost runs: seq<seq<Line<Product>>>, ghost notes: seq<seq<Notice>>,
                    ghost sent0: seq<Notice>, ghost given: seq<Line<Product>>, ghost told: seq<Notice>)
    requires i < |orders| && |was| == |orders|
    requires forall m :: 0 <= m < |orders| && m != i ==> orders[m] != orders[i]
    requires orders[i].products <= ps && before.Keys == ps
    requires runs == PendingRuns(orders, was) && notes == CancelRuns(orders, was)
    requires Cancelling(orders, ps, bot, before, was, runs, notes, sent0, i, given, told)
    modifies orders[i], ps, bot
    ensures Cancelling(orders, ps, bot, before, was, runs, notes, sent0, i + 1, given + runs[i], told + notes[i])
  {
    var o := orders[i];
    ghost var s0 := States(orders);
    CancelOne(o, bot, ps, before, given, runs[i], notes[i], told, sent0, was[i]);
    ghost var s1 := States(orders);
    forall m | 0 <= m < |orders| && m != i
      ensures s1[m] == s0[m]
    {
      assert orders[m] != o;
    }
    ProgressNext(orders, s0, s1, was, i, StatusCancelled, BulkCancelComment);
    CancellingNext(orders, ps, bot, before, was, runs, notes, sent0, i, given, told);
  }

  /** The loop of `cancel_orders`: every order is handled in turn; nothing raises. */
  method CancelLoop(orders: seq<Order>, bot: Notifier, ghost ps: set<Product>, ghost before: map<Product, int>,
                    ghost was: seq<OrderState>, ghost runs: seq<seq<Line<Product>>>, ghost notes: seq<seq<Notice>>,
                    ghost sent0: seq<Notice>)
    requires forall a, b :: 0 <= a < b < |orders| ==> orders[a] != orders[b]
    requires forall m :: 0 <= m < |orders| ==> orders[m].products <= ps
    requires before.Keys == ps && |was| == |orders|
    requires runs == PendingRuns(orders, was) && notes == CancelRuns(orders, was)
    requires Cancelling(orders, ps, bot, before, was, runs, notes, sent0, 0, [], [])
    modifies orders, ps, bot
    ensures Covers(before, Flatten(runs))
    ensures forall p :: p in ps ==> p.quantity == Give(before, Flatten(runs))[p]
    ensures bot.sent == sent0 + Flatten(notes)
    ensures Progress(orders, was, |orders|, StatusCancelled, BulkCancelComment)
  {
    ghost var given: seq<Line<Product>>, told: seq<Notice> := [], [];
    for i := 0 to |orders|
      invariant Cancelling(orders, ps, bot, before, was, runs, notes, sent0, i, given, told)
    {
      CancelStep(orders, i, bot, ps, before, was, runs, notes, sent0, given, told);
      given := given + runs[i];
      told := told + notes[i];
    }
    assert runs[..|orders|] == runs && notes[..|orders|] == notes;
  }

  /** `cancel_orders`: every selected order that was "new" is cancelled, one after the other,
      with the bulk comment: the units of all their lines go back to the stock `before` the
      action found, and each sends one notice.  The other orders keep their state. */
  method CancelOrders(orders: seq<Order>, bot: Notifier, ghost ps: set<Product>)
    returns (r: string, ghost before: map<Product, int>, ghost was: seq<OrderState>)
    requires forall a, b :: 0 <= a < b < |orders| ==> orders[a] != orders[b]
    requires forall m :: 0 <= m < |orders| ==> orders[m].products <= ps
    modifies orders, ps, bot
    ensures before == old(StockOf(ps)) && |was| == |orders|
    ensures forall m :: 0 <= m < |orders| ==> was[m] == old(orders[m].State())
    ensures r == BulkMessage(|orders|, "отменено")
    ensures Covers(before, Flatten(PendingRuns(orders, was)))
    ensures forall p :: p in ps ==> p.quantity == Give(before, Flatten(PendingRuns(orders, was)))[p]
    ensures bot.sent == old(bot.sent) + Flatten(CancelRuns(orders, was))
    ensures Progress(orders, was, |orders|, StatusCancelled, BulkCancelComment)
  {
    was := States(orders);
    before := StockOf(ps);
    ghost var runs := PendingRuns(orders, was);
    ghost var notes := CancelRuns(orders, was);
    assert runs[..0] == [] && notes[..0] == [];
    CancelLoop(orders, bot, ps, before, was, runs, notes, bot.sent);
    r := BulkMessage(|orders|, "отменено");
  }

  /** Why an action on one order failed: no order has the id (`DoesNotExist`), or confirming
      it raised a `ValidationError`. */
  datatype AdminError = NotFound | Rejected(shortage: Shortage)

  /** `Order.objects.get(id=...)`: the position of the order with that id, if there is one. */
  function FindOrder(orders: seq<Order>, id: nat): (r: Option<nat>)
    ensures r.Some? ==> r.value < |orders| && orders[r.value].id == id
    ensures r.Some? ==> forall m :: 0 <= m < r.value ==> orders[m].id != id
    ensures r.None? <==> forall m :: 0 <= m < |orders| ==> orders[m].id != id
  {
    if orders == [] then None
    else if orders[0].id == id then Some(0)
    else
      match FindOrder(orders[1..], id)
      case None => None
      case Some(k) => Some(k + 1)
  }

  /** The `ValidationError` a single-order action let through, if any. */
  function Raised(r: Result<Option<string>, AdminError>): Option<Shortage> {
    if r.Failure? && r.error.Rejected? then Some(r.error.shortage) else None
  }

  /** `confirm_order`: the order with id `id` is looked up; a "new" one gets
      `update_status('confirmed', ...)`, whose `ValidationError` propagates, and unless it
      raised, the confirmation message is shown.  An order in any other state is left alone
      and no message is shown. */
  method ConfirmOrder(orders: seq<Order>, id: nat, bot: Notifier, ghost ps: set<Product>)
    returns (r: Result<Option<string>, AdminError>)
    requires forall m :: 0 <= m < |orders| ==> orders[m].products <= ps
    modifies orders, ps, bot
    ensures r == Failure(NotFound) <==> FindOrder(orders, id).None?
    ensures FindOrder(orders, id).None? ==> unchanged(orders) && unchanged(ps) && unchanged(bot)
    ensures FindOrder(orders, id).Some? ==>
      var o := orders[FindOrder(orders, id).value];
      && (forall m :: 0 <= m < |orders| && orders[m] != o ==> unchanged(orders[m]))
      && (forall p :: p in ps && p !in o.products ==> unchanged(p))
      && if old(o.status) != StatusNew then
           r == Success(None) && unchanged(o) && unchanged(o.products) && unchanged(bot)
         else
           && StatusUpdated(o, StatusConfirmed, ConfirmComment, bot, Raised(r))
           && (r.Success? ==> r.value == Some(OrderMessage(id, "подтвержден")))
  {
    var found := FindOrder(orders, id);
    if found.None? {
      return Failure(NotFound);
    }
    var o := orders[found.value];
    if o.status != StatusNew {
      return Success(None);
    }
    var err := o.UpdateStatus(StatusConfirmed, ConfirmComment, bot);
    if err.Some? {
      return Failure(Rejected(err.value));
    }
    return Success(Some(OrderMessage(o.id, "подтвержден")));
  }

  /** `cancel_order`: the order with id `id` is looked up; a "new" one gets
      `update_status('cancelled', ...)` and the cancellation message is shown.  An order in
      any other state is left alone and no message is shown. */
  method CancelOrder(orders: seq<Order>, id: nat, bot: Notifier, ghost ps: set<Product>)
    returns (r: Result<Option<string>, AdminError>)
    requires forall m :: 0 <= m < |orders| ==> orders[m].products <= ps
    modifies orders, ps, bot
    ensures r == Failure(NotFound) <==> FindOrder(orders, id).None?
    ensures FindOrder(orders, id).None? ==> unchanged(orders) && unchanged(ps) && unchanged(bot)
    ensures FindOrder(orders, id).Some? ==>
      var o := orders[FindOrder(orders, id).value];
      && (forall m :: 0 <= m < |orders| && orders[m] != o ==> unchanged(orders[m]))
      && (forall p :: p in ps && p !in o.products ==> unchanged(p))
      && if old(o.status) != StatusNew then
           r == Success(None) && unchanged(o) && unchanged(o.products) && unchanged(bot)
         else
           && StatusUpdated(o, StatusCancelled, CancelComment, bot, None)
           && r == Success(Some(OrderMessage(id, "отменен")))
  {
    var found := FindOrder(orders, id);
    if found.None? {
      return Failure(NotFound);
    }
    var o := orders[found.value];
    if o.status != StatusNew {
      return Success(None);
    }
    var _ := o.UpdateStatus(StatusCancelled, CancelComment, bot);
    return Success(Some(OrderMessage(o.id, "отменен")));
  }
}
