/** The stock bookkeeping that an order's status change performs, stated on values.

    A stock table maps each product to its units in the warehouse; an order contributes
    one `Line` per order item.  Confirming an order walks its lines in order, checks each
    line against the stock left by the lines before it and, if the check passes, takes
    the line's units away (`Take`).  The walk stops at the first line that does not fit
    (`FirstShort`), with the lines before it already taken.  Cancelling an order gives
    every line's units back (`Give`).  Products are a type parameter: the order model
    instantiates it with its product objects, the lemmas hold for any key type. */
module Stock {
  import opened Base

  /** One order item as the stock sees it: which product, and how many units of it. */
  datatype Line<K> = Line(product: K, qty: int)

  /** Every line names a product the stock table knows. */
  predicate Covers<K(==)>(stock: map<K, int>, lines: seq<Line<K>>) {
    forall i :: 0 <= i < |lines| ==> lines[i].product in stock
  }

  /** Units of `p` that `lines` ask for, summed over every line of `p`. */
  function QtyFor<K(==)>(lines: seq<Line<K>>, p: K): int {
    if lines == [] then 0
    else
      var last := lines[|lines| - 1];
      QtyFor(lines[..|lines| - 1], p) + (if last.product == p then last.qty else 0)
  }

  /** The stock after taking each line's units from its product, one line after the other. */
  function Take<K(==)>(stock: map<K, int>, lines: seq<Line<K>>): (r: map<K, int>)
    requires Covers(stock, lines)
    ensures r.Keys == stock.Keys
  {
    if lines == [] then stock
    else
      var last := lines[|lines| - 1];
      var s := Take(stock, lines[..|lines| - 1]);
      s[last.product := s[last.product] - last.qty]
  }

  /** The stock after giving each line's units back to its product, one line after the other. */
  function Give<K(==)>(stock: map<K, int>, lines: seq<Line<K>>): (r: map<K, int>)
    requires Covers(stock, lines)
    ensures r.Keys == stock.Keys
  {
    if lines == [] then stock
    else
      var last := lines[|lines| - 1];
      var s := Give(stock, lines[..|lines| - 1]);
      s[last.product := s[last.product] + last.qty]
  }

  /** Every line passes the stock check `qty <= units left` against the stock that the
      lines before it have left. */
  predicate Fits<K(==)>(stock: map<K, int>, lines: seq<Line<K>>)
    requires Covers(stock, lines)
  {
    lines == [] ||
    var last := lines[|lines| - 1];
    Fits(stock, lines[..|lines| - 1]) && last.qty <= Take(stock, lines[..|lines| - 1])[last.product]
  }

  /** Line `k` asks for more units than the lines before it have left. */
  predicate ShortAt<K(==)>(stock: map<K, int>, lines: seq<Line<K>>, k: nat)
    requires Covers(stock, lines) && k < |lines|
  {
    lines[k].qty > Take(stock, lines[..k])[lines[k].product]
  }

  /** The line at which a confirmation stops, if any: the first line that does not fit. */
  function FirstShort<K(==)>(stock: map<K, int>, lines: seq<Line<K>>): (r: Option<nat>)
    requires Covers(stock, lines)
    ensures r == None <==> Fits(stock, lines)
    ensures r.Some? ==> r.value < |lines| && Fits(stock, lines[..r.value]) && ShortAt(stock, lines, r.value)
  {
    if lines == [] then None
    else
      var init := lines[..|lines| - 1];
      var last := lines[|lines| - 1];
      match FirstShort(stock, init)
      case Some(k) =>
        assert init[..k] == lines[..k];
        Some(k)
      case None =>
        if last.qty > Take(stock, init)[last.product] then Some(|lines| - 1) else None
  }

  /** The check at line `i` compares its units with the product's stock less what the lines
      before it asked for: it passes exactly when the walk can go on past line `i`. */
  lemma FitsStep<K>(stock: map<K, int>, lines: seq<Line<K>>, i: nat)
    requires Covers(stock, lines) && i < |lines|
    ensures Covers(stock, lines[..i]) && Covers(stock, lines[..i + 1])
    ensures Take(stock, lines[..i])[lines[i].product] == stock[lines[i].product] - QtyFor(lines[..i], lines[i].product)
    ensures ShortAt(stock, lines, i) <==> lines[i].qty > stock[lines[i].product] - QtyFor(lines[..i], lines[i].product)
    ensures Fits(stock, lines[..i + 1]) <==> Fits(stock, lines[..i]) && !ShortAt(stock, lines, i)
  {
    assert lines[..i + 1][..i] == lines[..i];
    TakeAt(stock, lines[..i], lines[i].product);
  }

  /** A line that is short after a run of lines that all fit is where the confirmation stops. */
  lemma {:induction false} FirstShortAt<K>(stock: map<K, int>, lines: seq<Line<K>>, k: nat)
    requires Covers(stock, lines) && k < |lines|
    requires Fits(stock, lines[..k]) && ShortAt(stock, lines, k)
    ensures FirstShort(stock, lines) == Some(k)
  {
    var init := lines[..|lines| - 1];
    if k < |lines| - 1 {
      assert init[..k] == lines[..k];
      FirstShortAt(stock, init, k);
    } else {
      assert init == lines[..k];
    }
  }

  /** Taking line by line lowers each product by the total units its lines ask for. */
  lemma {:induction false} TakeAt<K>(stock: map<K, int>, lines: seq<Line<K>>, p: K)
    requires Covers(stock, lines) && p in stock
    ensures Take(stock, lines)[p] == stock[p] - QtyFor(lines, p)
  {
    if lines != [] {
      TakeAt(stock, lines[..|lines| - 1], p);
    }
  }

  /** Giving back line by line raises each product by the total units its lines ask for. */
  lemma {:induction false} GiveAt<K>(stock: map<K, int>, lines: seq<Line<K>>, p: K)
    requires Covers(stock, lines) && p in stock
    ensures Give(stock, lines)[p] == stock[p] + QtyFor(lines, p)
  {
    if lines != [] {
      GiveAt(stock, lines[..|lines| - 1], p);
    }
  }

  /** A product that no line names is not asked for. */
  lemma {:induction false} QtyForAbsent<K>(lines: seq<Line<K>>, p: K)
    requires forall i :: 0 <= i < |lines| ==> lines[i].product != p
    ensures QtyFor(lines, p) == 0
  {
    if lines != [] {
      QtyForAbsent(lines[..|lines| - 1], p);
    }
  }

  lemma {:induction false} QtyForAppend<K>(a: seq<Line<K>>, b: seq<Line<K>>, p: K)
    ensures QtyFor(a + b, p) == QtyFor(a, p) + QtyFor(b, p)
  {
    if b != [] {
      assert (a + b)[..|a + b| - 1] == a + b[..|b| - 1];
      QtyForAppend(a, b[..|b| - 1], p);
    } else {
      assert a + b == a;
    }
  }

  /** Cancelling gives back exactly what confirming took: the two walks cancel out. */
  lemma GiveUndoesTake<K>(stock: map<K, int>, lines: seq<Line<K>>)
    requires Covers(stock, lines)
    ensures Give(Take(stock, lines), lines) == stock
  {
    var t := Take(stock, lines);
    forall p | p in stock
      ensures Give(t, lines)[p] == stock[p]
    {
      TakeAt(stock, lines, p);
      GiveAt(t, lines, p);
    }
  }

  /** Taking two runs of lines one after the other is taking their concatenation. */
  lemma TakeAppend<K>(stock: map<K, int>, a: seq<Line<K>>, b: seq<Line<K>>)
    requires Covers(stock, a) && Covers(stock, b)
    ensures Covers(stock, a + b) && Covers(Take(stock, a), b)
    ensures Take(stock, a + b) == Take(Take(stock, a), b)
  {
    var ab := Take(stock, a + b);
    var t := Take(stock, a);
    forall p | p in stock
      ensures ab[p] == Take(t, b)[p]
    {
      TakeAt(stock, a + b, p);
      TakeAt(stock, a, p);
      TakeAt(t, b, p);
      QtyForAppend(a, b, p);
    }
  }

  /** Giving back two runs of lines one after the other is giving back their concatenation. */
  lemma GiveAppend<K>(stock: map<K, int>, a: seq<Line<K>>, b: seq<Line<K>>)
    requires Covers(stock, a) && Covers(stock, b)
    ensures Covers(stock, a + b) && Covers(Give(stock, a), b)
    ensures Give(stock, a + b) == Give(Give(stock, a), b)
  {
    var ab := Give(stock, a + b);
    var g := Give(stock, a);
    forall p | p in stock
      ensures ab[p] == Give(g, b)[p]
    {
      GiveAt(stock, a + b, p);
      GiveAt(stock, a, p);
      GiveAt(g, b, p);
      QtyForAppend(a, b, p);
    }
  }

  /** Whether lines fit depends only on the stock of the products they name. */
  lemma {:induction false} FitsAgree<K>(s1: map<K, int>, s2: map<K, int>, lines: seq<Line<K>>)
    requires Covers(s1, lines) && Covers(s2, lines)
    requires forall i :: 0 <= i < |lines| ==> s1[lines[i].product] == s2[lines[i].product]
    ensures Fits(s1, lines) <==> Fits(s2, lines)
  {
    if lines != [] {
      var init := lines[..|lines| - 1];
      var last := lines[|lines| - 1];
      FitsAgree(s1, s2, init);
      TakeAt(s1, init, last.product);
      TakeAt(s2, init, last.product);
    }
  }

  /** Lines fit in a row exactly when the first run fits and the second run fits the stock
      the first run leaves. */
  lemma {:induction false} FitsAppend<K>(stock: map<K, int>, a: seq<Line<K>>, b: seq<Line<K>>)
    requires Covers(stock, a) && Covers(stock, b)
    ensures Covers(stock, a + b) && Covers(Take(stock, a), b)
    ensures Fits(stock, a + b) <==> Fits(stock, a) && Fits(Take(stock, a), b)
  {
    TakeAppend(stock, a, b);
    if b == [] {
      assert a + b == a;
    } else {
      var init := b[..|b| - 1];
      var last := b[|b| - 1];
      assert (a + b)[..|a + b| - 1] == a + init;
      assert (a + b)[|a + b| - 1] == last;
      FitsAppend(stock, a, init);
      TakeAppend(stock, a, init);
    }
  }

  /** After a confirmation that passes every check, no product its lines name is left with
      negative stock, whatever the signs of the quantities. */
  lemma {:induction false} FitsLeavesNoNegative<K>(stock: map<K, int>, lines: seq<Line<K>>)
    requires Covers(stock, lines) && Fits(stock, lines)
    ensures forall i :: 0 <= i < |lines| ==> Take(stock, lines)[lines[i].product] >= 0
  {
    if lines != [] {
      var init := lines[..|lines| - 1];
      FitsLeavesNoNegative(stock, init);
      forall i | 0 <= i < |lines|
        ensures Take(stock, lines)[lines[i].product] >= 0
      {
        if i < |lines| - 1 {
          assert lines[i] == init[i];
        }
      }
    }
  }

  /** Products named by the lines, pairwise different. */
  predicate Distinct<K(==)>(lines: seq<Line<K>>) {
    forall i, j :: 0 <= i < j < |lines| ==> lines[i].product != lines[j].product
  }

  /** When no product appears on two lines, the walk amounts to checking every line against
      the stock as it was before the confirmation. */
  lemma {:induction false} FitsDistinct<K>(stock: map<K, int>, lines: seq<Line<K>>)
    requires Covers(stock, lines) && Distinct(lines)
    ensures Fits(stock, lines) <==> forall i :: 0 <= i < |lines| ==> lines[i].qty <= stock[lines[i].product]
  {
    if lines != [] {
      var init := lines[..|lines| - 1];
      var last := lines[|lines| - 1];
      FitsDistinct(stock, init);
      TakeAt(stock, init, last.product);
      QtyForAbsent(init, last.product);
    }
  }

  /** Runs of lines, one after the other. */
  function Flatten<T>(runs: seq<seq<T>>): (r: seq<T>)
  {
    if runs == [] then [] else Flatten(runs[..|runs| - 1]) + runs[|runs| - 1]
  }

  /** An element of the runs laid end to end is an element of one of the runs, and back. */
  lemma {:induction false} InFlatten<T>(runs: seq<seq<T>>, x: T)
    ensures x in Flatten(runs) <==> exists m :: 0 <= m < |runs| && x in runs[m]
  {
    if runs != [] {
      var init := runs[..|runs| - 1];
      InFlatten(init, x);
      if x in Flatten(runs) && x !in runs[|runs| - 1] {
        var m :| 0 <= m < |init| && x in init[m];
        assert x in runs[m];
      }
      if exists m :: 0 <= m < |runs| && x in runs[m] {
        var m :| 0 <= m < |runs| && x in runs[m];
        if m < |runs| - 1 {
          assert x in init[m];
        }
      }
    }
  }

  lemma {:induction false} FlattenAppend<T>(a: seq<seq<T>>, b: seq<seq<T>>)
    ensures Flatten(a + b) == Flatten(a) + Flatten(b)
  {
    if b == [] {
      assert a + b == a;
    } else {
      var front, last := b[..|b| - 1], b[|b| - 1];
      assert (a + b)[..|a + b| - 1] == a + front;
      assert (a + b)[|a + b| - 1] == last;
      FlattenAppend(a, front);
      calc {
        Flatten(a + b);
        Flatten(a + front) + last;
        (Flatten(a) + Flatten(front)) + last;
        { assert Flatten(b) == Flatten(front) + last; }
        Flatten(a) + Flatten(b);
      }
    }
  }

  /** The first `|a| + k` lines of `a + b` are `a` and the first `k` lines of `b`. */
  lemma ShiftPrefix<K>(stock: map<K, int>, a: seq<Line<K>>, b: seq<Line<K>>, k: nat)
    requires Covers(stock, a) && Covers(stock, b) && k < |b|
    ensures Covers(stock, a + b) && Covers(Take(stock, a), b)
    ensures (a + b)[..|a| + k] == a + b[..k] && (a + b)[|a| + k] == b[k]
    ensures Take(stock, (a + b)[..|a| + k]) == Take(Take(stock, a), b[..k])
    ensures Fits(stock, (a + b)[..|a| + k]) <==> Fits(stock, a) && Fits(Take(stock, a), b[..k])
  {
    var pre := b[..k];
    assert (a + b)[..|a| + k] == a + pre;
    FitsAppend(stock, a, pre);
    TakeAppend(stock, a, pre);
    TakeAppend(stock, a, b);
  }

  /** Runs that each name only products of the stock flatten to lines that do too. */
  lemma {:induction false} CoversFlatten<K>(stock: map<K, int>, runs: seq<seq<Line<K>>>)
    requires forall m :: 0 <= m < |runs| ==> Covers(stock, runs[m])
    ensures Covers(stock, Flatten(runs))
  {
    if runs != [] {
      CoversFlatten(stock, runs[..|runs| - 1]);
    }
  }

  /** One more run. */
  lemma FlattenStep<T>(runs: seq<seq<T>>, j: nat)
    requires j < |runs|
    ensures Flatten(runs[..j + 1]) == Flatten(runs[..j]) + runs[j]
  {
    assert runs[..j + 1][..j] == runs[..j];
  }

  /** The elements before position `k` of run `j` are the runs before it and `k` elements of it. */
  lemma FlattenPrefixRun<T>(runs: seq<seq<T>>, j: nat, k: nat)
    requires j < |runs| && k <= |runs[j]|
    ensures |Flatten(runs[..j])| + k <= |Flatten(runs)|
    ensures Flatten(runs)[..|Flatten(runs[..j])| + k] == Flatten(runs[..j]) + runs[j][..k]
  {
    assert runs == runs[..j + 1] + runs[j + 1..];
    FlattenAppend(runs[..j + 1], runs[j + 1..]);
    FlattenStep(runs, j);
  }

  /** Runs of the same lengths flatten to sequences of the same length. */
  lemma {:induction false} FlattenLengths<T, U>(a: seq<seq<T>>, b: seq<seq<U>>)
    requires |a| == |b| && forall m :: 0 <= m < |a| ==> |a[m]| == |b[m]|
    ensures |Flatten(a)| == |Flatten(b)|
  {
    if a != [] {
      FlattenLengths(a[..|a| - 1], b[..|b| - 1]);
    }
  }

  /** The first line that does not fit after a run of lines that all fit. */
  lemma FirstShortAppend<K>(stock: map<K, int>, a: seq<Line<K>>, b: seq<Line<K>>, k: nat)
    requires Covers(stock, a) && Covers(stock, b) && Fits(stock, a)
    requires Covers(Take(stock, a), b) && k < |b| && Fits(Take(stock, a), b[..k]) && ShortAt(Take(stock, a), b, k)
    ensures Covers(stock, a + b) && |a| + k < |a + b|
    ensures Take(stock, (a + b)[..|a| + k]) == Take(Take(stock, a), b[..k])
    ensures FirstShort(stock, a + b) == Some(|a| + k)
  {
    ShiftPrefix(stock, a, b, k);
    FirstShortAt(stock, a + b, |a| + k);
  }

  /** Lines added after the first line that does not fit do not move it. */
  lemma {:induction false} FirstShortExtend<K>(stock: map<K, int>, a: seq<Line<K>>, b: seq<Line<K>>)
    requires Covers(stock, a) && Covers(stock, b) && FirstShort(stock, a).Some?
    ensures Covers(stock, a + b) && FirstShort(stock, a + b) == FirstShort(stock, a)
  {
    var k := FirstShort(stock, a).value;
    assert (a + b)[..k] == a[..k];
    assert (a + b)[k] == a[k];
    FirstShortAt(stock, a + b, k);
  }

  /** `part` agrees with `whole` on its own products. */
  ghost predicate PartOf<K>(part: map<K, int>, whole: map<K, int>) {
    part.Keys <= whole.Keys && forall p :: p in part ==> part[p] == whole[p]
  }

  /** Walking lines that name only the products of `part` changes the same entries of `whole`
      in the same way, and leaves every other entry alone. */
  lemma PartTakeGive<K>(whole: map<K, int>, part: map<K, int>, lines: seq<Line<K>>, p: K)
    requires Covers(part, lines) && PartOf(part, whole) && p in whole
    ensures Covers(whole, lines)
    ensures Take(whole, lines)[p] == if p in part then Take(part, lines)[p] else whole[p]
    ensures Give(whole, lines)[p] == if p in part then Give(part, lines)[p] else whole[p]
  {
    TakeAt(whole, lines, p);
    GiveAt(whole, lines, p);
    if p in part {
      TakeAt(part, lines, p);
      GiveAt(part, lines, p);
    } else {
      QtyForAbsent(lines, p);
    }
  }

  /** ... and the same line is the first that does not fit. */
  lemma PartFirstShort<K>(whole: map<K, int>, part: map<K, int>, lines: seq<Line<K>>)
    requires Covers(part, lines) && PartOf(part, whole)
    ensures Covers(whole, lines) && FirstShort(part, lines) == FirstShort(whole, lines)
  {
    match FirstShort(part, lines)
    case Some(k) =>
      FitsAgree(part, whole, lines[..k]);
      PartTakeGive(whole, part, lines[..k], lines[k].product);
      FirstShortAt(whole, lines, k);
    case None =>
      FitsAgree(part, whole, lines);
  }

  /** Line `k` of run `j` sits `k` lines past the runs before `j`. */
  lemma FlattenAt<T>(runs: seq<seq<T>>, j: nat, k: nat)
    requires j < |runs| && k < |runs[j]|
    ensures Flatten(runs) == Flatten(runs[..j]) + runs[j] + Flatten(runs[j + 1..])
    ensures |Flatten(runs[..j])| + k < |Flatten(runs)|
    ensures Flatten(runs)[|Flatten(runs[..j])| + k] == runs[j][k]
    ensures Flatten(runs)[..|Flatten(runs[..j])| + k] == Flatten(runs[..j]) + runs[j][..k]
  {
    var n := |Flatten(runs[..j])| + k;
    assert runs == runs[..j + 1] + runs[j + 1..];
    FlattenAppend(runs[..j + 1], runs[j + 1..]);
    FlattenStep(runs, j);
    FlattenPrefixRun(runs, j, k + 1);
    assert Flatten(runs)[n] == (Flatten(runs[..j]) + runs[j][..k + 1])[n];
    FlattenPrefixRun(runs, j, k);
  }

  /** The runs laid end to end are those before run `j`, run `j`, and those after it. */
  lemma FlattenSplit<T>(runs: seq<seq<T>>, j: nat)
    requires j < |runs|
    ensures Flatten(runs) == Flatten(runs[..j]) + runs[j] + Flatten(runs[j + 1..])
  {
    assert runs == runs[..j + 1] + runs[j + 1..];
    FlattenAppend(runs[..j + 1], runs[j + 1..]);
    FlattenStep(runs, j);
  }

  /** Lines that name only products of the stock, cut in three. */
  lemma CoversSplit<K>(stock: map<K, int>, a: seq<Line<K>>, b: seq<Line<K>>, c: seq<Line<K>>)
    requires Covers(stock, a + b + c)
    ensures Covers(stock, a) && Covers(stock, b) && Covers(stock, c)
  {
    var all := a + b + c;
    forall i | 0 <= i < |a| ensures a[i].product in stock { assert a[i] == all[i]; }
    forall i | 0 <= i < |b| ensures b[i].product in stock { assert b[i] == all[|a| + i]; }
    forall i | 0 <= i < |c| ensures c[i].product in stock { assert c[i] == all[|a| + |b| + i]; }
  }

  /** A walk over `a`, `b` and `c` in a row, where `a` fits and `b`, against the stock `a`
      leaves, stops at its line `k`, stops `k` lines into `b`. */
  lemma StopABC<K>(stock: map<K, int>, a: seq<Line<K>>, b: seq<Line<K>>, c: seq<Line<K>>, all: seq<Line<K>>, k: nat)
    requires all == a + b + c
    requires Covers(stock, a) && Covers(stock, b) && Covers(stock, c) && Fits(stock, a) && k < |b|
    requires Covers(Take(stock, a), b) && Fits(Take(stock, a), b[..k]) && ShortAt(Take(stock, a), b, k)
    ensures Covers(stock, all) && FirstShort(stock, all) == Some(|a| + k)
  {
    FirstShortAppend(stock, a, b, k);
    FirstShortExtend(stock, a + b, c);
  }

  /** When the runs before `j` (`before`) fit and run `j`, against the stock they leave, stops
      at its line `k`, the walk over all the runs (`all`) stops `k` lines into run `j`. */
  lemma {:induction false} RunsStop<K>(stock: map<K, int>, runs: seq<seq<Line<K>>>, j: nat, k: nat, n: nat, all: seq<Line<K>>, before: seq<Line<K>>)
    requires j < |runs| && all == Flatten(runs) && before == Flatten(runs[..j]) && Covers(stock, all)
    requires n == |before| + k
    requires Covers(stock, before) && Fits(stock, before) && k < |runs[j]|
    requires Covers(Take(stock, before), runs[j])
    requires Fits(Take(stock, before), runs[j][..k]) && ShortAt(Take(stock, before), runs[j], k)
    ensures FirstShort(stock, all) == Some(n)
  {
    var after := Flatten(runs[j + 1..]);
    FlattenSplit(runs, j);
    CoversSplit(stock, before, runs[j], after);
    StopABC(stock, before, runs[j], after, all, k);
  }

  /** Line `k` of run `j` is line `|before| + k` of the runs laid end to end. */
  lemma RunsAt<T>(runs: seq<seq<T>>, j: nat, k: nat, n: nat, all: seq<T>, before: seq<T>)
    requires j < |runs| && all == Flatten(runs) && before == Flatten(runs[..j]) && k < |runs[j]|
    requires n == |before| + k
    ensures n < |all| && all[n] == runs[j][k]
    ensures all[..n] == before + runs[j][..k]
  {
    FlattenAt(runs, j, k);
  }

  /** ... and the stock the walk leaves there is the first `k` lines of run `j` taken from
      what the runs before it leave. */
  lemma RunsStopStock<K>(stock: map<K, int>, runs: seq<seq<Line<K>>>, j: nat, k: nat, n: nat, all: seq<Line<K>>, before: seq<Line<K>>)
    requires j < |runs| && all == Flatten(runs) && before == Flatten(runs[..j])
    requires Covers(stock, before) && Covers(stock, runs[j]) && k < |runs[j]| && n == |before| + k
    ensures n < |all|
    ensures Covers(stock, all[..n]) && Covers(Take(stock, before), runs[j][..k])
    ensures Take(stock, all[..n]) == Take(Take(stock, before), runs[j][..k])
  {
    RunsAt(runs, j, k, n, all, before);
    TakeAppend(stock, before, runs[j][..k]);
  }

  /** The walk is not all-or-nothing: with 5 units of "a" and none of "b", an order of
      2 "a" then 1 "b" stops at its second line after the 2 units of "a" are taken. */
  lemma PartialTakeOnShortage()
    ensures var stock := map["a" := 5, "b" := 0];
            var lines := [Line("a", 2), Line("b", 1)];
            FirstShort(stock, lines) == Some(1) && Take(stock, lines[..1]) == map["a" := 3, "b" := 0]
  {
    var stock := map["a" := 5, "b" := 0];
    var lines := [Line("a", 2), Line("b", 1)];
    assert lines[..1] == [Line("a", 2)];
    assert [Line("a", 2)][..0] == [];
    assert Take(stock, lines[..1]) == map["a" := 3, "b" := 0];
    FirstShortAt(stock, lines, 1);
  }
}
