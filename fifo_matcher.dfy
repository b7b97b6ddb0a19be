/** The Webull trade processor of the third dashboard (`process_webull`): keep the
    Filled orders, normalise price and side, then walk the orders in file order
    and match every sell against that symbol's queue of open buy lots,
    first in, first out, to give each order its realized P&L and a running total. */
module FifoMatcher {
  import opened Cells
  import RunningSums

  /** An open lot: the quantity still held and the price it was bought at. */
  datatype Lot = Lot(qty: real, price: real)

  /** One Filled order as the matcher sees it: symbol, lower-cased side, filled
      quantity and price. */
  datatype Fill = Fill(symbol: Cell, side: Cell, qty: real, price: real)

  /** The `positions` dictionary: each symbol's queue of open lots, oldest first. */
  type Book = map<Cell, seq<Lot>>

  /** What a sell realizes and the lots it leaves behind. */
  datatype Sale = Sale(pnl: real, rest: seq<Lot>)

  /** What one order realizes and the book after it. */
  datatype Outcome = Outcome(realized: real, book: Book)

  /** The realized P&L of every order so far, and the book after them. */
  datatype State = State(pnls: seq<real>, book: Book)

  /** Python's `min(a, b)`: `b` only when it is strictly smaller. */
  function Min(a: real, b: real): real
  {
    if b < a then b else a
  }

  // ---------------------------------------------------------------------------
  // The matching loop, as a function of the queue

  /** The sell loop: while something remains to sell and lots are queued, match
      `min(remaining, lot)` units against the head lot; that is the whole lot exactly
      when the lot is no larger than what remains, and the lot is then popped,
      otherwise it is shrunk in place. */
  function Sell(lots: seq<Lot>, remaining: real, price: real): (s: Sale)
    decreases |lots|
  {
    if remaining <= 0.0 || lots == [] then Sale(0.0, lots)
    else if lots[0].qty <= remaining then
      var s := Sell(lots[1..], remaining - lots[0].qty, price);
      Sale(lots[0].qty * (price - lots[0].price) + s.pnl, s.rest)
    else
      Sale(remaining * (price - lots[0].price), [Lot(lots[0].qty - remaining, lots[0].price)] + lots[1..])
  }

  /** Lots leave from the front only: what a sell leaves is the tail of the queue,
      except that its first lot may be the old lot at that place, shrunk, at the same
      price. */
  lemma {:induction false} SellLeavesSuffix(lots: seq<Lot>, remaining: real, price: real)
    ensures |Sell(lots, remaining, price).rest| <= |lots|
    ensures var rest := Sell(lots, remaining, price).rest;
      var k := |lots| - |rest|;
      rest != [] ==> rest[1..] == lots[k + 1..] && rest[0].price == lots[k].price && rest[0].qty <= lots[k].qty
  {
    if remaining > 0.0 && lots != [] && lots[0].qty <= remaining {
      SellLeavesSuffix(lots[1..], remaining - lots[0].qty, price);
    }
  }

  /** The queue after `m` units are matched against its head lot: the lot is popped
      when that is all of it, and shrunk otherwise. */
  function AfterMatch(lots: seq<Lot>, m: real): seq<Lot>
    requires lots != []
  {
    if m == lots[0].qty then lots[1..] else [Lot(lots[0].qty - m, lots[0].price)] + lots[1..]
  }

  /** One turn of the sell loop: match `min(remaining, lot)` units against the head
      lot and sell what remains from the queue that leaves. */
  lemma SellStep(lots: seq<Lot>, remaining: real, price: real)
    requires remaining > 0.0 && lots != []
    ensures var m := Min(remaining, lots[0].qty);
      var s := Sell(AfterMatch(lots, m), remaining - m, price);
      Sell(lots, remaining, price) == Sale(m * (price - lots[0].price) + s.pnl, s.rest)
  {
    var m := Min(remaining, lots[0].qty);
    if lots[0].qty <= remaining {
      assert m == lots[0].qty;
      assert AfterMatch(lots, m) == lots[1..];
    } else {
      assert m == remaining;
      assert Sell(AfterMatch(lots, m), 0.0, price) == Sale(0.0, AfterMatch(lots, m));
    }
  }

  function QueueOf(book: Book, s: Cell): seq<Lot>
  {
    if s in book then book[s] else []
  }

  /** One order: a first-seen symbol gets an empty queue; a buy appends a lot and
      realizes 0; a sell runs the matching loop; any other side realizes 0. Only the
      order's own symbol's queue changes. */
  function Step(book: Book, f: Fill): (o: Outcome)
    ensures f.symbol in o.book
    ensures f.side != Text("sell") ==> o.realized == 0.0
  {
    var lots := QueueOf(book, f.symbol);
    if f.side == Text("buy") then
      Outcome(0.0, book[f.symbol := lots + [Lot(f.qty, f.price)]])
    else if f.side == Text("sell") then
      var sale := Sell(lots, f.qty, f.price);
      Outcome(sale.pnl, book[f.symbol := sale.rest])
    else
      Outcome(0.0, book[f.symbol := lots])
  }

  /** The orders processed in file order from an empty book. */
  function Run(fills: seq<Fill>): (s: State)
    ensures |s.pnls| == |fills|
  {
    if fills == [] then State([], map[])
    else
      var before := Run(fills[..|fills| - 1]);
      var o := Step(before.book, fills[|fills| - 1]);
      State(before.pnls + [o.realized], o.book)
  }

  /** The `positions` dictionary and the `trades` list, updated order by order. */
  class LotBook {
    var positions: Book
    var trades: seq<real>

    constructor ()
      ensures positions == map[] && trades == []
    {
      positions := map[];
      trades := [];
    }

    /** Processes one order in place. */
    method Record(f: Fill)
      modifies this
      ensures trades == old(trades) + [Step(old(positions), f).realized]
      ensures positions == Step(old(positions), f).book
    {
      var symbol := f.symbol;
      if symbol !in positions {
        positions := positions[symbol := []];
      }
      if f.side == Text("buy") {
        positions := positions[symbol := positions[symbol] + [Lot(f.qty, f.price)]];
        trades := trades + [0.0];
      } else if f.side == Text("sell") {
        var pnl := 0.0;
        var remaining := f.qty;
        ghost var start := positions;
        while remaining > 0.0 && |positions[symbol]| > 0
          invariant symbol in positions
          invariant positions == start[symbol := positions[symbol]]
          invariant trades == old(trades)
          invariant Sell(start[symbol], f.qty, f.price)
                 == Sale(pnl + Sell(positions[symbol], remaining, f.price).pnl,
                         Sell(positions[symbol], remaining, f.price).rest)
          decreases |positions[symbol]|, if remaining > 0.0 then 1 else 0
        {
          var lot := positions[symbol][0];
          var matched := Min(remaining, lot.qty);
          SellStep(positions[symbol], remaining, f.price);
          pnl := pnl + matched * (f.price - lot.price);
          if matched == lot.qty {
            positions := positions[symbol := positions[symbol][1..]];
          } else {
            positions := positions[symbol := [Lot(lot.qty - matched, lot.price)] + positions[symbol][1..]];
          }
          remaining := remaining - matched;
        }
        trades := trades + [pnl];
      } else {
        trades := trades + [0.0];
      }
    }
  }

  // ---------------------------------------------------------------------------
  // FIFO accounting, stated independently of the loop

  function Total(lots: seq<Lot>): real
  {
    if lots == [] then 0.0 else lots[0].qty + Total(lots[1..])
  }

  /** What the lots cost in all: the sum of quantity times price. */
  function CostBasis(lots: seq<Lot>): real
  {
    if lots == [] then 0.0 else lots[0].qty * lots[0].price + CostBasis(lots[1..])
  }

  predicate Positive(lots: seq<Lot>)
  {
    forall i :: 0 <= i < |lots| ==> lots[i].qty > 0.0
  }

  /** The queue with its first `m` units removed, oldest units first. */
  function Drop(lots: seq<Lot>, m: real): seq<Lot>
  {
    if m <= 0.0 || lots == [] then lots
    else if lots[0].qty <= m then Drop(lots[1..], m - lots[0].qty)
    else [Lot(lots[0].qty - m, lots[0].price)] + lots[1..]
  }

  /** What the first `m` units of the queue cost. */
  function CostOfFirst(lots: seq<Lot>, m: real): real
  {
    if m <= 0.0 || lots == [] then 0.0
    else if lots[0].qty <= m then lots[0].qty * lots[0].price + CostOfFirst(lots[1..], m - lots[0].qty)
    else m * lots[0].price
  }

  /** How many units a sell of `qty` consumes: `min(qty, inventory)`, none for a
      quantity that is not positive. */
  function Consumed(lots: seq<Lot>, qty: real): real
  {
    if qty <= 0.0 then 0.0 else Min(qty, Total(lots))
  }

  lemma {:induction false} TotalOfPositive(lots: seq<Lot>)
    requires Positive(lots)
    ensures Total(lots) >= 0.0
    ensures lots != [] ==> Total(lots) >= lots[0].qty
  {
    if lots != [] {
      TotalOfPositive(lots[1..]);
    }
  }

  /** A sell realizes, for the units it consumes, the sale price less their FIFO
      cost, and leaves the queue with exactly those units removed from the front. */
  lemma {:induction false} SellIsFifo(lots: seq<Lot>, qty: real, price: real)
    requires Positive(lots)
    ensures Sell(lots, qty, price)
         == Sale(Consumed(lots, qty) * price - CostOfFirst(lots, Consumed(lots, qty)), Drop(lots, Consumed(lots, qty)))
  {
    if qty <= 0.0 || lots == [] {
      SellNothing(lots, qty, price);
    } else if lots[0].qty <= qty {
      PositiveTail(lots);
      SellIsFifo(lots[1..], qty - lots[0].qty, price);
      SellWholeHead(lots, qty, price);
    } else {
      SellPartOfHead(lots, qty, price);
    }
  }

  lemma PositiveTail(lots: seq<Lot>)
    requires Positive(lots) && lots != []
    ensures Positive(lots[1..])
  {
    assert forall i :: 0 <= i < |lots[1..]| ==> lots[1..][i] == lots[i + 1];
  }

  /** The case of `SellIsFifo` where nothing is sold. */
  lemma SellNothing(lots: seq<Lot>, qty: real, price: real)
    requires qty <= 0.0 || lots == []
    ensures Sell(lots, qty, price)
         == Sale(Consumed(lots, qty) * price - CostOfFirst(lots, Consumed(lots, qty)), Drop(lots, Consumed(lots, qty)))
  {
    assert Consumed(lots, qty) == 0.0;
  }

  /** The step of `SellIsFifo` where the head lot is used up. */
  lemma SellWholeHead(lots: seq<Lot>, qty: real, price: real)
    requires Positive(lots) && lots != [] && 0.0 < lots[0].qty <= qty
    requires var rest := lots[1..]; var m' := Consumed(rest, qty - lots[0].qty);
      Sell(rest, qty - lots[0].qty, price) == Sale(m' * price - CostOfFirst(rest, m'), Drop(rest, m'))
    ensures Sell(lots, qty, price)
         == Sale(Consumed(lots, qty) * price - CostOfFirst(lots, Consumed(lots, qty)), Drop(lots, Consumed(lots, qty)))
  {
    var h, rest := lots[0], lots[1..];
    var m' := Consumed(rest, qty - h.qty);
    ConsumedWholeHead(lots, qty);
    Regroup(h.qty, m', Consumed(lots, qty), price, h.price);
  }

  lemma ConsumedWholeHead(lots: seq<Lot>, qty: real)
    requires Positive(lots) && lots != [] && 0.0 < lots[0].qty <= qty
    ensures Consumed(lots, qty) == lots[0].qty + Consumed(lots[1..], qty - lots[0].qty)
    ensures Consumed(lots[1..], qty - lots[0].qty) >= 0.0
  {
    assert Positive(lots[1..]);
    TotalOfPositive(lots[1..]);
  }

  lemma Regroup(x: real, y: real, m: real, p: real, c: real)
    requires m == x + y
    ensures x * (p - c) + y * p == m * p - x * c
  {
  }

  /** The step of `SellIsFifo` where the sell ends inside the head lot. */
  lemma SellPartOfHead(lots: seq<Lot>, qty: real, price: real)
    requires Positive(lots) && lots != [] && 0.0 < qty < lots[0].qty
    ensures Sell(lots, qty, price)
         == Sale(Consumed(lots, qty) * price - CostOfFirst(lots, Consumed(lots, qty)), Drop(lots, Consumed(lots, qty)))
  {
    var h := lots[0];
    ConsumedInsideHead(lots, qty);
    assert Sell(lots, qty, price) == Sale(qty * (price - h.price), [Lot(h.qty - qty, h.price)] + lots[1..]);
    assert CostOfFirst(lots, qty) == qty * h.price;
    Spread(qty, price, h.price);
  }

  lemma ConsumedInsideHead(lots: seq<Lot>, qty: real)
    requires Positive(lots) && lots != [] && 0.0 < qty < lots[0].qty
    ensures Consumed(lots, qty) == qty
  {
    assert Positive(lots[1..]);
    TotalOfPositive(lots[1..]);
  }

  lemma Spread(q: real, p: real, c: real)
    ensures q * (p - c) == q * p - q * c
  {
  }

  /** Removing `m` units from positive lots leaves positive lots holding `m` fewer
      units, and removing all of them or more leaves nothing. */
  lemma {:induction false} DropConserves(lots: seq<Lot>, m: real)
    requires Positive(lots) && m >= 0.0
    ensures Positive(Drop(lots, m))
    ensures m <= Total(lots) ==> Total(Drop(lots, m)) == Total(lots) - m
    ensures m >= Total(lots) ==> Drop(lots, m) == [] && CostOfFirst(lots, m) == CostBasis(lots)
  {
    TotalOfPositive(lots);
    if m > 0.0 && lots != [] {
      TotalOfPositive(lots[1..]);
      if lots[0].qty <= m {
        DropConserves(lots[1..], m - lots[0].qty);
      } else {
        var d := Drop(lots, m);
        assert d == [Lot(lots[0].qty - m, lots[0].price)] + lots[1..];
        assert d[1..] == lots[1..];
      }
    } else if lots != [] {
      TotalOfPositive(lots[1..]);
    }
  }

  /** A sell consumes `min(qty, inventory)` units: the queue it leaves holds that much
      less, and its lots stay positive. */
  lemma SellConserves(lots: seq<Lot>, qty: real, price: real)
    requires Positive(lots) && qty >= 0.0
    ensures Positive(Sell(lots, qty, price).rest)
    ensures Total(Sell(lots, qty, price).rest) == Total(lots) - Min(qty, Total(lots))
  {
    SellIsFifo(lots, qty, price);
    TotalOfPositive(lots);
    DropConserves(lots, Consumed(lots, qty));
  }

  /** Selling more than the inventory empties the queue, raises nothing, and realizes
      exactly what selling the inventory would: the excess adds no P&L. */
  lemma Oversell(lots: seq<Lot>, qty: real, price: real)
    requires Positive(lots) && qty >= Total(lots)
    ensures Sell(lots, qty, price).rest == []
    ensures Sell(lots, qty, price).pnl == Total(lots) * price - CostBasis(lots)
    ensures Sell(lots, qty, price).pnl == Sell(lots, Total(lots), price).pnl
  {
    TotalOfPositive(lots);
    SellIsFifo(lots, qty, price);
    SellIsFifo(lots, Total(lots), price);
    DropConserves(lots, Total(lots));
  }

  /** Splitting a sell in two at the same price changes nothing: the two parts realize
      together what the whole realizes and leave the same queue. */
  lemma {:induction false} SellSplit(lots: seq<Lot>, a: real, b: real, price: real)
    requires a >= 0.0 && b >= 0.0
    ensures Sell(lots, a + b, price)
         == Sale(Sell(lots, a, price).pnl + Sell(Sell(lots, a, price).rest, b, price).pnl,
                 Sell(Sell(lots, a, price).rest, b, price).rest)
  {
    if a > 0.0 && lots != [] {
      if lots[0].qty <= a {
        SellSplit(lots[1..], a - lots[0].qty, b, price);
        SplitAfterHead(lots, a, b, price);
      } else if b > 0.0 {
        SplitInsideHead(lots, a, b, price);
      } else {
        assert a + b == a;
      }
    }
  }

  /** The step of `SellSplit` where the first part uses up the head lot. */
  lemma SplitAfterHead(lots: seq<Lot>, a: real, b: real, price: real)
    requires lots != [] && 0.0 < a && lots[0].qty <= a && b >= 0.0
    requires var rest, a' := lots[1..], a - lots[0].qty;
      Sell(rest, a' + b, price)
      == Sale(Sell(rest, a', price).pnl + Sell(Sell(rest, a', price).rest, b, price).pnl,
              Sell(Sell(rest, a', price).rest, b, price).rest)
    ensures Sell(lots, a + b, price)
         == Sale(Sell(lots, a, price).pnl + Sell(Sell(lots, a, price).rest, b, price).pnl,
                 Sell(Sell(lots, a, price).rest, b, price).rest)
  {
    var h, rest := lots[0], lots[1..];
    assert a + b - h.qty == (a - h.qty) + b;
  }

  /** The step of `SellSplit` where the first part ends inside the head lot. */
  lemma SplitInsideHead(lots: seq<Lot>, a: real, b: real, price: real)
    requires lots != [] && 0.0 < a < lots[0].qty && b > 0.0
    ensures Sell(lots, a + b, price)
         == Sale(Sell(lots, a, price).pnl + Sell(Sell(lots, a, price).rest, b, price).pnl,
                 Sell(Sell(lots, a, price).rest, b, price).rest)
  {
    var h, rest := lots[0], lots[1..];
    var d := price - h.price;
    var q := [Lot(h.qty - a, h.price)] + rest;
    assert Sell(lots, a, price) == Sale(a * d, q);
    assert q[0] == Lot(h.qty - a, h.price) && q[1..] == rest;
    if h.qty <= a + b {
      assert b - (h.qty - a) == a + b - h.qty;
      Distribute(a, h.qty - a, d);
    } else {
      assert h.qty - a - b == h.qty - (a + b);
      Distribute(a, b, d);
    }
  }

  lemma Distribute(x: real, y: real, d: real)
    ensures x * d + y * d == (x + y) * d
  {
  }

  /** The loop version of a sell step by step agrees with the FIFO statement on the
      worked example: Buy 10 @ 10, Buy 5 @ 12, Sell 12 @ 15 realizes 56 and leaves
      one lot of 3 @ 12; Sell 20 @ 15 against 10 @ 10 alone realizes 50 and leaves
      nothing. */
  lemma WorkedExamples()
    ensures Sell([Lot(10.0, 10.0), Lot(5.0, 12.0)], 12.0, 15.0) == Sale(56.0, [Lot(3.0, 12.0)])
    ensures Sell([Lot(10.0, 10.0)], 20.0, 15.0) == Sale(50.0, [])
  {
    var q := [Lot(10.0, 10.0), Lot(5.0, 12.0)];
    assert q[1..] == [Lot(5.0, 12.0)];
    assert Sell([Lot(5.0, 12.0)], 2.0, 15.0) == Sale(6.0, [Lot(3.0, 12.0)] + []);
    assert [Lot(10.0, 10.0)][1..] == [];
  }

  // ---------------------------------------------------------------------------
  // Orders, books and symbols

  /** One order changes only its own symbol's queue, which a first-seen symbol starts
      empty: a buy appends a lot of its quantity and price at the tail, a sell leaves
      what the loop over the queue leaves, and any other side leaves it as it was. */
  lemma StepEffects(book: Book, f: Fill)
    ensures var o := Step(book, f);
      && (forall s :: s != f.symbol ==> (s in o.book <==> s in book))
      && (forall s :: s != f.symbol && s in book ==> o.book[s] == book[s])
      && (f.side == Text("buy") ==> o.book[f.symbol] == QueueOf(book, f.symbol) + [Lot(f.qty, f.price)])
      && (f.side != Text("buy") && f.side != Text("sell") ==> o.book[f.symbol] == QueueOf(book, f.symbol))
      && (f.side == Text("sell") ==> Sale(o.realized, o.book[f.symbol]) == Sell(QueueOf(book, f.symbol), f.qty, f.price))
  {
  }

  lemma {:induction false} SellKeepsPositive(lots: seq<Lot>, qty: real, price: real)
    requires Positive(lots)
    ensures Positive(Sell(lots, qty, price).rest)
  {
    if qty > 0.0 && lots != [] {
      var head := lots[0];
      var matched := Min(qty, head.qty);
      if matched == head.qty {
        SellKeepsPositive(lots[1..], qty - matched, price);
      } else {
        var r := Sell(lots, qty, price).rest;
        assert r == [Lot(head.qty - matched, head.price)] + lots[1..];
        assert forall i :: 1 <= i < |r| ==> r[i] == lots[i];
      }
    }
  }

  predicate BuysArePositive(fills: seq<Fill>)
  {
    forall i :: 0 <= i < |fills| && fills[i].side == Text("buy") ==> fills[i].qty > 0.0
  }

  /** When every buy has a positive quantity, every queued lot of every symbol keeps a
      positive quantity. */
  lemma {:induction false} RunKeepsLotsPositive(fills: seq<Fill>)
    requires BuysArePositive(fills)
    ensures forall s :: s in Run(fills).book ==> Positive(Run(fills).book[s])
  {
    if fills != [] {
      var init := fills[..|fills| - 1];
      var f := fills[|fills| - 1];
      assert BuysArePositive(init) by {
        forall i | 0 <= i < |init| && init[i].side == Text("buy") ensures init[i].qty > 0.0 {
          assert init[i] == fills[i];
        }
      }
      RunKeepsLotsPositive(init);
      var b := Run(init).book;
      var lots := QueueOf(b, f.symbol);
      assert Positive(lots);
      if f.side == Text("sell") {
        SellKeepsPositive(lots, f.qty, f.price);
      }
    }
  }

  /** The orders of one symbol, in file order. */
  function OnlySymbol(fills: seq<Fill>, s: Cell): seq<Fill>
  {
    if fills == [] then []
    else
      var last := fills[|fills| - 1];
      OnlySymbol(fills[..|fills| - 1], s) + (if last.symbol == s then [last] else [])
  }

  /** The entries of `pnls` at the orders of one symbol, in file order. */
  function PnLsOfSymbol(fills: seq<Fill>, pnls: seq<real>, s: Cell): seq<real>
    requires |pnls| == |fills|
  {
    if fills == [] then []
    else
      var n := |fills| - 1;
      PnLsOfSymbol(fills[..n], pnls[..n], s) + (if fills[n].symbol == s then [pnls[n]] else [])
  }

  /** Symbols are independent: the P&L the orders of one symbol realize, and the queue
      that symbol ends with, are what its orders alone would give. */
  lemma {:induction false} SymbolsAreIndependent(fills: seq<Fill>, s: Cell)
    ensures PnLsOfSymbol(fills, Run(fills).pnls, s) == Run(OnlySymbol(fills, s)).pnls
    ensures QueueOf(Run(fills).book, s) == QueueOf(Run(OnlySymbol(fills, s)).book, s)
  {
    if fills != [] {
      var n := |fills| - 1;
      var init, f := fills[..n], fills[n];
      assert fills == init + [f];
      SymbolsAreIndependent(init, s);
      RunSnoc(init, f);
      var mine := OnlySymbol(init, s);
      if f.symbol == s {
        RunSnoc(mine, f);
        StepSameQueue(Run(init).book, Run(mine).book, f);
      } else {
        StepOtherSymbol(Run(init).book, f, s);
      }
    }
  }

  /** `Run` on orders with one more order at the end. */
  lemma RunSnoc(init: seq<Fill>, f: Fill)
    ensures var before := Run(init); var o := Step(before.book, f);
      Run(init + [f]) == State(before.pnls + [o.realized], o.book)
    ensures OnlySymbol(init + [f], f.symbol) == OnlySymbol(init, f.symbol) + [f]
    ensures forall s :: s != f.symbol ==> OnlySymbol(init + [f], s) == OnlySymbol(init, s)
    ensures forall pnls, x :: |pnls| == |init| ==>
      PnLsOfSymbol(init + [f], pnls + [x], f.symbol) == PnLsOfSymbol(init, pnls, f.symbol) + [x]
    ensures forall pnls, x, s :: |pnls| == |init| && s != f.symbol ==>
      PnLsOfSymbol(init + [f], pnls + [x], s) == PnLsOfSymbol(init, pnls, s)
  {
    assert (init + [f])[..|init|] == init;
    forall pnls: seq<real>, x: real | |pnls| == |init|
      ensures (pnls + [x])[..|init|] == pnls
    {
    }
  }

  /** `Run` on the first `i + 1` orders, from `Run` on the first `i`. */
  lemma RunPrefix(fills: seq<Fill>, i: nat)
    requires i < |fills|
    ensures var before := Run(fills[..i]); var o := Step(before.book, fills[i]);
      Run(fills[..i + 1]) == State(before.pnls + [o.realized], o.book)
  {
    assert fills[..i + 1][..i] == fills[..i];
  }

  /** An order leaves the queues of other symbols alone. */
  lemma StepOtherSymbol(book: Book, f: Fill, s: Cell)
    requires f.symbol != s
    ensures QueueOf(Step(book, f).book, s) == QueueOf(book, s)
  {
  }

  /** What an order realizes, and the queue it leaves for its symbol, depend only on
      that symbol's queue. */
  lemma StepSameQueue(book: Book, other: Book, f: Fill)
    requires QueueOf(book, f.symbol) == QueueOf(other, f.symbol)
    ensures Step(book, f).realized == Step(other, f).realized
    ensures QueueOf(Step(book, f).book, f.symbol) == QueueOf(Step(other, f).book, f.symbol)
  {
  }

  /** Processing the worked example as three Filled orders of one symbol gives P&L
      0, 0 and 56 and leaves one lot of 3 @ 12. */
  lemma WorkedExampleOrders(sym: Cell)
    ensures var fills := [Fill(sym, Text("buy"), 10.0, 10.0), Fill(sym, Text("buy"), 5.0, 12.0),
                          Fill(sym, Text("sell"), 12.0, 15.0)];
      Run(fills) == State([0.0, 0.0, 56.0], map[sym := [Lot(3.0, 12.0)]])
  {
    var f0, f1, f2 := Fill(sym, Text("buy"), 10.0, 10.0), Fill(sym, Text("buy"), 5.0, 12.0),
                      Fill(sym, Text("sell"), 12.0, 15.0);
    var fills := [f0, f1, f2];
    assert [f0][..0] == [];
    var s0 := Run([]);
    assert s0 == State([], map[]);
    assert QueueOf(s0.book, sym) == [];
    assert f0.side == Text("buy");
    assert [] + [Lot(10.0, 10.0)] == [Lot(10.0, 10.0)];
    assert s0.book[sym := [Lot(10.0, 10.0)]] == map[sym := [Lot(10.0, 10.0)]];
    assert Step(s0.book, f0) == Outcome(0.0, map[sym := [Lot(10.0, 10.0)]]);
    var s1 := Run([f0]);
    assert s1 == State([0.0], map[sym := [Lot(10.0, 10.0)]]);
    assert [f0, f1][..1] == [f0];
    assert QueueOf(s1.book, sym) == [Lot(10.0, 10.0)];
    assert f1.side == Text("buy");
    assert [Lot(10.0, 10.0)] + [Lot(5.0, 12.0)] == [Lot(10.0, 10.0), Lot(5.0, 12.0)];
    assert s1.book[sym := [Lot(10.0, 10.0), Lot(5.0, 12.0)]] == map[sym := [Lot(10.0, 10.0), Lot(5.0, 12.0)]];
    assert Step(s1.book, f1) == Outcome(0.0, map[sym := [Lot(10.0, 10.0), Lot(5.0, 12.0)]]);
    var s2 := Run([f0, f1]);
    assert s2.book == map[sym := [Lot(10.0, 10.0), Lot(5.0, 12.0)]];
    assert s2.pnls == [0.0, 0.0];
    assert fills[..2] == [f0, f1];
    WorkedExamples();
  }

  // ---------------------------------------------------------------------------
  // Normalising the Filled rows (lines 15-18 of the dashboard)

  function LowerChar(c: char): char
  {
    if 'A' <= c <= 'Z' then (c as int + 32) as char else c
  }

  function Lower(s: string): string
  {
    seq(|s|, i requires 0 <= i < |s| => LowerChar(s[i]))
  }

  /** `str.lower()` on the Side column: text is lower-cased, anything else is NaN. */
  function LowerSide(c: Cell): (r: Cell)
    ensures !c.Text? ==> r == Missing
    ensures c.Text? ==> r.Text? && |r.s| == |c.s| && forall i :: 0 <= i < |c.s| ==> !('A' <= r.s[i] <= 'Z')
    ensures c.Text? ==> forall i :: 0 <= i < |c.s| && !('A' <= c.s[i] <= 'Z') ==> r.s[i] == c.s[i]
    ensures c.Text? ==> forall i :: 0 <= i < |c.s| && 'A' <= c.s[i] <= 'Z' ==> r.s[i] as int == c.s[i] as int + 32
  {
    match c
    case Text(s) => Text(Lower(s))
    case _ => Missing
  }

  /** Webull's upper-case and mixed-case sides reach the matcher as "buy" and "sell". */
  lemma SideCaseIgnored()
    ensures LowerSide(Text("BUY")) == LowerSide(Text("Buy")) == Text("buy")
    ensures LowerSide(Text("SELL")) == Text("sell")
    ensures LowerSide(Number(1.0)) == Missing
  {
    assert Lower("BUY") == "buy";
    assert Lower("Buy") == "buy";
    assert Lower("SELL") == "sell";
  }

  /** A side reaches the matcher as "buy" exactly when it is text spelling "buy" in
      any mix of cases, and likewise for "sell"; every other side is matched by
      neither branch of the loop. */
  lemma SideMatches(c: Cell)
    ensures LowerSide(c) == Text("buy") <==>
      c.Text? && |c.s| == 3 && c.s[0] in "bB" && c.s[1] in "uU" && c.s[2] in "yY"
    ensures LowerSide(c) == Text("sell") <==>
      c.Text? && |c.s| == 4 && c.s[0] in "sS" && c.s[1] in "eE" && c.s[2] in "lL" && c.s[3] in "lL"
  {
    if c.Text? {
      LowerIs(c.s, "buy", "BUY");
      LowerIs(c.s, "sell", "SELL");
    }
  }

  /** `Lower(s)` is the lower-case word `w` exactly when `s` has, at each position,
      that letter of `w` or of its upper-case spelling `u`. */
  lemma LowerIs(s: string, w: string, u: string)
    requires |u| == |w| && forall i :: 0 <= i < |w| ==> 'a' <= w[i] <= 'z' && u[i] as int == w[i] as int - 32
    ensures Lower(s) == w <==> |s| == |w| && forall i :: 0 <= i < |w| ==> s[i] == w[i] || s[i] == u[i]
  {
    if |s| == |w| && forall i :: 0 <= i < |w| ==> s[i] == w[i] || s[i] == u[i] {
      assert forall i :: 0 <= i < |w| ==> Lower(s)[i] == w[i];
    }
    if Lower(s) == w {
      forall i | 0 <= i < |w| ensures s[i] == w[i] || s[i] == u[i] {
        assert LowerChar(s[i]) == w[i];
      }
    }
  }

  /** `replace('[@]', '', regex=True).astype(float)` on one Price cell: a number is
      kept, text is read as a number once every '@' is removed, and anything else
      fails. */
  function PriceOf(p: Parsers, c: Cell): (r: Result<real>)
    ensures r.Ok? <==> c.Number? || (c.Text? && p.number(StripAt(c.s)).Some?)
    ensures c.Number? ==> r == Ok(c.x)
    ensures c.Text? && r.Ok? ==> r.value == p.number(StripAt(c.s)).value
    ensures r.Err? ==> r.failure == (if c.Missing? then MissingNumber("Price") else NotNumeric("Price"))
  {
    match c
    case Number(x) => Ok(x)
    case Text(s) => (match p.number(StripAt(s)) case Some(x) => Ok(x) case None => Err(NotNumeric("Price")))
    case Missing => Err(MissingNumber("Price"))
    case Stamp(_) => Err(NotNumeric("Price"))
  }

  /** `astype(float)` on one Filled cell; unlike the price, no '@' is removed. */
  function QuantityOf(p: Parsers, c: Cell): (r: Result<real>)
    ensures r.Ok? <==> c.Number? || (c.Text? && p.number(c.s).Some?)
    ensures c.Number? ==> r == Ok(c.x)
    ensures c.Text? && r.Ok? ==> r.value == p.number(c.s).value
    ensures r.Err? ==> r.failure == (if c.Missing? then MissingNumber("Filled") else NotNumeric("Filled"))
  {
    match c
    case Number(x) => Ok(x)
    case Text(s) => (match p.number(s) case Some(x) => Ok(x) case None => Err(NotNumeric("Filled")))
    case Missing => Err(MissingNumber("Filled"))
    case Stamp(_) => Err(NotNumeric("Filled"))
  }

  /** Reads one row's Price cell. */
  function PriceReader(p: Parsers, j: nat): Row -> Result<real>
  {
    r => PriceOf(p, At(r, j))
  }

  /** Reads one row's Filled cell. */
  function QuantityReader(p: Parsers, j: nat): Row -> Result<real>
  {
    r => QuantityOf(p, At(r, j))
  }

  function Fills(rows: seq<Row>, symbol: nat, side: nat, qtys: seq<real>, prices: seq<real>): (fs: seq<Fill>)
    requires |qtys| == |rows| && |prices| == |rows|
    ensures |fs| == |rows|
  {
    seq(|rows|, i requires 0 <= i < |rows| => Fill(At(rows[i], symbol), LowerSide(At(rows[i], side)), qtys[i], prices[i]))
  }

  /** Whether `.str` accepts the Side column at line 17. The column as read from the
      file has an object dtype only when it has no rows or holds some text. On the
      Filled rows, pandas then infers the kind of the present values and accepts
      text, a mix of text and other values ("mixed"), or no present value at all;
      a column whose present values there are all numbers is refused. A number
      next to text is therefore accepted, and `str.lower()` turns it into NaN. */
  predicate StrAccepts(all: seq<Row>, rows: seq<Row>, j: nat)
  {
    (|all| == 0 || exists r :: r in all && At(r, j).Text?)
    && ((forall r :: r in rows ==> At(r, j).Missing?) || exists r :: r in rows && At(r, j).Text?)
  }

  /** The Filled rows and the orders made from them. */
  datatype Prepared = Prepared(rows: seq<Row>, fills: seq<Fill>)

  /** Lines 15-18 and the per-row reads of the loop: each step's missing column or
      failed conversion aborts the file, and so does a Side column that `.str`
      refuses. `Symbol` is first read inside the loop, so it is only needed when
      some row is Filled. */
  function Prepare(p: Parsers, t: Table): (r: Result<Prepared>)
    ensures r.Ok? ==> ColumnIndex(t.columns, "Status").Ok?
    ensures r.Ok? ==> r.value.rows == Select(t.rows, IsFilled(ColumnIndex(t.columns, "Status").value))
    ensures r.Ok? ==> |r.value.fills| == |r.value.rows|
    ensures r.Ok? ==> ColumnIndex(t.columns, "Price").Ok? && ColumnIndex(t.columns, "Side").Ok? && ColumnIndex(t.columns, "Filled").Ok?
    ensures r.Ok? ==> StrAccepts(t.rows, r.value.rows, ColumnIndex(t.columns, "Side").value)
    ensures r.Ok? ==> forall i :: 0 <= i < |r.value.rows| ==>
      var row := r.value.rows[i];
      var f := r.value.fills[i];
      && ColumnIndex(t.columns, "Symbol").Ok?
      && f.symbol == At(row, ColumnIndex(t.columns, "Symbol").value)
      && f.side == LowerSide(At(row, ColumnIndex(t.columns, "Side").value))
      && QuantityOf(p, At(row, ColumnIndex(t.columns, "Filled").value)) == Ok(f.qty)
      && PriceOf(p, At(row, ColumnIndex(t.columns, "Price").value)) == Ok(f.price)
  {
    var status :- ColumnIndex(t.columns, "Status");
    var rows := Select(t.rows, IsFilled(status));
    var price :- ColumnIndex(t.columns, "Price");
    var prices :- MapAll(rows, PriceReader(p, price));
    var side :- ColumnIndex(t.columns, "Side");
    if !StrAccepts(t.rows, rows, side) then Err(NotText("Side"))
    else
      var filled :- ColumnIndex(t.columns, "Filled");
      var qtys :- MapAll(rows, QuantityReader(p, filled));
      var symbol :- if rows == [] then Ok(0) else ColumnIndex(t.columns, "Symbol");
      Ok(Prepared(rows, Fills(rows, symbol, side, qtys, prices)))
  }

  /** Once the Filled rows' prices are read, a Side column that `.str` refuses fails
      the file. */
  lemma SideRefusal(p: Parsers, t: Table)
    requires ColumnIndex(t.columns, "Status").Ok? && ColumnIndex(t.columns, "Price").Ok? && ColumnIndex(t.columns, "Side").Ok?
    requires var rows := Select(t.rows, IsFilled(ColumnIndex(t.columns, "Status").value));
      && MapAll(rows, PriceReader(p, ColumnIndex(t.columns, "Price").value)).Ok?
      && !StrAccepts(t.rows, rows, ColumnIndex(t.columns, "Side").value)
    ensures Prepare(p, t) == Err(NotText("Side"))
  {
  }

  /** A Side column mixing text and numbers on the Filled rows is accepted: each
      number becomes NaN, so that order is neither a buy nor a sell and realizes 0
      whatever the book. */
  lemma MixedSideKept(p: Parsers, t: Table)
    requires ColumnIndex(t.columns, "Status").Ok? && ColumnIndex(t.columns, "Price").Ok?
    requires ColumnIndex(t.columns, "Side").Ok? && ColumnIndex(t.columns, "Filled").Ok?
    requires ColumnIndex(t.columns, "Symbol").Ok?
    requires var rows := Select(t.rows, IsFilled(ColumnIndex(t.columns, "Status").value));
      && (exists i :: 0 <= i < |rows| && At(rows[i], ColumnIndex(t.columns, "Side").value).Text?)
      && forall i :: 0 <= i < |rows| ==>
           At(rows[i], ColumnIndex(t.columns, "Price").value).Number? && At(rows[i], ColumnIndex(t.columns, "Filled").value).Number?
    ensures Prepare(p, t).Ok?
  {
    var status, side := ColumnIndex(t.columns, "Status").value, ColumnIndex(t.columns, "Side").value;
    var rows := Select(t.rows, IsFilled(status));
    var i :| 0 <= i < |rows| && At(rows[i], side).Text?;
    SelectedIn(t.rows, IsFilled(status), rows[i]);
    assert StrAccepts(t.rows, rows, side);
    NumbersRead(p, rows, ColumnIndex(t.columns, "Price").value, ColumnIndex(t.columns, "Filled").value);
  }

  lemma NumbersRead(p: Parsers, rows: seq<Row>, price: nat, filled: nat)
    requires forall i :: 0 <= i < |rows| ==> At(rows[i], price).Number? && At(rows[i], filled).Number?
    ensures MapAll(rows, PriceReader(p, price)).Ok? && MapAll(rows, QuantityReader(p, filled)).Ok?
  {
  }

  /** An order whose Side cell is not text reaches the matcher with a NaN side, so it
      realizes 0 whatever the book. */
  lemma NonTextSideRealizesNothing(p: Parsers, t: Table, i: nat, book: Book)
    requires Prepare(p, t).Ok? && i < |Prepare(p, t).value.rows|
    requires !At(Prepare(p, t).value.rows[i], ColumnIndex(t.columns, "Side").value).Text?
    ensures Prepare(p, t).value.fills[i].side == Missing
    ensures Step(book, Prepare(p, t).value.fills[i]).realized == 0.0
  {
  }

  /** A Side column whose Filled rows hold only numbers is refused, even when rows
      that are not Filled hold text. */
  lemma NumericSideRefused(p: Parsers, t: Table)
    requires ColumnIndex(t.columns, "Status").Ok? && ColumnIndex(t.columns, "Price").Ok? && ColumnIndex(t.columns, "Side").Ok?
    requires var rows := Select(t.rows, IsFilled(ColumnIndex(t.columns, "Status").value));
      && rows != []
      && forall i :: 0 <= i < |rows| ==>
           At(rows[i], ColumnIndex(t.columns, "Side").value).Number? && At(rows[i], ColumnIndex(t.columns, "Price").value).Number?
    ensures Prepare(p, t) == Err(NotText("Side"))
  {
    var status, side := ColumnIndex(t.columns, "Status").value, ColumnIndex(t.columns, "Side").value;
    var rows := Select(t.rows, IsFilled(status));
    assert rows[0] in rows && !At(rows[0], side).Missing?;
    assert !StrAccepts(t.rows, rows, side);
    assert MapAll(rows, PriceReader(p, ColumnIndex(t.columns, "Price").value)).Ok?;
    SideRefusal(p, t);
  }

  /** One row of the processed table: the Filled row, the order read from it, its
      realized P&L, the running total, and its parsed `Filled Time`. */
  datatype MatchedRow = MatchedRow(row: Row, fill: Fill, pnl: real, cumulative: Option<real>, time: Option<Timestamp>)

  function Lift(xs: seq<real>): (r: seq<Option<real>>)
    ensures |r| == |xs| && forall i :: 0 <= i < |xs| ==> r[i] == Some(xs[i])
  {
    seq(|xs|, i requires 0 <= i < |xs| => Some(xs[i]))
  }

  /** Lines 51-53: the P&L column, its cumulative sum, and the parsed time. */
  function Assemble(p: Parsers, prep: Prepared, pnls: seq<real>, time: nat): (out: seq<MatchedRow>)
    requires |prep.fills| == |prep.rows| == |pnls|
    ensures |out| == |pnls|
    ensures forall i :: 0 <= i < |out| ==>
      out[i].row == prep.rows[i] && out[i].fill == prep.fills[i] && out[i].pnl == pnls[i]
      && out[i].cumulative == RunningSums.Cumsum(Lift(pnls))[i]
      && out[i].time == ToDatetime(p, At(prep.rows[i], time))
  {
    var cumulative := RunningSums.Cumsum(Lift(pnls));
    seq(|pnls|, i requires 0 <= i < |pnls| =>
      MatchedRow(prep.rows[i], prep.fills[i], pnls[i], cumulative[i], ToDatetime(p, At(prep.rows[i], time))))
  }

  /** `process_webull` as a function of the table. */
  function ProcessWebullSpec(p: Parsers, t: Table): Result<seq<MatchedRow>>
  {
    var prep :- Prepare(p, t);
    var time :- ColumnIndex(t.columns, "Filled Time");
    Ok(Assemble(p, prep, Run(prep.fills).pnls, time))
  }

  /** `process_webull`: the Filled orders go one by one through a fresh `LotBook`. */
  method ProcessWebull(p: Parsers, t: Table) returns (r: Result<seq<MatchedRow>>)
    ensures r == ProcessWebullSpec(p, t)
  {
    var prep :- Prepare(p, t);
    var book := new LotBook();
    var i := 0;
    while i < |prep.fills|
      invariant 0 <= i <= |prep.fills|
      invariant book.trades == Run(prep.fills[..i]).pnls
      invariant book.positions == Run(prep.fills[..i]).book
    {
      book.Record(prep.fills[i]);
      RunPrefix(prep.fills, i);
      i := i + 1;
    }
    assert prep.fills[..i] == prep.fills;
    var time :- ColumnIndex(t.columns, "Filled Time");
    r := Ok(Assemble(p, prep, book.trades, time));
  }

  /** The upload handler: only Webull files are processed; the other brokers are
      refused with a message. */
  method Upload(p: Parsers, broker: Broker, t: Table) returns (r: Result<seq<MatchedRow>>)
    ensures broker != Webull ==> r == Err(NotImplemented(BrokerName(broker)))
    ensures broker == Webull ==> r == ProcessWebullSpec(p, t)
  {
    if broker == Webull {
      r := ProcessWebull(p, t);
    } else {
      r := Err(NotImplemented(BrokerName(broker)));
    }
  }

  // ---------------------------------------------------------------------------
  // What the processed table promises

  /** The processed table has exactly one row per Filled row, in file order (a row
      that is not Filled never reaches the matcher); each row's P&L is what FIFO
      matching of the Filled orders gives it; and the cumulative column starts at the
      first P&L and adds each row's P&L to the previous total. */
  lemma ProcessedRows(p: Parsers, t: Table)
    requires ProcessWebullSpec(p, t).Ok?
    ensures var out := ProcessWebullSpec(p, t).value;
      var ps := Positions(t.rows, IsFilled(ColumnIndex(t.columns, "Status").value));
      && |out| == |ps|
      && StrictlyIncreasing(ps)
      && (forall i :: 0 <= i < |t.rows| ==>
            (i in ps <==> At(t.rows[i], ColumnIndex(t.columns, "Status").value) == Text("Filled")))
      && (forall k :: 0 <= k < |out| ==> ps[k] < |t.rows| && out[k].row == t.rows[ps[k]])
      && (forall k :: 0 <= k < |out| ==> out[k].pnl == Run(Prepare(p, t).value.fills).pnls[k])
  {
    var status := ColumnIndex(t.columns, "Status").value;
    SelectIsSubsequence(t.rows, IsFilled(status));
  }

  /** The cumulative column starts at the first row's P&L and adds each row's P&L to
      the previous total. */
  lemma CumulativeColumn(p: Parsers, t: Table)
    requires ProcessWebullSpec(p, t).Ok?
    ensures var out := ProcessWebullSpec(p, t).value;
      && (forall k :: 0 <= k < |out| ==> out[k].cumulative.Some?)
      && (|out| > 0 ==> out[0].cumulative == Some(out[0].pnl))
      && (forall k :: 0 < k < |out| ==> out[k].cumulative.value == out[k - 1].cumulative.value + out[k].pnl)
  {
    var prep := Prepare(p, t).value;
    AssembledCumulative(p, prep, Run(prep.fills).pnls, ColumnIndex(t.columns, "Filled Time").value);
  }

  /** `CumulativeColumn` for the table assembled from any P&L values. */
  lemma AssembledCumulative(p: Parsers, prep: Prepared, pnls: seq<real>, time: nat)
    requires |prep.fills| == |prep.rows| == |pnls|
    ensures var out := Assemble(p, prep, pnls, time);
      && (forall k :: 0 <= k < |out| ==> out[k].cumulative.Some?)
      && (|out| > 0 ==> out[0].cumulative == Some(out[0].pnl))
      && (forall k :: 0 < k < |out| ==> out[k].cumulative.value == out[k - 1].cumulative.value + out[k].pnl)
  {
    RunningSums.CumsumRecurrence(Lift(pnls));
  }

  /** A Filled row whose price is not a number once the '@' is removed aborts the
      whole file instead of being dropped. */
  lemma BadPriceAborts(p: Parsers, t: Table, i: nat)
    requires ColumnIndex(t.columns, "Status").Ok? && ColumnIndex(t.columns, "Price").Ok?
    requires i < |t.rows|
    requires At(t.rows[i], ColumnIndex(t.columns, "Status").value) == Text("Filled")
    requires At(t.rows[i], ColumnIndex(t.columns, "Price").value).Text?
    requires p.number(StripAt(At(t.rows[i], ColumnIndex(t.columns, "Price").value).s)).None?
    ensures ProcessWebullSpec(p, t).Err?
    ensures ProcessWebullSpec(p, t).failure in {NotNumeric("Price"), MissingNumber("Price")}
  {
    var status := ColumnIndex(t.columns, "Status").value;
    var price := ColumnIndex(t.columns, "Price").value;
    var rows := Select(t.rows, IsFilled(status));
    SelectIsSubsequence(t.rows, IsFilled(status));
    var ps := Positions(t.rows, IsFilled(status));
    assert i in ps;
    var k :| 0 <= k < |ps| && ps[k] == i;
    assert PriceReader(p, price)(rows[k]).Err?;
    var r := MapAll(rows, PriceReader(p, price));
    var j :| 0 <= j < |rows| && PriceReader(p, price)(rows[j]) == Err(r.failure);
    assert Prepare(p, t) == Err(r.failure);
  }
}
