/**
 * FIFO position accounting (position_tracker.py).
 *
 * Open lots are kept per normalised contract key, oldest first. A BUY appends
 * a lot; a SELL consumes lots from the head, accruing realised dollar PnL and
 * the cost basis of what it closed. Prices and quantities are reals.
 */
module Positions {
  import opened Common

  /** Normalised contract identity: (symbol, expiration, strike). */
  datatype Key = Key(symbol: string, expiration: string, strike: real)

  /** An open quantity fragment and the price it was acquired at. */
  datatype Lot = Lot(qty: real, price: real)

  /** `add_trade` either returns normally or raises `ValueError`. */
  datatype Outcome = Recorded | ValueError

  // ---------------------------------------------------------------------------
  // Keys and sides

  /** `_build_key`: a missing expiration becomes "" and a missing strike 0.0. */
  function BuildKey(symbol: string, expiration: Option<string>, strike: Option<real>): (k: Key)
    ensures k.symbol == symbol
    ensures k.expiration == "" <==> expiration == None || expiration == Some("")
    ensures k.strike == 0.0 <==> strike == None || strike == Some(0.0)
    ensures expiration.Some? ==> k.expiration == expiration.value
    ensures strike.Some? ==> k.strike == strike.value
  {
    Key(symbol, expiration.GetOr(""), strike.GetOr(0.0))
  }

  /** Two trades refer to one position exactly when their normalised parts agree. */
  lemma SamePosition(s1: string, e1: Option<string>, k1: Option<real>,
                     s2: string, e2: Option<string>, k2: Option<real>)
    ensures BuildKey(s1, e1, k1) == BuildKey(s2, e2, k2) <==>
      s1 == s2 && e1.GetOr("") == e2.GetOr("") && k1.GetOr(0.0) == k2.GetOr(0.0)
  {
  }

  predicate IsLower(c: char) { 'a' <= c <= 'z' }

  function UpperChar(c: char): char {
    if IsLower(c) then (c as int - 32) as char else c
  }

  /** `str.upper()` restricted to ASCII letters. */
  function Upper(s: string): (r: string)
    ensures |r| == |s|
    ensures forall i :: 0 <= i < |s| ==> !IsLower(r[i])
    ensures forall i :: 0 <= i < |s| && !IsLower(s[i]) ==> r[i] == s[i]
    ensures forall i :: 0 <= i < |s| && IsLower(s[i]) ==> r[i] as int == s[i] as int - 32
  {
    if s == [] then [] else [UpperChar(s[0])] + Upper(s[1..])
  }

  /** The side test is case-insensitive: exactly the eight spellings of "buy" pass as BUY. */
  lemma {:induction false} BuySpellings(side: string)
    ensures Upper(side) == "BUY" <==>
      |side| == 3 && side[0] in "bB" && side[1] in "uU" && side[2] in "yY"
  {
    if Upper(side) == "BUY" {
      assert |side| == 3;
      assert Upper(side)[0] == 'B' && Upper(side)[1] == 'U' && Upper(side)[2] == 'Y';
    }
    if |side| == 3 && side[0] in "bB" && side[1] in "uU" && side[2] in "yY" {
      assert Upper(side) == ['B', 'U', 'Y'];
    }
  }

  /** The two sides `add_trade` accepts. */
  datatype Side = Buy | Sell

  /** `side.upper()` checked against {"BUY", "SELL"}; `None` is the
      ValueError raised for any other spelling. */
  function ParseSide(side: string): (r: Option<Side>)
    ensures r == Some(Buy) <==> Upper(side) == "BUY"
    ensures r == Some(Sell) <==> Upper(side) == "SELL"
  {
    var s := Upper(side);
    if s == "BUY" then Some(Buy) else if s == "SELL" then Some(Sell) else None
  }

  // ---------------------------------------------------------------------------
  // Lots

  /** Total quantity of `lots` (`get_open_quantity`'s generator sum). */
  function Sum(lots: seq<Lot>): real {
    if lots == [] then 0.0 else lots[0].qty + Sum(lots[1..])
  }

  /** Acquisition cost of one lot or closed portion: price times quantity. */
  function Basis(lot: Lot): real {
    lot.price * lot.qty
  }

  /** Dollar PnL of selling a closed portion at `price`. */
  function Gain(portion: Lot, price: real): real {
    (price - portion.price) * portion.qty
  }

  /** Acquisition cost of `lots`. */
  function Cost(lots: seq<Lot>): real {
    if lots == [] then 0.0 else Basis(lots[0]) + Cost(lots[1..])
  }

  /** Realised dollar PnL of selling the portions `closed` at `price`. */
  function Realised(closed: seq<Lot>, price: real): real {
    if closed == [] then 0.0 else Gain(closed[0], price) + Realised(closed[1..], price)
  }

  /** The at-rest invariant of a lot queue: every lot has positive quantity. */
  predicate AllPositive(lots: seq<Lot>) {
    forall i :: 0 <= i < |lots| ==> lots[i].qty > 0.0
  }

  predicate PricesNonNegative(lots: seq<Lot>) {
    forall i :: 0 <= i < |lots| ==> lots[i].price >= 0.0
  }

  lemma {:induction false} SumAppend(a: seq<Lot>, b: seq<Lot>)
    ensures Sum(a + b) == Sum(a) + Sum(b)
  {
    if a == [] {
      assert a + b == b;
    } else {
      assert (a + b)[1..] == a[1..] + b;
      SumAppend(a[1..], b);
    }
  }

  lemma {:induction false} CostAppend(a: seq<Lot>, b: seq<Lot>)
    ensures Cost(a + b) == Cost(a) + Cost(b)
  {
    if a == [] {
      assert a + b == b;
    } else {
      assert (a + b)[1..] == a[1..] + b;
      CostAppend(a[1..], b);
    }
  }

  lemma {:induction false} RealisedAppend(a: seq<Lot>, b: seq<Lot>, price: real)
    ensures Realised(a + b, price) == Realised(a, price) + Realised(b, price)
  {
    if a == [] {
      assert a + b == b;
    } else {
      assert (a + b)[1..] == a[1..] + b;
      RealisedAppend(a[1..], b, price);
    }
  }

  lemma {:induction false} SumPositive(lots: seq<Lot>)
    ensures AllPositive(lots) ==> Sum(lots) >= 0.0
    ensures AllPositive(lots) ==> (Sum(lots) == 0.0 <==> lots == [])
    ensures AllPositive(lots) && lots != [] ==> Sum(lots) >= lots[0].qty
  {
    if lots != [] {
      SumPositive(lots[1..]);
    }
  }

  /** Realised PnL is the sale proceeds on the closed quantity less its cost. */
  lemma {:induction false} RealisedIsProceedsLessCost(closed: seq<Lot>, price: real)
    ensures Realised(closed, price) == price * Sum(closed) - Cost(closed)
  {
    if closed != [] {
      RealisedIsProceedsLessCost(closed[1..], price);
      var c := closed[0];
      assert (price - c.price) * c.qty == price * c.qty - c.price * c.qty;
      assert price * Sum(closed) == price * c.qty + price * Sum(closed[1..]);
    }
  }

  lemma {:induction false} CostNonNegative(lots: seq<Lot>)
    requires AllPositive(lots) && PricesNonNegative(lots)
    ensures Cost(lots) >= 0.0
  {
    if lots != [] {
      assert lots[0].qty > 0.0 && lots[0].price >= 0.0;
      assert lots[0].price * lots[0].qty >= 0.0;
      CostNonNegative(lots[1..]);
    }
  }

  // ---------------------------------------------------------------------------
  // The SELL matching loop as a function

  /** What one SELL does to a key's queue: the lots left open, the portions
      closed (oldest first, each at its lot's price), and whether the queue
      ran out before the requested quantity was matched (over-sell). */
  datatype Fill = Fill(rest: seq<Lot>, closed: seq<Lot>, overSold: bool)

  /** `min(a, b)`. */
  function Min(a: real, b: real): (r: real)
    ensures r <= a && r <= b && (r == a || r == b)
  {
    if b < a then b else a
  }

  /** The `while qty_remaining > 0` loop of `add_trade`, one lot per step:
      close min(remaining, lot qty) of the head lot, drop the lot once its
      quantity is exactly zero, raise when the queue is empty. */
  function Consume(queue: seq<Lot>, remaining: real): Fill
    decreases |queue|, if remaining > 0.0 then 1 else 0
  {
    if remaining <= 0.0 then Fill(queue, [], false)
    else if queue == [] then Fill([], [], true)
    else
      var lot := queue[0];
      var closeQty := Min(remaining, lot.qty);
      var reduced := lot.(qty := lot.qty - closeQty);
      var after := if reduced.qty == 0.0 then queue[1..] else [reduced] + queue[1..];
      var tail := Consume(after, remaining - closeQty);
      Fill(tail.rest, [Lot(closeQty, lot.price)] + tail.closed, tail.overSold)
  }

  /** The closed portions and the remainder split the queue FIFO: either they
      are exactly a prefix and the following suffix, or the last closed
      portion is a part of lot k, whose other part heads the remainder, and
      everything behind lot k keeps its quantity, price and order. */
  predicate FifoSplit(queue: seq<Lot>, closed: seq<Lot>, rest: seq<Lot>) {
    closed + rest == queue ||
    (0 < |closed| <= |queue| &&
     var k := |closed| - 1;
     && closed[..k] == queue[..k]
     && closed[k].price == queue[k].price
     && 0.0 < closed[k].qty < queue[k].qty
     && rest == [Lot(queue[k].qty - closed[k].qty, queue[k].price)] + queue[k + 1..])
  }

  /** Quantity accounting of a SELL, for any queue: what is closed plus what
      stays open is what was open; a completed SELL of q > 0 closes exactly q;
      a SELL of q <= 0 does nothing; an over-sell closes everything and leaves
      the queue empty. */
  lemma {:induction false} ConsumeQuantity(queue: seq<Lot>, q: real)
    ensures var f := Consume(queue, q);
      && Sum(queue) == Sum(f.rest) + Sum(f.closed)
      && (q > 0.0 && !f.overSold ==> Sum(f.closed) == q)
      && (q <= 0.0 ==> f == Fill(queue, [], false))
      && (f.overSold ==> q > 0.0 && f.rest == [])
      && (f.closed != [] <==> q > 0.0 && queue != [])
    decreases |queue|, if q > 0.0 then 1 else 0
  {
    if q > 0.0 && queue != [] {
      var lot := queue[0];
      var closeQty := Min(q, lot.qty);
      var reduced := lot.(qty := lot.qty - closeQty);
      var after := if reduced.qty == 0.0 then queue[1..] else [reduced] + queue[1..];
      ConsumeQuantity(after, q - closeQty);
      if reduced.qty != 0.0 {
        assert after[1..] == queue[1..];
      }
    }
  }

  /** Putting a whole lot in front of a FIFO split gives a FIFO split. */
  lemma FifoCons(lot: Lot, queue: seq<Lot>, closed: seq<Lot>, rest: seq<Lot>)
    requires FifoSplit(queue, closed, rest)
    ensures FifoSplit([lot] + queue, [lot] + closed, rest)
  {
    if closed + rest == queue {
      assert ([lot] + closed) + rest == [lot] + (closed + rest);
    } else {
      var k := |closed| - 1;
      assert ([lot] + closed)[..k + 1] == [lot] + closed[..k];
      assert ([lot] + queue)[..k + 1] == [lot] + queue[..k];
      assert ([lot] + queue)[k + 1 + 1..] == queue[k + 1..];
    }
  }

  /** The remainder and the closed portions of every SELL split the queue FIFO. */
  lemma {:induction false} ConsumeIsFifo(queue: seq<Lot>, q: real)
    ensures var f := Consume(queue, q);
      FifoSplit(queue, f.closed, f.rest)
    decreases |queue|, if q > 0.0 then 1 else 0
  {
    if q > 0.0 && queue != [] {
      var lot := queue[0];
      var closeQty := Min(q, lot.qty);
      if lot.qty - closeQty == 0.0 {
        var after := queue[1..];
        ConsumeIsFifo(after, q - closeQty);
        var t := Consume(after, q - closeQty);
        assert Lot(closeQty, lot.price) == lot;
        FifoCons(lot, after, t.closed, t.rest);
        assert queue == [lot] + after;
      } else {
        var after := [lot.(qty := lot.qty - closeQty)] + queue[1..];
        assert Consume(after, q - closeQty) == Fill(after, [], false);
      }
    }
  }

  /** Splitting a lot's quantity splits its cost. */
  lemma SplitCost(price: real, qty: real, part: real)
    ensures price * qty == price * (qty - part) + price * part
  {
  }

  /** The closed basis of a SELL is the acquisition cost of what left the queue. */
  lemma {:induction false} ConsumeCost(queue: seq<Lot>, q: real)
    ensures var f := Consume(queue, q);
      Cost(f.closed) == Cost(queue) - Cost(f.rest)
    decreases |queue|, if q > 0.0 then 1 else 0
  {
    if q > 0.0 && queue != [] {
      var lot := queue[0];
      var closeQty := Min(q, lot.qty);
      var f := Consume(queue, q);
      if lot.qty - closeQty == 0.0 {
        var after := queue[1..];
        ConsumeCost(after, q - closeQty);
        var t := Consume(after, q - closeQty);
        assert f.closed == [lot] + t.closed;
      } else {
        var after := [lot.(qty := lot.qty - closeQty)] + queue[1..];
        assert Consume(after, q - closeQty) == Fill(after, [], false);
        assert after[1..] == queue[1..];
        SplitCost(lot.price, lot.qty, closeQty);
      }
    }
  }

  lemma FifoSplitPositive(queue: seq<Lot>, closed: seq<Lot>, rest: seq<Lot>)
    requires AllPositive(queue) && FifoSplit(queue, closed, rest)
    ensures AllPositive(rest) && AllPositive(closed)
    ensures PricesNonNegative(queue) ==> PricesNonNegative(closed)
  {
    if closed + rest == queue {
      forall i | 0 <= i < |closed| ensures closed[i] == queue[i] {
        assert closed[i] == (closed + rest)[i];
      }
      forall i | 0 <= i < |rest| ensures rest[i] == queue[|closed| + i] {
        assert rest[i] == (closed + rest)[|closed| + i];
      }
    } else {
      var k := |closed| - 1;
      forall i | 0 <= i < k ensures closed[i] == queue[i] {
        assert closed[i] == closed[..k][i];
      }
      forall i | 1 <= i < |rest| ensures rest[i] == queue[k + i] {
        assert rest[i] == queue[k + 1..][i - 1];
      }
    }
  }

  /** On a well-formed queue a SELL of q > 0 raises exactly when q exceeds the
      open quantity; otherwise it completes. */
  lemma {:induction false} OverSellIff(queue: seq<Lot>, q: real)
    requires AllPositive(queue) && q > 0.0
    ensures Consume(queue, q).overSold <==> q > Sum(queue)
    decreases |queue|
  {
    if queue != [] {
      var lot := queue[0];
      SumPositive(queue[1..]);
      if q > lot.qty {
        assert AllPositive(queue[1..]);
        OverSellIff(queue[1..], q - lot.qty);
      } else if q < lot.qty {
        assert Consume([Lot(lot.qty - q, lot.price)] + queue[1..], 0.0).overSold == false;
      }
    }
  }

  /** `d[key] = d.get(key, 0.0) + delta`. */
  function Accrue(m: map<Key, real>, key: Key, delta: real): map<Key, real>
  {
    m[key := Get(m, key).GetOr(0.0) + delta]
  }

  /** `Accrue`, done only when the loop body ran. */
  function Accrued(m: map<Key, real>, key: Key, touched: bool, delta: real): map<Key, real>
  {
    if touched then Accrue(m, key, delta) else m
  }

  /** Closing one more portion adds its PnL and its cost. */
  lemma ClosedStep(closed: seq<Lot>, portion: Lot, price: real)
    ensures Realised(closed + [portion], price) == Realised(closed, price) + Gain(portion, price)
    ensures Cost(closed + [portion]) == Cost(closed) + Basis(portion)
  {
    RealisedAppend(closed, [portion], price);
    CostAppend(closed, [portion]);
    assert [portion][1..] == [];
  }

  /** One more accrual on top of the accruals so far. */
  lemma AccruedStep(m: map<Key, real>, key: Key, touched: bool, total: real, delta: real)
    requires !touched ==> total == 0.0
    ensures Accrue(Accrued(m, key, touched, total), key, delta) == Accrued(m, key, true, total + delta)
  {
  }

  /** Where the SELL loop stands: `closed` has been closed so far, the maps
      hold its PnL and cost, and `fill`, what the whole SELL does, is
      `closed` followed by what the rest of the loop closes from here. */
  ghost predicate SellProgress(fill: Fill, price: real, key: Key,
                               pnl0: map<Key, real>, basis0: map<Key, real>,
                               queue: seq<Lot>, remaining: real, closed: seq<Lot>,
                               pnl: map<Key, real>, basis: map<Key, real>)
  {
    && pnl == Accrued(pnl0, key, closed != [], Realised(closed, price))
    && basis == Accrued(basis0, key, closed != [], Cost(closed))
    && var c := Consume(queue, remaining);
       fill == Fill(c.rest, closed + c.closed, c.overSold)
  }

  /** One iteration of the SELL loop keeps `SellProgress`. */
  lemma SellStep(fill: Fill, price: real, key: Key,
                 pnl0: map<Key, real>, basis0: map<Key, real>,
                 queue: seq<Lot>, remaining: real, closed: seq<Lot>,
                 pnl: map<Key, real>, basis: map<Key, real>)
    requires remaining > 0.0 && queue != []
    requires SellProgress(fill, price, key, pnl0, basis0, queue, remaining, closed, pnl, basis)
    ensures var lot := queue[0];
      var closeQty := Min(remaining, lot.qty);
      var reduced := lot.(qty := lot.qty - closeQty);
      var after := if reduced.qty == 0.0 then queue[1..] else [reduced] + queue[1..];
      var portion := Lot(closeQty, lot.price);
      SellProgress(fill, price, key, pnl0, basis0, after, remaining - closeQty, closed + [portion],
                   Accrue(pnl, key, Gain(portion, price)), Accrue(basis, key, Basis(portion)))
  {
    var lot := queue[0];
    var closeQty := Min(remaining, lot.qty);
    var reduced := lot.(qty := lot.qty - closeQty);
    var after := if reduced.qty == 0.0 then queue[1..] else [reduced] + queue[1..];
    var portion := Lot(closeQty, lot.price);
    var t := Consume(after, remaining - closeQty);
    assert Consume(queue, remaining) == Fill(t.rest, [portion] + t.closed, t.overSold);
    assert (closed + [portion]) + t.closed == closed + ([portion] + t.closed);
    AccruedStep(pnl0, key, closed != [], Realised(closed, price), Gain(portion, price));
    AccruedStep(basis0, key, closed != [], Cost(closed), Basis(portion));
    ClosedStep(closed, portion, price);
  }

  /** When the loop stops, the SELL is complete or has run out of lots. */
  lemma SellDone(fill: Fill, price: real, key: Key,
                 pnl0: map<Key, real>, basis0: map<Key, real>,
                 queue: seq<Lot>, remaining: real, closed: seq<Lot>,
                 pnl: map<Key, real>, basis: map<Key, real>)
    requires remaining <= 0.0 || queue == []
    requires SellProgress(fill, price, key, pnl0, basis0, queue, remaining, closed, pnl, basis)
    ensures fill.closed == closed
    ensures fill.overSold <==> remaining > 0.0
    ensures !fill.overSold ==> fill.rest == queue
    ensures fill.overSold ==> fill.rest == []
    ensures pnl == Accrued(pnl0, key, fill.closed != [], Realised(fill.closed, price))
    ensures basis == Accrued(basis0, key, fill.closed != [], Cost(fill.closed))
  {
    assert closed + [] == closed;
  }

  /** The facts about one SELL that `AddTrade` passes on to its caller. */
  lemma SellFacts(queue: seq<Lot>, q: real)
    ensures var f := Consume(queue, q);
      && (f.overSold ==> f.rest == [])
      && (q > 0.0 && !f.overSold ==> Sum(f.rest) == Sum(queue) - q)
      && (f.closed != [] <==> q > 0.0 && queue != [])
      && (AllPositive(queue) ==> AllPositive(f.rest))
      && (AllPositive(queue) && q > 0.0 ==> (f.overSold <==> q > Sum(queue)))
      && (AllPositive(queue) && PricesNonNegative(queue) ==> Cost(f.closed) >= 0.0)
  {
    var f := Consume(queue, q);
    ConsumeQuantity(queue, q);
    ConsumeIsFifo(queue, q);
    if AllPositive(queue) {
      FifoSplitPositive(queue, f.closed, f.rest);
      if q > 0.0 {
        OverSellIff(queue, q);
      }
      if PricesNonNegative(queue) {
        CostNonNegative(f.closed);
      }
    }
  }

  /** Every queue of a position map holds only positive lots. */
  ghost predicate QueuesPositive(m: map<Key, seq<Lot>>) {
    forall k :: k in m ==> AllPositive(m[k])
  }

  lemma QueuesPositiveUpdate(m: map<Key, seq<Lot>>, key: Key, queue: seq<Lot>)
    requires QueuesPositive(m) && AllPositive(queue)
    ensures QueuesPositive(m[key := queue])
  {
  }

  /** Writing a key twice keeps the second value only. */
  lemma UpdateTwice<V>(m: map<Key, V>, key: Key, first: V, second: V)
    ensures m[key := first][key := second] == m[key := second]
  {
  }

  /** A SELL on one key leaves every queue positive, over-sells exactly when
      it asks for more than is open, takes exactly q when it completes, and
      never lowers the closed basis. */
  lemma SellKeepsValid(m: map<Key, seq<Lot>>, key: Key, q: real, basis: map<Key, real>)
    requires key in m
    ensures QueuesPositive(m) ==> QueuesPositive(m[key := Consume(m[key], q).rest])
    ensures q > 0.0 && AllPositive(m[key]) ==> (Consume(m[key], q).overSold <==> q > Sum(m[key]))
    ensures var f := Consume(m[key], q);
      q > 0.0 && !f.overSold ==> Sum(f.rest) == Sum(m[key]) - q
    ensures var f := Consume(m[key], q);
      AllPositive(m[key]) && PricesNonNegative(m[key]) ==>
        Get(Accrued(basis, key, f.closed != [], Cost(f.closed)), key).GetOr(0.0) >= Get(basis, key).GetOr(0.0)
  {
    SellFacts(m[key], q);
    if QueuesPositive(m) {
      QueuesPositiveUpdate(m, key, Consume(m[key], q).rest);
    }
  }

  lemma AllPositiveAppend(queue: seq<Lot>, lot: Lot)
    requires AllPositive(queue) && lot.qty > 0.0
    ensures AllPositive(queue + [lot])
  {
  }

  // ---------------------------------------------------------------------------
  // The tracker

  class PositionTracker {
    /** Queue of open lots per key, oldest first. */
    var positions: map<Key, seq<Lot>>
    /** Realised dollar profit per key. */
    var realizedPnl: map<Key, real>
    /** Cost basis of closed lots per key. */
    var closedBasis: map<Key, real>

    constructor ()
      ensures positions == map[] && realizedPnl == map[] && closedBasis == map[]
      ensures Valid()
    {
      positions := map[];
      realizedPnl := map[];
      closedBasis := map[];
    }

    /** Every stored lot has positive quantity (fully closed lots are removed). */
    ghost predicate Valid()
      reads this
    {
      QueuesPositive(positions)
    }

    /** `positions.get(key, [])`. */
    function QueueOf(key: Key): seq<Lot>
      reads this
    {
      if key in positions then positions[key] else []
    }

    function RealizedOf(key: Key): real
      reads this
    {
      Get(realizedPnl, key).GetOr(0.0)
    }

    function BasisOf(key: Key): real
      reads this
    {
      Get(closedBasis, key).GetOr(0.0)
    }

    /** `get_open_quantity`: the remaining quantity over the key's lots. */
    function OpenQuantity(symbol: string, expiration: Option<string>, strike: Option<real>): (r: real)
      reads this
      ensures BuildKey(symbol, expiration, strike) !in positions ==> r == 0.0
      ensures Valid() ==> r >= 0.0
      ensures Valid() ==> (r == 0.0 <==> QueueOf(BuildKey(symbol, expiration, strike)) == [])
    {
      var queue := QueueOf(BuildKey(symbol, expiration, strike));
      SumPositive(queue);
      Sum(queue)
    }

    /** `calculate_pnl`: realised PnL as a percentage of the closed basis, or 0
        when nothing with a non-zero basis has been closed. */
    function CalculatePnl(symbol: string, expiration: Option<string>, strike: Option<real>): (r: real)
      reads this
      ensures var key := BuildKey(symbol, expiration, strike);
        && (key !in closedBasis ==> r == 0.0)
        && (BasisOf(key) == 0.0 ==> r == 0.0)
        && (BasisOf(key) != 0.0 ==> r * BasisOf(key) == 100.0 * RealizedOf(key))
    {
      var key := BuildKey(symbol, expiration, strike);
      var basis := BasisOf(key);
      if basis == 0.0 then 0.0 else RealizedOf(key) / basis * 100.0
    }

    /** `add_trade`. The side is upper-cased; anything but BUY or SELL raises
        before any change. BUY appends a lot at the tail. SELL consumes lots
        from the head; selling past the open quantity raises after the
        partial consumption has been applied. */
    method AddTrade(symbol: string, qty: real, price: real, side: string,
                    expiration: Option<string>, strike: Option<real>)
      returns (outcome: Outcome)
      modifies this
      ensures ParseSide(side) == None ==>
        && outcome == ValueError
        && positions == old(positions) && realizedPnl == old(realizedPnl)
        && closedBasis == old(closedBasis)
      ensures ParseSide(side) == Some(Buy) ==>
        var key := BuildKey(symbol, expiration, strike);
        && outcome == Recorded
        && positions == old(positions)[key := old(QueueOf(key)) + [Lot(qty, price)]]
        && realizedPnl == old(realizedPnl) && closedBasis == old(closedBasis)
      ensures ParseSide(side) == Some(Sell) ==>
        var key := BuildKey(symbol, expiration, strike);
        var fill := Consume(old(QueueOf(key)), qty);
        && outcome == (if fill.overSold then ValueError else Recorded)
        && positions == old(positions)[key := fill.rest]
        && realizedPnl == Accrued(old(realizedPnl), key, fill.closed != [], Realised(fill.closed, price))
        && closedBasis == Accrued(old(closedBasis), key, fill.closed != [], Cost(fill.closed))
      // consequences for the caller
      ensures old(Valid()) && (ParseSide(side) == Some(Buy) ==> qty > 0.0) ==> Valid()
      ensures ParseSide(side) == Some(Buy) ==>
        OpenQuantity(symbol, expiration, strike) == old(OpenQuantity(symbol, expiration, strike)) + qty
      ensures ParseSide(side) == Some(Sell) && qty > 0.0 && old(Valid()) ==>
        (outcome == ValueError <==> qty > old(OpenQuantity(symbol, expiration, strike)))
    {
      var s := ParseSide(side);
      if s == None {
        return ValueError;
      }
      var key := BuildKey(symbol, expiration, strike);
      // `setdefault(key, [])`
      var queue := QueueOf(key);
      positions := positions[key := queue];
      if old(Valid()) {
        QueuesPositiveUpdate(old(positions), key, queue);
      }
      if s == Some(Buy) {
        positions := positions[key := queue + [Lot(qty, price)]];
        UpdateTwice(old(positions), key, queue, queue + [Lot(qty, price)]);
        SumAppend(queue, [Lot(qty, price)]);
        if old(Valid()) && qty > 0.0 {
          AllPositiveAppend(queue, Lot(qty, price));
          QueuesPositiveUpdate(old(positions), key, queue + [Lot(qty, price)]);
        }
        return Recorded;
      }
      outcome := CloseFifo(key, qty, price);
      UpdateTwice(old(positions), key, queue, Consume(queue, qty).rest);
    }

    /** The SELL path of `add_trade` once the key's queue exists: consume lots
        from the head, accruing realised PnL and closed basis per lot, and
        raise when the queue runs out, keeping what was already consumed. */
    method CloseFifo(key: Key, qty: real, price: real) returns (outcome: Outcome)
      requires key in positions
      modifies this
      ensures var fill := Consume(old(positions[key]), qty);
        && outcome == (if fill.overSold then ValueError else Recorded)
        && positions == old(positions)[key := fill.rest]
        && realizedPnl == Accrued(old(realizedPnl), key, fill.closed != [], Realised(fill.closed, price))
        && closedBasis == Accrued(old(closedBasis), key, fill.closed != [], Cost(fill.closed))
      ensures old(Valid()) ==> Valid()
      ensures qty > 0.0 && AllPositive(old(positions[key])) ==>
        (outcome == ValueError <==> qty > Sum(old(positions[key])))
      ensures qty > 0.0 && outcome == Recorded ==>
        Sum(positions[key]) == Sum(old(positions[key])) - qty
      ensures AllPositive(old(positions[key])) && PricesNonNegative(old(positions[key])) ==>
        Get(closedBasis, key).GetOr(0.0) >= Get(old(closedBasis), key).GetOr(0.0)
    {
      var queue := positions[key];
      ghost var fill := Consume(queue, qty);
      assert [] + fill.closed == fill.closed;
      ghost var closed: seq<Lot> := [];
      var remaining := qty;
      while remaining > 0.0
        invariant positions == old(positions)[key := queue]
        invariant SellProgress(fill, price, key, old(realizedPnl), old(closedBasis),
                               queue, remaining, closed, realizedPnl, closedBasis)
        decreases |queue|, if remaining > 0.0 then 1 else 0
      {
        if queue == [] {
          SellDone(fill, price, key, old(realizedPnl), old(closedBasis),
                   queue, remaining, closed, realizedPnl, closedBasis);
          SellKeepsValid(old(positions), key, qty, old(closedBasis));
          return ValueError;
        }
        SellStep(fill, price, key, old(realizedPnl), old(closedBasis),
                 queue, remaining, closed, realizedPnl, closedBasis);
        var lot := queue[0];
        var closeQty := Min(remaining, lot.qty);
        lot := lot.(qty := lot.qty - closeQty);
        if lot.qty == 0.0 {
          queue := queue[1..];
        } else {
          queue := [lot] + queue[1..];
        }
        positions := positions[key := queue];
        var portion := Lot(closeQty, lot.price);
        realizedPnl := Accrue(realizedPnl, key, Gain(portion, price));
        closedBasis := Accrue(closedBasis, key, Basis(portion));
        remaining := remaining - closeQty;
        closed := closed + [portion];
      }
      SellDone(fill, price, key, old(realizedPnl), old(closedBasis),
               queue, remaining, closed, realizedPnl, closedBasis);
      SellKeepsValid(old(positions), key, qty, old(closedBasis));
      return Recorded;
    }
  }

  /** Two buys of 10 AAPL, at 100 and then at 105, on a new tracker. */
  method OpenTwoLots() returns (t: PositionTracker)
    ensures fresh(t)
    ensures t.positions == map[BuildKey("AAPL", None, None) := [Lot(10.0, 100.0), Lot(10.0, 105.0)]]
    ensures t.realizedPnl == map[] && t.closedBasis == map[]
  {
    assert Upper("BUY") == "BUY";
    var key := BuildKey("AAPL", None, None);
    t := new PositionTracker();
    var outcome := t.AddTrade("AAPL", 10.0, 100.0, "BUY", None, None);
    assert [] + [Lot(10.0, 100.0)] == [Lot(10.0, 100.0)];
    assert t.positions == map[key := [Lot(10.0, 100.0)]];
    outcome := t.AddTrade("AAPL", 10.0, 105.0, "BUY", None, None);
    assert [Lot(10.0, 100.0)] + [Lot(10.0, 105.0)] == [Lot(10.0, 100.0), Lot(10.0, 105.0)];
  }

  /** A sell of 15 at 110 closes the first lot and half the second. */
  method SellFifteen(t: PositionTracker)
    requires t.positions == map[BuildKey("AAPL", None, None) := [Lot(10.0, 100.0), Lot(10.0, 105.0)]]
    requires t.realizedPnl == map[] && t.closedBasis == map[]
    modifies t
    ensures t.positions == map[BuildKey("AAPL", None, None) := [Lot(5.0, 105.0)]]
    ensures t.realizedPnl == map[BuildKey("AAPL", None, None) := 125.0]
    ensures t.closedBasis == map[BuildKey("AAPL", None, None) := 1525.0]
  {
    assert Upper("SELL") == "SELL";
    FirstSell();
    var outcome := t.AddTrade("AAPL", 15.0, 110.0, "SELL", None, None);
  }

  /** A sell of the last 5 at 120 closes the position. */
  method SellRest(t: PositionTracker)
    requires t.positions == map[BuildKey("AAPL", None, None) := [Lot(5.0, 105.0)]]
    requires t.realizedPnl == map[BuildKey("AAPL", None, None) := 125.0]
    requires t.closedBasis == map[BuildKey("AAPL", None, None) := 1525.0]
    modifies t
    ensures t.positions == map[BuildKey("AAPL", None, None) := []]
    ensures t.realizedPnl == map[BuildKey("AAPL", None, None) := 200.0]
    ensures t.closedBasis == map[BuildKey("AAPL", None, None) := 2050.0]
  {
    assert Upper("SELL") == "SELL";
    SecondSell();
    var outcome := t.AddTrade("AAPL", 5.0, 120.0, "SELL", None, None);
  }

  /** Two buys of 10 AAPL at 100 and 105, a sell of 15 at 110 and a sell of
      the last 5 at 120: the open quantity and the PnL percentage after each
      sell. */
  method PartialThenFullClose() returns (open1: real, pnl1: real, open2: real, pnl2: real)
    ensures open1 == 5.0 && pnl1 == 125.0 / 1525.0 * 100.0
    ensures open2 == 0.0 && pnl2 == 200.0 / 2050.0 * 100.0
  {
    var t := OpenTwoLots();
    SellFifteen(t);
    open1 := t.OpenQuantity("AAPL", None, None);
    pnl1 := t.CalculatePnl("AAPL", None, None);
    SellRest(t);
    open2 := t.OpenQuantity("AAPL", None, None);
    pnl2 := t.CalculatePnl("AAPL", None, None);
  }

  lemma FirstSell()
    ensures var f := Consume([Lot(10.0, 100.0), Lot(10.0, 105.0)], 15.0);
      && f == Fill([Lot(5.0, 105.0)], [Lot(10.0, 100.0), Lot(5.0, 105.0)], false)
      && Realised(f.closed, 110.0) == 125.0 && Cost(f.closed) == 1525.0
  {
    var q := [Lot(10.0, 100.0), Lot(10.0, 105.0)];
    assert q[1..] == [Lot(10.0, 105.0)];
    assert Consume([Lot(10.0, 105.0)], 5.0) == Fill([Lot(5.0, 105.0)], [Lot(5.0, 105.0)], false);
  }

  lemma SecondSell()
    ensures var f := Consume([Lot(5.0, 105.0)], 5.0);
      && f == Fill([], [Lot(5.0, 105.0)], false)
      && Realised(f.closed, 120.0) == 75.0 && Cost(f.closed) == 525.0
  {
  }
}
