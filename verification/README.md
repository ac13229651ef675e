# Trade bookkeeping of the options-alert bot, in Dafny

The bot watches a broker account. Three parts of it do real bookkeeping, and
this project models them and proves properties of each.

- **FIFO position accounting** (`position_tracker.py`, module `Positions`, file
  `positions.dfy`).
  - Trades are keyed by a normalised `(symbol, expiration, strike)` key.
  - A BUY appends a lot `(qty, price)` to that key's queue.
  - A SELL closes lots from the head of the queue, oldest first. For every
    portion it closes, it accrues the realised dollar PnL and the cost basis.
  - Selling more than is open raises `ValueError`, and what was consumed
    before the raise stays consumed.
  - The two queries are the open quantity and the realised PnL as a
    percentage of the closed basis.
  - `PositionTracker` is a class whose three dictionaries are `map` fields.
    `AddTrade` is a method that changes them. Its SELL loop is a `while`
    loop, proved equal to the function `Consume`, and the accounting lemmas
    are proved about `Consume`.
- **Last-price tracker** (`tracker.py`, module `Prices`, file `prices.dfy`).
  - A map holds each contract's last price.
  - Every update overwrites the stored price and returns the percentage
    move from the price it replaced.
  - The result is 0 on a first observation and when the previous price was 0.
- **Order flattener** (`flatten.py`, module `Flatten`, file `flatten.dfy`).
  - Decoded JSON orders are walked along paths of keys and indexes. A
    `{name}` component is replaced from a context. Any failed lookup gives
    `None`.
  - Each order fans out into one flat record per leg, tagged `multi_leg`.
  - The records of a whole list of orders are concatenated.
  - Every loop of the source is a method with a `while` loop, proved equal to
    a recursive or comprehension-based function. The properties are proved
    about that function.

`common.dfy` holds `Option` and a `Get` that plays the role of `dict.get`.

Prices and quantities are `real`: the bookkeeping is exact arithmetic here.
Because `close_qty` is a `min`, the zero test that pops a lot is exact on
reals. Python's `None` arguments are `Option.None`. An exception the source
raises is an error value of the model: `Outcome.ValueError` in `Positions`,
`Result.Err` in `Flatten`.

## Model

| member | source | states |
|---|---|---|
| Positions.BuildKey | position_tracker.py:19-24 | the symbol is kept; a missing expiration becomes "" and a missing strike 0.0, and a given one is kept (both directions of the "" / 0.0 case) |
| Positions.SamePosition | position_tracker.py:20-24 | two trades share a key exactly when symbols agree and their normalised expiration and strike agree |
| Positions.Upper | position_tracker.py:52 | ASCII upper-casing keeps the length, leaves no lower-case letter, moves each lower-case letter down by 32 and keeps every other character |
| Positions.BuySpellings | position_tracker.py:52-54 | the side test is case-insensitive: exactly the eight spellings b/B u/U y/Y are taken as BUY |
| Positions.ParseSide | position_tracker.py:52-54 | a side is BUY exactly when it upper-cases to "BUY", SELL exactly when it upper-cases to "SELL"; anything else is the ValueError |
| Positions.Min | position_tracker.py:70 | `min(a, b)`: at most both arguments and equal to one of them (on a tie both are the same value) |
| Positions.Basis | position_tracker.py:77 | reference definition of one closed portion's cost, lot price times closed quantity; `Cost` sums it and `SellStep`/`ClosedStep` accrue it per iteration |
| Positions.Gain | position_tracker.py:74 | reference definition of one closed portion's PnL, (sell price − lot price) times closed quantity; `Realised` sums it and `SellStep`/`ClosedStep` accrue it per iteration |
| Positions.Cost | position_tracker.py:76-78 | reference definition of the basis closed by a SELL, the sum of `Basis` over the closed portions; `CostAppend`, `ConsumeCost` and `CostNonNegative` are proved about it, and `AddTrade` and `CloseFifo` state their new `closedBasis` through it |
| Positions.Realised | position_tracker.py:74-75 | reference definition of the PnL realised by a SELL, the sum of `Gain` over the closed portions; `RealisedAppend` and `RealisedIsProceedsLessCost` are proved about it, and `AddTrade` and `CloseFifo` state their new `realizedPnl` through it |
| Positions.Sum | position_tracker.py:89-90 | reference definition of the open quantity, the sum of the lot quantities; `SumAppend` and `SumPositive` are proved about it (non-negative on positive lots, 0 exactly on an empty queue) |
| Positions.Consume | position_tracker.py:63-79 | reference definition of one SELL on a queue (lots left, portions closed oldest first, over-sell flag), step for step the `while` loop; `ConsumeQuantity`, `ConsumeIsFifo`, `ConsumeCost`, `OverSellIff` and `SellFacts` are proved about it, and `CloseFifo`'s loop is proved equal to it |
| Positions.Accrue | position_tracker.py:75-78 | reference definition of `d[key] = d.get(key, 0.0) + delta`; `AccruedStep` proves that successive accruals add up |
| Positions.Accrued | position_tracker.py:64-78 | reference definition of the accrual a whole SELL makes: the key is written only when the loop body ran at least once; `AddTrade` and `CloseFifo` state their new PnL and basis maps through it |
| Positions.ConsumeQuantity | position_tracker.py:63-79 | a SELL conserves quantity (closed + still open = open before); a completed SELL of q > 0 closes exactly q; q <= 0 changes nothing; an over-sell empties the queue |
| Positions.ConsumeIsFifo | position_tracker.py:69-73 | closed portions and remaining lots split the queue FIFO: whole head lots are removed, at most one lot is reduced, and every later lot keeps quantity, price and order |
| Positions.ConsumeCost | position_tracker.py:76-78 | the basis a SELL accrues is the cost of the queue before less the cost of the queue after |
| Positions.FifoSplitPositive | position_tracker.py:69-73 | a FIFO split of a queue of positive lots leaves only positive lots and closes only positive portions, at non-negative prices when the lots had them |
| Positions.OverSellIff | position_tracker.py:64-68 | on a queue of positive lots, a SELL of q > 0 raises exactly when q exceeds the open quantity |
| Positions.RealisedIsProceedsLessCost | position_tracker.py:74-75 | the accrued PnL equals the sale price times the closed quantity, less the closed cost |
| Positions.CostNonNegative | position_tracker.py:76-78 | lots with positive quantity and non-negative price have a non-negative cost |
| Positions.SellFacts | position_tracker.py:63-79 | one SELL: an over-sell empties the queue; a completed SELL of q > 0 lowers the open quantity by q; it closes something exactly when q > 0 and the queue was not empty; it keeps positive lots positive; on positive lots a SELL of q > 0 raises exactly on q > open; when every lot has positive quantity and a non-negative price it closes non-negative cost |
| Positions.SellKeepsValid | position_tracker.py:63-79 | a SELL on one key keeps every queue of the map positive when they all were; on positive lots a SELL of q > 0 raises exactly when more than the open quantity is asked; a completed SELL of q > 0 takes exactly q; when every lot of the key has positive quantity and a non-negative price it never lowers that key's closed basis |
| Positions.PositionTracker.constructor | position_tracker.py:1-18 | a new tracker has no positions, no realised PnL and no closed basis, and is valid |
| Positions.PositionTracker.OpenQuantity | position_tracker.py:81-90 | 0 for an unknown key; on a valid tracker never negative, and 0 exactly when the key has no open lot |
| Positions.PositionTracker.CalculatePnl | position_tracker.py:92-103 | 0 for an unknown key or a zero basis; otherwise the result times the basis is 100 times the realised PnL |
| Positions.PositionTracker.AddTrade | position_tracker.py:26-79 | an unknown side raises and changes nothing; BUY appends one lot at the tail of that key only and raises the open quantity by qty; SELL leaves exactly what `Consume` leaves on that key only and accrues its PnL and cost on that key only; on a valid tracker a SELL of qty > 0 raises exactly when more than the open quantity is sold; every other key is untouched; a valid tracker stays valid (all lots positive) unless a BUY of qty <= 0 is recorded |
| Positions.PositionTracker.CloseFifo | position_tracker.py:62-79 | the SELL loop: new queue, realised PnL and basis are those of `Consume`; it keeps every lot positive when they all were; on positive lots a SELL of qty > 0 raises exactly when qty exceeds the open quantity; a completed SELL of qty > 0 lowers the open quantity by qty; when every lot of the key has positive quantity and a non-negative price the closed basis does not decrease |
| Positions.PartialThenFullClose | tests/test_position_tracker.py:9-20 | BUY 10@100, BUY 10@105, SELL 15@110 leaves 5 open and PnL 125/1525*100; SELL 5@120 then leaves 0 open and PnL 200/2050*100 |
| Positions.OpenTwoLots | tests/test_position_tracker.py:10-12 | on a new tracker, BUY 10@100 and BUY 10@105 leave the queue [10@100, 10@105] under the AAPL key and no realised PnL or basis |
| Positions.SellFifteen | tests/test_position_tracker.py:13 | from that state SELL 15@110 leaves [5@105], realised PnL 125 and closed basis 1525 |
| Positions.SellRest | tests/test_position_tracker.py:17 | from that state SELL 5@120 leaves an empty queue, realised PnL 200 and closed basis 2050 |
| Positions.FirstSell | tests/test_position_tracker.py:11-13 | selling 15 at 110 from lots 10@100 and 10@105 closes 10@100 and 5@105, leaves 5@105, realises 125 and closes a basis of 1525 |
| Positions.SecondSell | tests/test_position_tracker.py:17 | selling 5 at 120 from the lot 5@105 closes it, realises 75 and closes a basis of 525 |
| Prices.PercentChange | tracker.py:13-17 | 0 without a previous price or with a previous price of 0; otherwise the result times the previous price is 100 times the move |
| Prices.ChangeFollowsPrice | tracker.py:17 | from a positive previous price, the change is positive, negative or zero exactly when the price rose, fell or stayed |
| Prices.ChangeRecoversPrice | tracker.py:17 | applying the reported percentage to a non-zero previous price gives the new price back |
| Prices.PriceTracker.constructor | tracker.py:4-5 | a new tracker knows no price |
| Prices.PriceTracker.UpdateAndGetChange | tracker.py:7-17 | the contract's stored price becomes the given one whatever it was, every other contract is untouched, and the result is the percentage move from the replaced price (0 on a first observation) |
| Prices.FirstAndSecondQuote | tests/test_tracker.py:9-14 | quoting 100 then 110 reports 0 and then 10 |
| Flatten.IsPlaceholder | flatten.py:8 | reference definition of a `{…}` component (starts with `{` and ends with `}`); `Resolve`, `UnboundPlaceholderMisses` and `PlainPathIgnoresContext` are stated through it |
| Flatten.StripLeft | flatten.py:9 | the leading braces and nothing else are removed: the result is a suffix, everything dropped is a brace, and it does not start with one |
| Flatten.StripRight | flatten.py:9 | the trailing braces and nothing else are removed: the result is a prefix, everything dropped is a brace, and it does not end with one |
| Flatten.StripBraces | flatten.py:9 | a stripped name neither starts nor ends with a brace |
| Flatten.StripLeg | flatten.py:9 | stripping `{leg}` gives `leg` |
| Flatten.Resolve | flatten.py:8-9 | a non-placeholder component is used as is; a placeholder is replaced by the context's binding of its stripped name, and by `None` when that name is unbound |
| Flatten.Position | flatten.py:11 | Python's index rule: an index is valid exactly when `-len <= i < len`, the position is then below `len`, a non-negative index is itself and a negative one counts from the end |
| Flatten.Lookup | flatten.py:10-13 | a `None` key misses; a dictionary is read by name (a missing key or an index misses); a list or string is read by an index in range, negative indexes counting from the end, and a string yields a one-character string; anything else misses |
| Flatten.Walk | flatten.py:7-14 | reference definition of following a path, resolving each component and stopping with `None` at the first miss; `ExtractNestedValue` is proved equal to it, and `WalkAppend`, `UnboundPlaceholderMisses` and `PlainPathIgnoresContext` are proved about it |
| Flatten.WalkAppend | flatten.py:7-14 | walking a path in two pieces is walking it whole, and a miss in the first piece is a miss |
| Flatten.UnboundPlaceholderMisses | flatten.py:8-13 | a path holding a placeholder whose name the context does not bind yields `None`, wherever the placeholder sits |
| Flatten.PlainPathIgnoresContext | flatten.py:7-14 | a path without placeholders gives the same value under every context |
| Flatten.ExtractNestedValue | flatten.py:4-14 | the loop returns the value at the end of the path, or `None` as soon as a step fails; a missing context binds nothing; an empty path returns the input |
| Flatten.LegPlaceholderIsLegIndex | flatten.py:21 | under a leg's context, `{leg}` reads that leg's index |
| Flatten.LegContext | flatten.py:21 | reference definition of the context `{"leg": leg_index}`; `LegPlaceholderIsLegIndex` is proved about it and `ExtractFields`, `ExtractAndAppend` and `FlattenTradeShape` are stated through it |
| Flatten.ExtractFields | flatten.py:19-22 | the record has exactly the mapping's keys |
| Flatten.ExtractAndAppend | flatten.py:17-22 | the loop builds a record with exactly the mapping's keys, each holding its path's extraction with `leg` bound to the leg index |
| Flatten.Legs | flatten.py:26 | a non-dictionary order raises AttributeError; a missing `orderLegCollection` is the empty list; otherwise it is the stored value |
| Flatten.Length | flatten.py:28 | lists, dictionaries and strings have a length (a list's is its item count); anything else raises TypeError |
| Flatten.LegCount | flatten.py:26-28 | reference definition of `len(trade.get("orderLegCollection", []))`, with the AttributeError and TypeError it can raise; `FlattenTradeShape`, `NoLegsNoRecords` and `FlattenAllCount` are stated through it |
| Flatten.LegRecord | flatten.py:29-30 | reference definition of one loop iteration: the leg's extracted fields with `multi_leg` set from the leg count (overwriting a same-named field); `FlattenTradeShape` states its keys and values |
| Flatten.FlattenTrade | flatten.py:25-32 | reference definition of one order's records: the leg count's exception, or one `multi_leg`-tagged record per leg index; `FlattenTradeShape` and `NoLegsNoRecords` are proved about it and `FlattenTradeWithMapping` is proved equal to it |
| Flatten.FlattenTradeShape | flatten.py:25-32 | the exception counting the legs propagates; otherwise one record per leg, in leg order, with exactly the mapping's keys plus `multi_leg`, `multi_leg` true exactly when there are several legs, and each field its path's extraction for that leg |
| Flatten.NoLegsNoRecords | flatten.py:26-32 | an order without `orderLegCollection` yields no records |
| Flatten.FlattenTradeWithMapping | flatten.py:25-32 | the loop returns exactly the records of `FlattenTrade`, or its exception |
| Flatten.OrderMapping | flatten.py:36-44 | the seven field paths of the broker's order layout, component by component, with `{leg}` in the leg-dependent ones |
| Flatten.FlattenData | flatten.py:35-45 | an order is flattened with the seven field paths of the broker's order layout |
| Flatten.FlattenAll | flatten.py:48-53 | reference definition of a dataset's records: every order's records concatenated in order, or the first exception; `FlattenAllAppend` and `FlattenAllCount` are proved about it and `FlattenDataset` is proved equal to it |
| Flatten.FlattenAllAppend | flatten.py:48-53 | flattening two lists of orders one after the other is flattening their concatenation, and the first exception wins |
| Flatten.FlattenAllCount | flatten.py:48-53 | the dataset flattens exactly when every order's legs can be counted, and then into exactly as many records as there are legs in total |
| Flatten.FlattenDataset | flatten.py:48-53 | the loop returns every order's records concatenated in order, or the first exception |

## Left out

- Floating point: prices and quantities are exact reals. Rounding, NaN and infinities are not modelled. The tests compare percentages after `round(…, 2)`; the model states them exactly.
- `side.upper()` is modelled on ASCII letters only. Unicode case mappings, such as the ones that change a string's length, are not modelled.
- Python's dictionary insertion order is not modelled, because records and objects are maps. The order in which `extract_and_append` fills the keys is therefore not modelled either.
- `json_data` in `flatten_dataset` is a sequence of orders. An iterable that is not a list is not modelled.
- JSON objects have string keys. A context binds names to keys or list indexes only; other kinds of value are not modelled.
- Path components are names or integer indexes, plus `None` for an unbound placeholder. Float keys are not modelled; in the source they always miss (a TypeError on lists and strings, a KeyError on string-keyed dictionaries). Boolean keys are not modelled either; in the source a boolean indexes a list or string as 1 or 0. Neither kind occurs in the paths of `flatten_data` or in the `{"leg": i}` context.
- `Positions.PositionTracker.AddTrade`: the claims that a completed SELL lowers the open quantity by `qty` and that the closed basis never decreases are stated on `CloseFifo`, the SELL path it calls, and not repeated on `AddTrade`.
- `Positions.PositionTracker.CloseFifo` is the SELL half of `add_trade`, split out as its own method. The `setdefault(key, [])` before it is written as `positions[key := positions.get(key, [])]` in `AddTrade`.
- In-place mutation of the lot dictionaries is not modelled: a lot is a value, and the queue is replaced rather than edited. No other reference to a lot exists in the source.
- Apart from the key, `symbol` appears only in the exception message (position_tracker.py:67), whose text is not modelled.
- The fixture file read by `tests/test_flatten.py` is not part of this model, so that test is not restated as a concrete example.
- client.py, poller.py, discord_client.py, secrets.py, main.py and messaging.py are not part of this model. They are HTTP, asyncio, webhook, environment and string-formatting plumbing.
- Trade deduplication, average cost, unrealised gain and rollback of an over-sell do not exist in the code, so none of them is modelled.
