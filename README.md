# Terminal-Desktop trading core in Dafny

Terminal-Desktop is a desktop trading terminal. Its core is an in-memory engine that
receives quotes, aggregates them into bars, computes indicators and, in the simulation
gateway, plays back recorded quotes and fills orders against them. This project models
that core and proves what it promises.

- **Observable collections** (`index_collection.dfy`, `name_collection.dfy`,
  `events.dfy`). `IndexCollection` and `NameCollection` are classes holding a `seq` or a
  `map` and a log of the messages they publish. Each message holds an action, a previous
  value and a next value. Their methods state the new contents and the messages
  appended.
- **Time bucketing** (`time_collection.dfy`, `time_span_collection.dfy`).
  `TimeCollection.Add` replaces the last point or appends a new one.
  `TimeSpanCollection.Add` merges a tick into its frame's bar or opens a new bar, and
  keeps the index from frame start to bar position valid. The two aggregation scenarios
  of the repository's tests are proved as lemmas.
- **Conversions and averages** (`conversion.dfy`, `calculation.dfy`). These are the
  bijective base-26 `Encode`/`Decode` with 64-bit wrap-around, `Round` on ticks,
  `Equals`, and the four moving averages. The averages are loops proved against
  functions.
- **Orders, positions and instruments** (`transactions.dfy`, `positions.dfy`,
  `instruments.dfy`, `points.dfy`). These cover the validation rules an order must pass
  before intake, the type/side/kind encoding, and the profit estimates of a position
  together with the running extremes they record.
- **The simulation gateway** (`order_tree.dfy`, `gateway_model.dfy`,
  `simulation_spec.dfy`, `simulation.dfy`).
  - `simulation_spec.dfy` states every operation as a function from the account before
    to the account after.
  - `simulation.dfy` is the `GatewayClient` class. Each of its methods is proved to
    leave the account that function gives and to keep the gateway's invariant.
  - The invariant holds that every handle is stored, that the bracket hierarchy is
    acyclic, and that at most one position is active per instrument (netting).
  - Orders and positions live in two arenas (maps from handle to value). The account's
    lists hold handles, so that `List.Remove` removes by identity as in the source.
  - The recursive bracket cancel terminates because the hierarchy is ranked.
- **Indicators and scores** (`indicators.dfy`, `score.dfy`). The five bar indicators are
  classes whose `Calculate` stores the raw value at the current bar and writes the
  output into the bar's series entry. `SeriesMetrics`, `Change`, `MAE` and `MFE` are
  modelled over lists of records.
- **Broker maps** (`maps.dfy`). These are the Oanda and Tradier string-to-status and
  string-to-type maps.

The behaviours below are modelled as the code has them, not as a reader might expect:

- `UpdatePoints` appends a quote to `PointGroups` with the plain `IndexCollection.Add`.
  The simulation therefore never aggregates bars, and its latest bar is the latest
  quote.
- `GeneratePoints` always takes slot 0 as its first candidate. It replaces the
  candidate only with a quote no later than the candidate's. When slot 0 is empty, the
  slot picked is empty, and the source dereferences null. The model reports this
  outcome as `Fault`.
- `ProcessPendingOrders` walks the active list by index while fills remove orders from
  it. The order after a filled one is therefore skipped in that pass.
- `DecreasePosition` cancels the legs of the position it closes. These can include the
  bracket leg that triggered the fill.
- In `SeriesMetrics`, a flat step never ends a run, and the run still open at the end is
  never counted.

Doubles are modelled as `real`, nullable values as `Option`, times as `DateTime.Ticks`
and spans as `TimeSpan.Ticks`.

## Model

| member | source | states |
|---|---|---|
| IndexCollections.LastOrNone | Core/Collections/IndexCollection.cs:143-146 | the Previous of an appended element is the element last in the list before it, and there is none exactly when the list is empty |
| IndexCollections.RemoveFirstCounts | Core/Collections/IndexCollection.cs:179 | `List.Remove` takes out exactly one occurrence of a present element (the multiset loses one copy, the length drops by one) and leaves a list without it unchanged |
| IndexCollections.RemoveFirstSplit | Core/Collections/IndexCollection.cs:179 | the removed occurrence is the first one: everything before it and everything after it is kept in order |
| IndexCollections.CreateEventsAt | Core/Collections/IndexCollection.cs:133-150 | `Add` publishes one Create item message per element, in order, each naming as Previous the element last in the list just before that element was appended (none for the first element of an empty list) |
| IndexCollections.IndexCollection.constructor | Core/Collections/IndexCollection.cs:73-75 | a new collection is empty and has published nothing |
| IndexCollections.IndexCollection.Count | Core/Collections/IndexCollection.cs:80 | `Count` is the number of stored elements |
| IndexCollections.IndexCollection.Set | Core/Collections/IndexCollection.cs:97-125 | the setter replaces exactly the element at the index and publishes Update with the replaced element as Previous, then the collection; an index outside the list is excluded because the source throws |
| IndexCollections.IndexCollection.Add | Core/Collections/IndexCollection.cs:131-159 | the elements are appended in order, with one Create item message each and one Create collection message holding the grown list |
| IndexCollections.IndexCollection.Remove | Core/Collections/IndexCollection.cs:165-182 | the first equal element is removed and Delete is published with the element as Previous, also when nothing was removed |
| IndexCollections.IndexCollection.Update | Core/Collections/IndexCollection.cs:188-204 | the list is unchanged and Update is published for the element and the collection |
| IndexCollections.IndexCollection.Clear | Core/Collections/IndexCollection.cs:209-212 | the list becomes empty and nothing is published |
| NameCollections.RemoveFirstDistinct | Core/Collections/NameCollection.cs:188 | removing a key from the enumeration order leaves exactly the other keys, still without repeats |
| NameCollections.NameCollection.constructor | Core/Collections/NameCollection.cs:48-58 | a new dictionary is empty, has published nothing and satisfies the key-order invariant |
| NameCollections.NameCollection.LastValue | Core/Collections/NameCollection.cs:126 | the last value in enumeration order exists exactly when the dictionary is not empty |
| NameCollections.NameCollection.Get | Core/Collections/NameCollection.cs:83 | the getter returns the stored value for a present key and null (`default`) exactly for a missing key |
| NameCollections.NameCollection.Put | Core/Collections/NameCollection.cs:120-139 | the key is bound to the value (appended to the modelled enumeration order only when new) and the action is published with the previously last value as Previous, then the dictionary after the write |
| NameCollections.NameCollection.Add | Core/Collections/NameCollection.cs:91-104 | both `Add(key, value)` and `Add(pair)` are a Put with the Create action |
| NameCollections.NameCollection.AddNamed | Core/Collections/NameCollection.cs:110-113 | `Add(value)` is a Create Put under the value's own name |
| NameCollections.NameCollection.Set | Core/Collections/NameCollection.cs:84 | the setter is a Put with the Update action |
| NameCollections.NameCollection.Clear | Core/Collections/NameCollection.cs:144-159 | the dictionary becomes empty and Clear is published on both streams with no values |
| NameCollections.NameCollection.Remove | Core/Collections/NameCollection.cs:166-194 | the result is true exactly when the key was present; a present key is removed with Delete published (the removed value as Previous); a missing key changes and publishes nothing |
| TimeCollections.CollapsedKeepsFramesApart | Core/Collections/TimeCollection.cs:29-46 | adding a point keeps neighbouring points in distinct time frames, leaves the earlier points alone, ends the list with the new point and grows the list by at most one |
| TimeCollections.TimeCollection.constructor | Core/Collections/TimeCollection.cs:24 | a new time collection is empty and has published nothing |
| TimeCollections.TimeCollection.Add | Core/Collections/TimeCollection.cs:29-46 | a point in the same frame as the last one replaces it through the indexer (an Update naming the replaced point), any other point is appended (a Create); a zero span is allowed except where the source would cut a non-null time with it: when there is a last point and either time is not null |
| TimeSpanCollections.CreateGroup | Core/Collections/TimeSpanCollection.cs:59-84 | a tick with neither quote is kept as it is; otherwise the new bar has both quotes, both sizes, a full OHLC bar and a last price, starts at the beginning of the tick's frame and carries the span |
| TimeSpanCollections.NewBarSpansQuotes | Core/Collections/TimeSpanCollection.cs:68-81 | a bar opened from a raw tick spans exactly its two quotes, closes at its last price, and opens and closes at the previous bar's last price when there is one (else at the ask and the bid) |
| TimeSpanCollections.UpdateGroup | Core/Collections/TimeSpanCollection.cs:92-130 | a merge keeps the bar's time, frame and open, takes the tick's quotes (each filled from the other) and closes at the bar's new last price |
| TimeSpanCollections.MergeWidensRange | Core/Collections/TimeSpanCollection.cs:113-127 | merging a two-sided tick widens the bar to cover both quotes and keeps low <= high |
| TimeSpanCollections.MergeClose | Core/Collections/TimeSpanCollection.cs:99-124 | the merged bar closes at a new high when one is made, else at a new low, else at the tick's last, close, bid or ask, in that order |
| TimeSpanCollections.AddToFrame | Core/Collections/TimeSpanCollection.cs:34-50 | after an addition every frame index still points at a stored bar |
| TimeSpanCollections.AddToFrameShape | Core/Collections/TimeSpanCollection.cs:38-49 | a tick either merges into the bar of its frame, changing no other bar and no index, or appends one bar indexed by its frame |
| TimeSpanCollections.OpensFrame | Core/Collections/TimeSpanCollection.cs:47-49 | a two-sided tick in a frame without a bar appends a bar at the frame's start spanning its two quotes |
| TimeSpanCollections.MergesFrame | Core/Collections/TimeSpanCollection.cs:41-44 | a two-sided tick in a frame with a bar widens that bar to the tick's quotes and changes nothing else |
| TimeSpanCollections.OneSecondFrames | Evaluation/Collections/TimeSpanCollectionTests.cs:13-77 | the six test ticks grouped by one second give five bars with the test's times, lows and highs; the first bar opens at -1 (the ask) and closes at 0 (the bid), and the second opens and closes at 0 (the first bar's last price) |
| TimeSpanCollections.TwoSecondFrames | Evaluation/Collections/TimeSpanCollectionTests.cs:80-129 | the six test ticks grouped by two seconds give three bars with the test's times, lows and highs |
| TimeSpanCollections.QuotelessBarBlocksMerge | Core/Collections/TimeSpanCollection.cs:61-63 | a tick with neither quote opens its frame's bar as it is, without a low or a high, after which a two-sided tick in that frame is outside what `Add` accepts (the source throws on `Bar.Low.Value` at line 126) |
| TimeSpanCollections.TimeSpanCollection.constructor | Core/Collections/TimeSpanCollection.cs:29 | a new aggregation holds no bars and no frame indexes |
| TimeSpanCollections.TimeSpanCollection.Add | Core/Collections/TimeSpanCollection.cs:34-50 | the bars and frame indexes become AddToFrame of the old ones; a merge publishes Update naming the merged bar as both Previous and Next (the bar is changed in place first), a new bar publishes Create |
| Instruments.NewInstrument | Core/Models/Instruments/InstrumentModel.cs:211-223 | a new instrument has no quotes or bars, a step of 0.01 worth 0.01, no commission or swaps and a contract size of 1, and passes InstrumentValidation once a time frame is set |
| Instruments.LastBar | Gateway/Simulation/GatewayClient.cs:330 | `PointGroups.LastOrDefault()` gives a bar exactly when the instrument has one |
| Transactions.SellStopLimitIsSellLimit | Core/Enums/TransactionTypeEnum.cs:11-13 | SellStopLimit and SellLimit share the value 6, so every comparison treats a sell stop-limit as a sell limit and never as a sell stop |
| Transactions.TypeFor | Gateway/Alpaca/GatewayClient.cs:318-348 | the type built from an order kind and a side has that side, and that kind except that a sell stop-limit reads back as a limit |
| Transactions.TypeRoundTrip | Gateway/Alpaca/GatewayClient.cs:318-348 | every type except None has a side and a kind that name its value again |
| Transactions.NewOrder | Core/Models/Transactions/TransactionOrderModel.cs:65-70 | a new order has its id, no legs, no container and nothing else set |
| Transactions.NewPosition | Core/Models/Transactions/TransactionPositionModel.cs:252-255 | a new position has no open prices, no legs and no gain or loss figures |
| Transactions.AcceptedMeans | Core/Models/Transactions/TransactionOrderModel.cs:76-107 | for each type, exactly when an order passes TransactionOrderPriceValidation: market orders always, resting orders with a non-zero price on the side of the latest quote their type names, a type of None never |
| Transactions.MarketOrdersIgnorePrice | Core/Models/Transactions/TransactionOrderModel.cs:102 | whether a market order is accepted does not depend on its price or on the quotes |
| Positions.ClosePriceEstimate | Core/Models/Transactions/TransactionPositionModel.cs:153-170 | a long closes at the latest bid, a short at the latest ask, and without a bar or a side there is no estimate |
| Positions.PointsEstimate | Core/Models/Transactions/TransactionPositionModel.cs:197-218 | the estimate is the signed move from the given price (or the open price) to the close estimate, null when either is missing; only an estimate against a price updates the running minimum and maximum, with null counted as 0 |
| Positions.GainLossEstimate | Core/Models/Transactions/TransactionPositionModel.cs:225-247 | an instrument that fails InstrumentCollectionsValidation gives null and leaves the position alone; otherwise the result is the points estimate in currency less commissions, and an estimate against a price updates both pairs of extremes |
| Positions.Currency | Core/Models/Transactions/TransactionPositionModel.cs:231-233 | a points move becomes `size * (points * stepValue / stepSize - commission * lots * 2)`, null exactly when the move is null |
| Positions.PointsExtremes | Core/Models/Transactions/TransactionPositionModel.cs:211-214 | after an estimate the points minimum is at most the estimate and never rises, the maximum is at least it and never falls, and `min <= 0 <= max` is kept |
| Positions.GainLossExtremes | Core/Models/Transactions/TransactionPositionModel.cs:235-239 | the same for the currency minimum and maximum |
| Positions.PointsEstimateSettles | Core/Models/Transactions/TransactionPositionModel.cs:209-215 | recording the same estimate a second time changes nothing |
| Positions.PointsEstimateSign | Core/Models/Transactions/TransactionPositionModel.cs:199-211 | a long gains exactly when the bid is above the price, a short exactly when the ask is below it, and a position without a side has no estimate |
| Positions.LongGainLoss | Core/Models/Transactions/TransactionPositionModel.cs:225-241 | a long valued at a bid `move` above its price earns `size * (move * stepValue / stepSize - 2 * lots * commission)`; without commission it gains exactly when the bid rose |
| Positions.EstimatesReadTerms | Core/Models/Transactions/TransactionPositionModel.cs:197-247 | the estimates depend only on the position's side, size, open price and lots, not on its close fields or recorded extremes |
| Conversion.Wrap64 | Core/Managers/ConversionManager.cs:207-208 | the unchecked 64-bit result lies in the `long` range, is congruent to the exact value modulo 2^64 and equals it when it fits |
| Conversion.Encode | Core/Managers/ConversionManager.cs:201-212 | the loop succeeds exactly when every character upper-cases (ASCII only) to a letter, and then yields the bijective base-26 value of the text (A=1 … Z=26), wrapped to 64 bits |
| Conversion.Decode | Core/Managers/ConversionManager.cs:219-230 | a non-positive number decodes to the empty text; a successful decode holds only the letters A to Y |
| Conversion.DecodeEncode | Core/Managers/ConversionManager.cs:201-230 | for texts of letters without 'Z', decoding the encoded value gives back the upper-cased text |
| Conversion.EncodedZDoesNotDecode | Core/Managers/ConversionManager.cs:225 | any 'Z' in the text makes decoding its encoded value fail, because 26 leaves a zero remainder that `_chars` has no entry for |
| Conversion.EncodeFitsInLong | Core/Managers/ConversionManager.cs:205-209 | up to 13 letters the encoded value lies in [0, 2^63), so the 64-bit arithmetic never wraps |
| Conversion.RoundTrip | Core/Managers/ConversionManager.cs:201-230 | `Decode(Encode(s))` is the upper-cased `s` for every text of at most 13 letters without 'Z' |
| Conversion.Round | Core/Managers/ConversionManager.cs:238-246 | null exactly when either argument is null (including a null time with a zero span); otherwise a multiple of the span at most one span below the time; a zero span with a time is excluded because the source divides by it |
| Conversion.RoundUnique | Core/Managers/ConversionManager.cs:245 | any multiple of the span within one span below the time is the rounded value |
| Conversion.RoundIdempotent | Core/Managers/ConversionManager.cs:238-246 | rounding twice gives the same as rounding once, for every argument pair the source accepts |
| Conversion.Equals | Core/Managers/ConversionManager.cs:55-58 | true exactly when the two values lie strictly less than epsilon apart |
| Conversion.Upper | Core/Managers/ConversionManager.cs:208 | ASCII upper-casing (`a`..`z` to `A`..`Z`, every other character unchanged) applied to every character, keeping the length |
| OrderTrees.RankedAdd | Gateway/Simulation/GatewayClient.cs:203-237 | adding an order whose legs are already known keeps the order hierarchy acyclic, so the recursive cancel always terminates |
| OrderTrees.Preorder | Gateway/Simulation/GatewayClient.cs:266-281 | the orders the recursive cancel visits, in visiting order, all belong to the arena |
| OrderTrees.PreorderClosed | Gateway/Simulation/GatewayClient.cs:266-281 | the visit reaches each given order and every leg of each order it reaches, and nothing that is neither a given order nor a leg of a visited one |
| OrderTrees.MarkCancelled | Gateway/Simulation/GatewayClient.cs:270 | setting the status to Cancelled keeps every order's legs, instrument, type, size, container and id |
| OrderTrees.MarkCancelledTwice | Gateway/Simulation/GatewayClient.cs:268-277 | cancelling in two rounds is cancelling the union, so cancelling an order twice (a leg shared by two parents) changes nothing more |
| OrderTrees.RemoveAllMultiset | Gateway/Simulation/GatewayClient.cs:272 | removing each visited order once from the active list takes away exactly one copy per visit, never below zero copies |
| OrderTrees.RemoveAllWeight | Gateway/Simulation/GatewayClient.cs:272 | removing orders from a list keeps it inside the arena and never adds to its weight |
| GatewayModels.Resolve | Core/Models/GatewayModel.cs:92 | an order's instrument is found exactly when it names one the account holds, and is that instrument |
| GatewayModels.EnsureOrderProps | Core/Models/GatewayModel.cs:85-103 | true exactly when each order, its instrument, each of its legs and each leg's instrument pass their validation rules; in particular every order given is valid |
| GatewayModels.UpdatePositionParams | Core/Models/GatewayModel.cs:148-163 | the position takes the order's identity, type, size, price as price and open price, instrument, legs and time, and keeps its own lots, close data and profit figures |
| SimulationSpec.Cancel | Gateway/Simulation/GatewayClient.cs:266-281 | the recursive cancel changes only the orders' statuses and the active list, and keeps every order's terms and the hierarchy |
| SimulationSpec.CancelOne | Gateway/Simulation/GatewayClient.cs:270-272 | one visit marks the order Cancelled and removes one occurrence of it from the active list |
| SimulationSpec.CancelStep | Gateway/Simulation/GatewayClient.cs:268-277 | cancelling a list is cancelling its first order, then that order's legs, then the rest, and the visit order is the matching preorder |
| SimulationSpec.CancelStatuses | Gateway/Simulation/GatewayClient.cs:266-281 | exactly the orders reachable from the given ones through legs become Cancelled; no other status changes |
| SimulationSpec.CancelActive | Gateway/Simulation/GatewayClient.cs:272 | the active list loses one occurrence per visit of the walk, in the walk's order |
| SimulationSpec.CancelKeepsValid | Gateway/Simulation/GatewayClient.cs:266-281 | cancelling keeps the account valid and never makes the active list heavier |
| SimulationSpec.OrderBar | Gateway/Simulation/GatewayClient.cs:330 | an order's latest bar exists exactly when it names an instrument of the account that has received a quote |
| SimulationSpec.OpenLot | Gateway/Simulation/GatewayClient.cs:461-480 | the filled lot has the order's size and the bar's time, and the order's own price unless that is null or 0, in which case the ask for a buy and the bid otherwise |
| SimulationSpec.RestingFillsAtOwnPrice | Gateway/Simulation/GatewayClient.cs:466-468 | a stop, limit or stop-limit order that passed intake always fills at its own price |
| SimulationSpec.FindActive | Gateway/Simulation/GatewayClient.cs:290-292 | the first active position on the order's instrument, and none exactly when no active position is on it |
| SimulationSpec.AveragePriceBetween | Gateway/Simulation/GatewayClient.cs:383 | the size-weighted average of the open lots lies between the lowest and the highest lot price |
| SimulationSpec.ClosePosition | Gateway/Simulation/GatewayClient.cs:385-388 | the previous position is closed at the new position's time and open price, and its GainLoss and GainLossPoints are the estimates against its own price; its terms are kept |
| SimulationSpec.RemoveOnlyActive | Gateway/Simulation/GatewayClient.cs:391 | removing the one active position on an instrument from a netting list leaves no active position on that instrument |
| SimulationSpec.Opened | Gateway/Simulation/GatewayClient.cs:336-340 | the opened position carries the order's terms, the bar's time and exactly the one filled lot, whose price is its price and its open price |
| SimulationSpec.OpenProgress | Gateway/Simulation/GatewayClient.cs:322-347 | OpenPosition keeps the account valid and takes the order off the active list |
| SimulationSpec.Increased | Gateway/Simulation/GatewayClient.cs:377-383 | the increased position adds the sizes, appends the new lot to the previous lots and opens at their weighted average |
| SimulationSpec.IncreaseProgress | Gateway/Simulation/GatewayClient.cs:355-398 | IncreasePosition keeps the account valid, netting included, and takes the order off the active list |
| SimulationSpec.Remainder | Gateway/Simulation/GatewayClient.cs:428-433 | the position DecreasePosition builds has the order's terms and lot, and the absolute difference of the two sizes |
| SimulationSpec.CloseOutValid | Gateway/Simulation/GatewayClient.cs:435-443 | closing the previous position and settling the balance keeps the account valid, leaves no active position on the instrument and takes the order off the active list |
| SimulationSpec.SettleValid | Gateway/Simulation/GatewayClient.cs:435-447 | closing, cancelling the previous position's legs and logging keeps the account valid with no active position left on the instrument |
| SimulationSpec.SettleLeavesRoom | Gateway/Simulation/GatewayClient.cs:449-452 | after settling, the remainder position fits the account as its instrument's only active position |
| SimulationSpec.AddRemainder | Gateway/Simulation/GatewayClient.cs:449-452 | the remainder is opened exactly when its size is not zero |
| SimulationSpec.DecreaseProgress | Gateway/Simulation/GatewayClient.cs:406-455 | DecreasePosition keeps the account valid and takes the order off the active list |
| SimulationSpec.PlaceLegs | Gateway/Simulation/GatewayClient.cs:306-311 | the bracket loop appends every leg to the active list and keeps every order's terms |
| SimulationSpec.PlaceLegsStatus | Gateway/Simulation/GatewayClient.cs:306-311 | exactly the legs get the bar's time and the Placed status; every other order is unchanged |
| SimulationSpec.FillProgress | Gateway/Simulation/GatewayClient.cs:294-297 | whichever of open, increase or decrease applies, the account stays valid and the order leaves the active list |
| SimulationSpec.CreatePositionProgress | Gateway/Simulation/GatewayClient.cs:288-314 | CreatePosition keeps the account valid (one active position per instrument), keeps every order's terms and strictly lightens the active list when it fills an active order |
| SimulationSpec.ExecutableMeans | Gateway/Simulation/GatewayClient.cs:495-508 | a buy stop or sell limit fires when the ask is at or above its price, a sell stop or buy limit when the bid is at or below it, and no other type fires |
| SimulationSpec.StopFiresOnAcceptanceBarOnlyAtQuote | Gateway/Simulation/GatewayClient.cs:500-507 | on the bar it was accepted against, a buy stop fires only when its price equals the ask and a sell stop only when its price equals the bid |
| SimulationSpec.Process | Gateway/Simulation/GatewayClient.cs:485-516 | a ProcessPendingOrders pass keeps the account valid, every order's terms and the instruments |
| SimulationSpec.ProcessQuiet | Gateway/Simulation/GatewayClient.cs:485-516 | a pass in which no remaining order is executable changes nothing |
| SimulationSpec.Intake | Gateway/Simulation/GatewayClient.cs:210-234 | taking in the orders keeps the account valid and every order's terms |
| SimulationSpec.IntakeStep | Gateway/Simulation/GatewayClient.cs:212-233 | a market order is filled when it can be, a stop, limit or stop-limit order without a container is rested, and anything else is left alone, each keeping the account valid |
| SimulationSpec.CleanOrderCanFill | Core/Models/GatewayModel.cs:85-103 | an order that passed validation names an instrument with a latest bar, so a market order is always filled |
| SimulationSpec.CreateOrdersSpec | Gateway/Simulation/GatewayClient.cs:203-237 | nothing changes when validation fails; otherwise the orders are taken in and the account stays valid |
| SimulationSpec.AmendAllMeans | Gateway/Simulation/GatewayClient.cs:243-260 | an order off the active list is untouched; an active one takes the type, size, price and legs of the last amendment with its id, or keeps its own; its identity, status and instrument never change |
| SimulationSpec.LastWithId | Gateway/Simulation/GatewayClient.cs:245-249 | the amendment found carries the id and is one of those sent, and none is found exactly when none carries it |
| SimulationSpec.Resting | Gateway/Simulation/GatewayClient.cs:219-230 | the tracked orders are among those sent |
| SimulationSpec.IntakeResting | Gateway/Simulation/GatewayClient.cs:219-230 | without market orders, exactly the resting orders without a container are appended, in order, to the order log and the active list, and positions and balance stay as they were |
| SimulationSpec.IntakeRestingPlaced | Gateway/Simulation/GatewayClient.cs:227 | those orders, and no others, become Placed |
| SimulationSpec.Stamp | Core/Models/GatewayModel.cs:110-116 | the quote takes its instrument's name and time frame and keeps its time, bid, ask and bar |
| SimulationSpec.Appended | Core/Models/GatewayModel.cs:135-141 | the quote is appended once to the points and once to the bars, and nothing else of the instrument changes |
| SimulationSpec.Receive | Gateway/Simulation/GatewayClient.cs:71-75 | a quote is stored on its instrument and the pending-order pass that follows keeps the account valid and every order's terms |
| SimulationSpec.ReceivedIsLatest | Core/Models/GatewayModel.cs:118-123 | after a quote arrives it is its instrument's latest bar, so the message published next carries it |
| SimulationSpec.Select | Gateway/Simulation/GatewayClient.cs:154-180 | the pick is -1 exactly when there are no instruments, and otherwise one of them |
| SimulationSpec.SelectEarliest | Gateway/Simulation/GatewayClient.cs:170-179 | when slot 0 holds no quote it is picked; otherwise the pick holds the earliest quote, and ties go to the last such slot |
| SimulationSpec.RefilledMeans | Gateway/Simulation/GatewayClient.cs:158-167 | each empty slot whose reader yields a line holds its quote; every other slot is as it was |
| SimulationSpec.AdvancedMeans | Gateway/Simulation/GatewayClient.cs:160-163 | each reader whose slot was empty has moved one line on and no other reader has moved |
| SimulationSpec.IntakeClientValid | Gateway/Simulation/GatewayClient.cs:210-234 | one turn of CreateOrders keeps the whole gateway valid |
| SimulationSpec.Amend | Gateway/Simulation/GatewayClient.cs:247-256 | one amendment keeps the arena's handles |
| SimulationSpec.AmendAll | Gateway/Simulation/GatewayClient.cs:245-257 | the amendments in turn keep the arena's handles |
| SimulationSpec.IntakeOne | Gateway/Simulation/GatewayClient.cs:212-233 | one turn of the CreateOrders loop keeps the account valid and every order's terms |
| SimulationSpec.MarkPlaced | Gateway/Simulation/GatewayClient.cs:227 | marking orders Placed keeps the arena's handles |
| SimulationSpec.CancelAndLog | Gateway/Simulation/GatewayClient.cs:444-447 | cancelling the previous position's legs and logging the order and the position keeps the account valid and the positions as they were |
| SimulationSpec.Advanced | Gateway/Simulation/GatewayClient.cs:160-163 | one reader position per file |
| SimulationSpec.CreatePositionValid | Gateway/Simulation/GatewayClient.cs:288-314 | CreatePosition keeps the whole gateway valid |
| SimulationSpec.DecreaseClientValid | Gateway/Simulation/GatewayClient.cs:406-455 | DecreasePosition keeps the whole gateway valid |
| Simulation.RankAbove | Gateway/Simulation/GatewayClient.cs:203-237 | the rank given to a new order lies above the rank of each of its legs |
| Simulation.RegisterValid | Gateway/Simulation/GatewayClient.cs:203-237 | an order whose legs are already orders of the gateway can be added without breaking the account's invariants |
| Simulation.CancelOneValid | Gateway/Simulation/GatewayClient.cs:270-272 | one cancel visit keeps the account valid, the hierarchy and every order's terms |
| Simulation.CancelLoopStep | Gateway/Simulation/GatewayClient.cs:268-277 | one turn of the cancel loop keeps the account valid, and the legs it recurses on weigh strictly less than the list, so the recursion ends |
| Simulation.AmendStep | Gateway/Simulation/GatewayClient.cs:247-255 | the inner amendment loop reaches one more entry of the active list, changing that order only when its id matches |
| Simulation.AmendValid | Gateway/Simulation/GatewayClient.cs:243-260 | amendments whose legs still form an acyclic hierarchy keep the account valid |
| Simulation.ScanStep | Gateway/Simulation/GatewayClient.cs:156-180 | one turn of the GeneratePoints loop moves the buffer, the readers and the pick from the first i slots to the first i + 1 |
| Simulation.GatewayClient.constructor | Gateway/Simulation/GatewayClient.cs:53-96 | Connect, for a gateway over an account without orders or positions: one reader per instrument past its header line, an empty buffer and a running replay clock |
| Simulation.GatewayClient.CancelOrders | Gateway/Simulation/GatewayClient.cs:266-281 | the gateway's account becomes the recursive cancel of the given orders, and stays valid |
| Simulation.GatewayClient.OpenPosition | Gateway/Simulation/GatewayClient.cs:322-347 | declines exactly when an active position is on the order's instrument, otherwise opens the position |
| Simulation.GatewayClient.IncreasePosition | Gateway/Simulation/GatewayClient.cs:355-398 | applies exactly when an active position on the instrument is on the order's side, and then replaces it by the increased one |
| Simulation.GatewayClient.DecreasePosition | Gateway/Simulation/GatewayClient.cs:406-455 | applies exactly when an active position on the instrument is on the other side, and then closes it, cancels its legs and opens the remainder |
| Simulation.GatewayClient.CreatePosition | Gateway/Simulation/GatewayClient.cs:288-314 | the account becomes the fill of the order followed by the bracket loop, and stays valid |
| Simulation.GatewayClient.FillPosition | Gateway/Simulation/GatewayClient.cs:294-297 | the first of open, increase and decrease that does not decline fills the order |
| Simulation.GatewayClient.PlaceBrackets | Gateway/Simulation/GatewayClient.cs:306-311 | each leg is stamped with the bar's time, Placed and appended to the active list |
| Simulation.GatewayClient.StampLegs | Gateway/Simulation/GatewayClient.cs:306-311 | the bracket loop over an account value computes the placed legs |
| Simulation.GatewayClient.Triggered | Gateway/Simulation/GatewayClient.cs:494-508 | the loop body's trigger flag is exactly the trigger rule for the order's type and the latest bar |
| Simulation.GatewayClient.ProcessPendingOrders | Gateway/Simulation/GatewayClient.cs:485-516 | one pass over the active list is the Process specification and keeps the account valid |
| Simulation.GatewayClient.CreateOrders | Gateway/Simulation/GatewayClient.cs:203-237 | answers null and changes nothing when validation fails, otherwise answers the orders and takes them in |
| Simulation.GatewayClient.UpdateOrders | Gateway/Simulation/GatewayClient.cs:243-260 | only the orders change: every active order takes the terms of the last amendment with its id |
| Simulation.GatewayClient.UpdatePoints | Core/Models/GatewayModel.cs:135-141 | the quote is appended to the instrument's points and bars, after which the pending-order pass runs |
| Simulation.GatewayClient.UpdatePointProps | Core/Models/GatewayModel.cs:110-129 | the quote is stamped, stored, and the instrument's latest bar, which is that quote, is published on the data stream |
| Simulation.GatewayClient.GeneratePoints | Gateway/Simulation/GatewayClient.cs:152-197 | refills the empty slots, stops the clock when there are no files, emits the earliest quote and empties its slot, and faults when the slot picked is empty |
| Simulation.GatewayClient.RefillSlots | Gateway/Simulation/GatewayClient.cs:156-180 | the loop's buffer, readers and pick are those of the refill and select specifications |
| Simulation.GatewayClient.ReadSlot | Gateway/Simulation/GatewayClient.cs:158-167 | a vacant slot reads its file's next line if there is one, storing it when it is a quote |
| Simulation.GatewayClient.Pick | Gateway/Simulation/GatewayClient.cs:170-179 | slot i becomes the pick when there is none yet or its quote is no later than the pick's |
| Simulation.GatewayClient.Register | Gateway/Simulation/GatewayClient.cs:203-237 | a new order gets a fresh handle and nothing else of the account changes |
| Simulation.GatewayClient.Withdraw | Gateway/Simulation/GatewayClient.cs:270-272 | one order is marked Cancelled and one occurrence of it leaves the active list |
| Simulation.GatewayClient.CancelAt | Gateway/Simulation/GatewayClient.cs:268-277 | one turn of the cancel loop leaves the rest of the list to cancel from an account equal to the specification's intermediate one |
| Simulation.GatewayClient.CloseOutPosition | Gateway/Simulation/GatewayClient.cs:421-443 | the order is filled and the previous position closed, the balance settled and both taken off the active lists |
| Simulation.GatewayClient.SettlePosition | Gateway/Simulation/GatewayClient.cs:421-447 | the close-out followed by the cancel of the previous position's legs and the logging of both |
| Simulation.GatewayClient.Reduce | Gateway/Simulation/GatewayClient.cs:421-454 | the whole decrease once it applies |
| Simulation.GatewayClient.AddRemainder | Gateway/Simulation/GatewayClient.cs:449-452 | the remainder becomes the active position exactly when its size is not zero |
| Simulation.GatewayClient.TakeIn | Gateway/Simulation/GatewayClient.cs:212-233 | one turn of the CreateOrders loop |
| Simulation.GatewayClient.AmendActive | Gateway/Simulation/GatewayClient.cs:247-256 | every active order with the amendment's id takes its type, size, price and legs |
| Calculation.WindowSum | Core/Managers/CalculationManager.cs:22-25 | the loop adds up exactly the interval values ending at the index |
| Calculation.SimpleAverage | Core/Managers/CalculationManager.cs:16-31 | the loop computes the mean of the window, or 0 when the interval is not positive or the index is before the first full window |
| Calculation.ExponentialAverage | Core/Managers/CalculationManager.cs:41-52 | 0 for a non-positive interval; otherwise between the current value and the previous average, and equal to the previous average when the value repeats it |
| Calculation.SmoothAverage | Core/Managers/CalculationManager.cs:62-85 | the loop computes the smoothed average specification |
| Calculation.LinearWeightAverage | Core/Managers/CalculationManager.cs:94-112 | the loop computes the weighted mean with weights interval down to 1 from newest to oldest, or 0 before the first full window |
| Calculation.SimpleAverageBetween | Core/Managers/CalculationManager.cs:20-27 | the simple average lies between the least and the greatest value of its window |
| Calculation.SimpleAverageNonnegative | Core/Managers/CalculationManager.cs:16-31 | the simple average of non-negative values is non-negative |
| Calculation.LinearWeightAverageBetween | Core/Managers/CalculationManager.cs:100-108 | the weighted average lies between the least and the greatest value of its window |
| Calculation.ConstantWindow | Core/Managers/CalculationManager.cs:16-112 | on a window of one repeated value both averages return that value |
| Calculation.SmoothAverageFacts | Core/Managers/CalculationManager.cs:66-81 | at the first full window the smoothed average is the simple mean; afterwards it lies between the previous average and the new value |
| Calculation.SmoothSeriesConstant | Core/Managers/CalculationManager.cs:62-85 | on a constant series the smoothed series equals that constant from the first full window on |
| Score.Change | Score/Change.cs:23-40 | 0 without values, when the first value is 0, or for an option other than 0 and 1 |
| Score.ChangeOptions | Score/Change.cs:33-37 | the percent change is the absolute change scaled by 100 over the first value's magnitude, and both are positive exactly when the last value exceeds the first |
| Score.Adverse | Score/MAE.cs:28 | one excursion per record, its value less its minimum |
| Score.Favourable | Score/MFE.cs:28 | one excursion per record, its maximum less its value |
| Score.MAEFacts | Score/MAE.cs:21-29 | 0 without records, the one excursion for one record, the mean of the excursions in general, and never negative when no minimum exceeds its value |
| Score.MFEFacts | Score/MFE.cs:21-29 | 0 without records, the one excursion for one record, the mean of the excursions in general, and never negative when no maximum is below its value |
| Score.StepDirection | Score/SeriesMetrics.cs:60-66 | 1 exactly for a rise, -1 exactly for a fall, 0 exactly for a flat step |
| Score.MaxReal | Score/SeriesMetrics.cs:91-92 | the LINQ maximum bounds every element and is one of them |
| Score.MaxInt | Score/SeriesMetrics.cs:93-94 | the LINQ maximum bounds every counter and is one of them |
| Score.Respond | Score/SeriesMetrics.cs:79-97 | all zeros without finished runs; otherwise their number, and maxima that bound every run and are attained |
| Score.SeriesMetrics | Score/SeriesMetrics.cs:46-98 | the loop's response is the response built from the runs the step specification finishes |
| Score.Directions | Score/SeriesMetrics.cs:53-66 | one direction per step between neighbouring records |
| Score.RunFacts | Score/SeriesMetrics.cs:53-121 | one run is finished per inversion of neighbouring step directions; the runs and the open one hold every step once; gains, losses and counts are non-negative and wins plus losses never exceed the count |
| Score.NoInversionNoSeries | Score/SeriesMetrics.cs:88-95 | without an inversion the response is all zeros |
| Score.FlatStepJoinsRuns | Score/SeriesMetrics.cs:107-121 | a flat step between a rise and a fall keeps them in one run, since a flat direction never counts as an inversion |
| Score.RiseThenFall | Score/SeriesMetrics.cs:46-121 | a rise followed by a fall finishes one run of one winning step |
| Indicators.Closes | Core/Indicators/MovingAverageIndicator.cs:72-81 | one close per stored point, in order |
| Indicators.Stored | Core/Indicators/MovingAverageIndicator.cs:72-79 | the slot of the current bar is appended when missing and then holds the new point; every other stored point is kept |
| Indicators.StoredClosed | Core/Indicators/MovingAverageIndicator.cs:72-79 | storing a point with a close keeps every stored point closed |
| Indicators.Labelled | Core/Indicators/MovingAverageIndicator.cs:81-88 | the point's series entry for the indicator's name, existing or new, takes the point's time and the value as last and close; nothing else of the point changes |
| Indicators.Price | Core/Indicators/MovingAverageIndicator.cs:53-59 | Bid selects the bid, Ask the ask, and Close the bar's close |
| Indicators.MovingAverageWarmup | Core/Indicators/MovingAverageIndicator.cs:81-85 | before a full window is stored the output is the raw price |
| Indicators.MovingAverageBetween | Core/Indicators/MovingAverageIndicator.cs:81-85 | the output stays within any bounds that hold the raw price and the window of stored closes |
| Indicators.MovingAverage.constructor | Core/Indicators/MovingAverageIndicator.cs:44-91 | a new indicator stores nothing and has no last value |
| Indicators.MovingAverage.Calculate | Core/Indicators/MovingAverageIndicator.cs:44-91 | nothing changes for an empty collection; otherwise the selected price is stored at the last bar and the weighted average of the stored closes, or the price when that is 0, becomes the series entry and the indicator's last value |
| Indicators.Gains | Core/Indicators/RelativeStrengthIndicator.cs:43-53 | one non-negative gain per move, at least the move |
| Indicators.Losses | Core/Indicators/RelativeStrengthIndicator.cs:43-53 | one non-negative loss per move, at least the move's opposite |
| Indicators.MoveSplits | Core/Indicators/RelativeStrengthIndicator.cs:43-53 | each move's gain less its loss is the move, and at most one of them is non-zero |
| Indicators.Strength | Core/Indicators/RelativeStrengthIndicator.cs:55-58 | the relative strength lies in [0, 100) |
| Indicators.StrengthCases | Core/Indicators/RelativeStrengthIndicator.cs:55-58 | 50 without average loss, 0 with loss and no gain, above 50 when gains outweigh losses and below 50 when they do not |
| Indicators.RelativeStrengthValue | Core/Indicators/RelativeStrengthIndicator.cs:31-58 | the value computed from the last moves lies in [0, 100) |
| Indicators.Moves | Core/Indicators/RelativeStrengthIndicator.cs:43-53 | the loop collects exactly the gains and the losses of the last interval moves |
| Indicators.RelativeStrengthOf | Core/Indicators/RelativeStrengthIndicator.cs:43-58 | the imperative computation gives the relative strength value |
| Indicators.RelativeStrength.constructor | Core/Indicators/RelativeStrengthIndicator.cs:31-88 | a new indicator stores nothing and has no last value |
| Indicators.RelativeStrength.Calculate | Core/Indicators/RelativeStrengthIndicator.cs:31-88 | nothing changes for an empty collection; otherwise the relative strength is stored at the last bar and becomes its series entry and the indicator's last value |
| Indicators.TrueRange | Core/Indicators/AverageTrueRangeIndicator.cs:39-41 | the true range covers the bar's range and both gaps to the previous close, and for a well-formed bar is the largest of them |
| Indicators.AverageTrueRangeBetween | Core/Indicators/AverageTrueRangeIndicator.cs:54-57 | while the window fills the output is the true range; afterwards it lies between the last stored value and the true range |
| Indicators.AverageTrueRangeNonnegative | Core/Indicators/AverageTrueRangeIndicator.cs:39-66 | with well-formed bars the stored values stay non-negative |
| Indicators.AverageTrueRange.constructor | Core/Indicators/AverageTrueRangeIndicator.cs:29-76 | a new indicator stores nothing and has no last value |
| Indicators.AverageTrueRange.Calculate | Core/Indicators/AverageTrueRangeIndicator.cs:29-76 | nothing changes with fewer than two bars; otherwise the smoothed true range is stored at the last bar and becomes its series entry and the indicator's last value |
| Indicators.ImbalanceSides | Core/Indicators/ImbalanceIndicator.cs:37-44 | the two-sided imbalance is the ask side less the bid side, positive exactly when asks outweigh bids and negative exactly when bids do |
| Indicators.ImbalanceOther | Core/Indicators/ImbalanceIndicator.cs:39-44 | any other direction gives 0 |
| Indicators.Framed | Core/Indicators/ImbalanceIndicator.cs:32-49 | the point's series entry is replaced by the raw value and nothing else changes |
| Indicators.Imbalance.constructor | Core/Indicators/ImbalanceIndicator.cs:23-74 | a new indicator stores nothing and has no last value |
| Indicators.Imbalance.Calculate | Core/Indicators/ImbalanceIndicator.cs:23-74 | nothing changes for an empty collection; otherwise the imbalance of the last quote is its series entry, is stored at the last bar and is the indicator's last value |
| Indicators.Lower | Core/Indicators/ScaleIndicator.cs:59-62 | the running minimum is at most the new value and the old bound, and is one of them |
| Indicators.Upper | Core/Indicators/ScaleIndicator.cs:59-62 | the running maximum is at least the new value and the old bound, and is one of them |
| Indicators.ScaleBetween | Core/Indicators/ScaleIndicator.cs:64 | a value within the range scales into [Min, Max], the ends going to Min and Max, and a range of one value gives 0 |
| Indicators.ScaleAsConvex | Core/Indicators/ScaleIndicator.cs:64 | scaling moves from Min towards Max by the value's share of the range |
| Indicators.Scale.constructor | Core/Indicators/ScaleIndicator.cs:50-94 | a new indicator stores nothing and has no range or last value |
| Indicators.Scale.Calculate | Core/Indicators/ScaleIndicator.cs:50-94 | nothing changes for an empty collection; otherwise the close widens the range, its scaled value is stored at the last bar, and the weighted average of the stored values, which stays within the scale, becomes the series entry and the last value |
| Indicators.InScaleStored | Core/Indicators/ScaleIndicator.cs:77-84 | storing a scaled value keeps every stored value within the scale |
| Indicators.InScaleAverage | Core/Indicators/ScaleIndicator.cs:86-91 | the weighted average of values within the scale is within the scale |
| BrokerMaps.OandaOrderType | Gateway/Oanda/Maps/OrderTypeMap.cs:7-25 | the three market spellings give Market, TAKE_PROFIT and LIMIT give Limit, the four stop spellings give Stop, and every other string gives null |
| BrokerMaps.OandaOrderStatus | Gateway/Oanda/Maps/OrderStatusMap.cs:7-18 | FILLED, PENDING, CANCELLED and TRIGGERED give Filled, Placed, Cancelled and Completed, and every other string gives null |
| BrokerMaps.OandaDealStatus | Gateway/Oanda/Maps/DealStatusMap.cs:7-16 | OPEN gives Filled, CLOSED gives Closed, and every other string gives null |
| BrokerMaps.TradierDealStatus | Gateway/Tradier/Maps/DealStatusMap.cs:7-16 | OPEN gives Filled, CLOSED gives Closed, and every other string gives null |
| BrokerMaps.CaseSensitive | Gateway/Oanda/Maps/OrderTypeMap.cs:9-24 | the switches compare exactly, so lower-case spellings are not recognised |
| BrokerMaps.OrderStatusInjective | Gateway/Oanda/Maps/OrderStatusMap.cs:11-14 | different recognised order states map to different engine statuses |
| BrokerMaps.OrderTypeRange | Gateway/Oanda/Maps/OrderTypeMap.cs:11-21 | no broker order type maps to StopLimit |
| BrokerMaps.DealStatusRange | Gateway/Oanda/Maps/DealStatusMap.cs:11-12 | a deal is never reported as Placed or Cancelled |
| BrokerMaps.DealMapsAgree | Gateway/Tradier/Maps/DealStatusMap.cs:7-16 | the Tradier and Oanda deal maps agree on every string |
| BrokerMaps.OpenDealIsFilledOrder | Gateway/Oanda/Maps/DealStatusMap.cs:11 | an open deal reads as the status a FILLED order reads as |

## Left out

- Floating point. Prices and sizes are `real`, so rounding, NaN and infinities are not modelled. Divisions the source performs by a possibly-zero double are either guarded by a requires that names the source's own failure or taken as null.
- Integer widths. The 32-bit counters of `SeriesMetrics`, the collection indices and the tick arithmetic are unbounded. Only `Encode` models 64-bit wrap-around.
- `ConversionManager.Compare` and `ConversionManager.Cut` are not part of this model. `Compare` is read as exact equality (a difference below `double.Epsilon`) and `Cut` as `Round`.
- Concurrency and Rx plumbing. The replay timer, subscriptions and disposables are not modelled, nor are `Disconnect`, `Unsubscribe` and `Dispose`. The timer is the `running` flag that `GeneratePoints` clears. The `PointGroups` item-stream subscriber (`ProcessPendingOrders`) is called directly after each stored quote.
- File reading. Each `StreamReader` is a sequence of lines with a cursor. `Evaluate` (line to quote) is a parameter: a line is either blank or a parsed quote.
- The order message stream that dispatches to `CreateOrders`, `UpdateOrders` and `CancelOrders` is not modelled. The methods are called directly.
- Aliasing between account collections. Orders and positions are values in arenas, referred to by handle. Changing an object through one list and reading it through another is modelled only through the handles. `IndexCollection.Mutate` stands for a caller changing a stored element in place, which publishes nothing. Collection messages carry a snapshot of the list or dictionary (`Some(items)`). The source publishes its live `_items` reference (`Next = _items`, for example at Core/Collections/NameCollection.cs:184 and Core/Collections/IndexCollection.cs:154), so a subscriber that keeps the message sees later changes.
- Simulation.GatewayClient.UpdateOrders: requires that the amended legs still form an acyclic hierarchy (the caller supplies its ranking). The source accepts any legs, and a cycle would make its later recursive cancel run forever.
- Simulation.GatewayClient.Register: stands for a caller constructing an order object. Its legs must already be orders of the gateway. The source has no such step.
- SimulationSpec.Process: an active order that names no instrument, or one the account does not hold, has no bar (`SimulationSpec.OrderBar`), so the pass skips it and goes on to the next order. The source reads `order.Instrument.PointGroups` on a null instrument (Gateway/Simulation/GatewayClient.cs:490), which throws and ends the pass and the `UpdatePoints` call that runs it. Such an order can be active in the model. `Simulation.GatewayClient.Register` accepts an order without an instrument. `UpdateOrders` installs legs without validating them (line 254), and the bracket loop then makes those legs active (lines 306-311).
- Simulation.GatewayClient.ProcessPendingOrders: follows `SimulationSpec.Process`, so it skips an active order without an instrument where the source throws. `SimulationSpec.Executable` is false for such an order.
- Calculation.SimpleAverage, ExponentialAverage, SmoothAverage, LinearWeightAverage: each requires the index it reads to lie inside the collection. For `SimpleAverage`, `SmoothAverage` and `LinearWeightAverage` (and `SimpleAverageOf`, `SmoothAverageOf`, `LinearWeightAverageOf`) that is `index < |collection|` once a full window is reached. For `ExponentialAverage` it is `0 <= index < |collection|` for a positive interval. Outside these bounds `ElementAt` throws `ArgumentOutOfRangeException` in the source (Core/Managers/CalculationManager.cs:24, 48, 72, 80, 105), and the model does not represent that exception.
- TimeSpanCollections.TimeSpanCollection.Add: requires `Addable`, which excludes each input on which the source throws:
  - a null span: `span.Value` (Core/Collections/TimeSpanCollection.cs:37);
  - a null time: `currentTime.Value` (line 38);
  - a zero span: `Cut` divides by it;
  - a time less than one span after `DateTime.MinValue`: `item.Time - span.Value` (line 37);
  - a two-sided tick whose frame already holds a bar without a low and a high: `UpdateGroup` changes that bar and then throws on `Bar.Low.Value` (line 126). This case is reachable, because a tick with neither quote opens its frame's bar as it is (lines 61-63). `TimeSpanCollections.QuotelessBarBlocksMerge` exhibits it.

  The model does not represent these exceptions, nor the partly updated bar that the last one leaves behind.
- Simulation.GatewayClient.constructor: `Connect` (Gateway/Simulation/GatewayClient.cs:53-96) clears only the readers and the point buffer, and keeps whatever orders and positions the account already holds. The model always starts from an account without orders, active orders, positions or active positions.
- NameCollections.NameCollection.Remove: values cannot be null in the model. The source also returns false, removing nothing, when the key is present but its value is null (Core/Collections/NameCollection.cs:168-173), and the model does not have that path.
- Position estimates. The getters `GainLossEstimate` and `GainLossPointsEstimate` are evaluated only where the engine reads them. Evaluations by the user interface, which also record extremes, are not modelled. `GainLossAverageEstimate` and `GainLossPointsAverageEstimate`, which call each other's helper, are not modelled.
- SimulationSpec.AveragePriceBetween: states the bound only for lots of positive size. `AveragePrice` gives null when the sizes add up to 0, where the source divides by zero.
- Indicators.MovingAverage.Calculate: requires that the price the mode selects is present. The source reads it as `double?` and throws only once a full window uses it.
- Indicators.RelativeStrength.Calculate: requires every bar it reads to have a close. The source throws on `Close.Value` otherwise. For a non-empty collection it also requires a non-negative interval, because `new List<double>(Interval)` throws on a negative capacity.
- Indicators.AverageTrueRange.Calculate: requires a non-zero interval and a stored value once more values than the interval are stored, and a high, a low and a previous close. The source otherwise divides by zero or dereferences null.
- Indicators.Imbalance.Calculate: requires the sizes its direction reads. The source throws on `.Value` otherwise.
- The indicator `Calculate` methods require the collection to be at most one longer than `Values`, as the `IndexCollection` indexer throws out of range otherwise. A point whose `Series` is null is not modelled (the scale indicator returns early on it). `ChartData` and the indicators' own message streams are not modelled.
- `MovingAverageEnum` has no member 0. A mode left at its default value behaves as `Close`, and the model's three-valued mode does not represent it.
- TimeSpanCollections.OneSecondFrames: the repository's test (Evaluation/Collections/TimeSpanCollectionTests.cs:60-76) also asserts opens and closes that the code as written does not produce. Bar 0 closes at its bid 0, not at the asserted ask -1 (line 72). Bar 1 opens and closes at bar 0's last price 0, not at the asserted ask 5.55 (lines 65 and 73). The lemma states the values the code gives. `TimeSpanCollections.TwoSecondFrames` checks only times, lows and highs.
- NameCollections.NameCollection.Put: the enumeration order is insertion order with removed keys dropped. A .NET `Dictionary` reuses the slot a removed key frees, so after adding A, B and C, removing B and adding D it enumerates A, D, C, and its last value is C, not D. The model therefore does not capture the `Previous` value that `Put` publishes after a removal, or the order of `Instruments.Keys.ElementAt` in the simulated gateway (Gateway/Simulation/GatewayClient.cs:189) once an instrument has been removed.
- Conversion.Upper: maps only `a`..`z` to `A`..`Z`. `char.ToUpper` follows Unicode and the current culture: for example, it maps `ſ` to `S`, and under a Turkish culture it maps `i` to `İ`.
- Conversion.Encode: inherits the ASCII-only upper-casing of `Conversion.Upper`. Under .NET the text `ſ` encodes to 19, and under a Turkish culture `i` has no letter value and makes `Encode` throw. The model rejects `ſ` and accepts `i`.
- GatewayModels.EnsureOrderProps: an order or leg without an instrument makes the source throw. FluentValidation refuses to validate a null instance (Core/Models/GatewayModel.cs:92), and the price rules dereference it. The model reports such an order as a validation failure instead.
- GatewayModels.Resolve: the source validates the instrument object an order holds. The model holds instruments once, in the account, and an order names its instrument. An order whose instrument is not one of the account's reads as having none.
- Transactions.AcceptedMeans: for a stop or limit order with a price, on an instrument that has no bars yet, the source throws in `PointGroups.Last()` (Core/Models/Transactions/TransactionOrderModel.cs:103-106). The model rejects that order instead, through `Transactions.OrderAccepted`.
- Order side and kind. The simulated gateway reads an order's side as `OrderSideEnum` and compares its `Type` with `OrderTypeEnum` members (Gateway/Simulation/GatewayClient.cs:212-221, 362-363, 413-414, 468, 495). The order model carries only a `TransactionTypeEnum`, and `OrderSideEnum` and `OrderTypeEnum` are not part of this model. `Transactions.SideOf` and `Transactions.KindOf` derive both from the transaction type's value: Buy, BuyStop, BuyLimit and BuyStopLimit buy; Sell, SellStop and SellLimit sell; 1-2 are Market, 3-4 are Stop, 5-6 are Limit and 7 is StopLimit. `SellStopLimit` shares the value 6 with `SellLimit`, so it is a sell limit.
- Network gateways (Alpaca and Oanda clients, remote services) and the user interface are I/O. The only parts of them modelled are the broker maps and the Alpaca mapping from order kind and side to transaction type (`Transactions.TypeFor`).
- The random quote generator (`GatewayClientGenerator`) depends on `Random` and `DateTime.Now` and is not modelled.
- Score ratios built on powers, roots, logarithms or statistics libraries are not modelled: Sharpe, Sortino, Martin, Sterling, Kestner, CAGR, MAR, GHPR, StandardScore, RegressionCorrelation and Metrics.
- AHPR and EdgeRatio are not modelled because they divide by possibly-zero balances or counts. FrameMetrics is not modelled because it never stores its groups.
- `PerformanceIndicator` is not modelled: it is a sum over live account state through the swapped average estimates.
- Oanda `OrderTimeSpanMap` is not modelled: it names enum members that `OrderTimeSpanEnum` does not have.
- Logging, caching, scheduling and singletons are not modelled. Validation failures are reported through the returned boolean instead of the log.
