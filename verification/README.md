# Verification of the order lifecycle and the risk books

This project models the trading core of the repository in Dafny and proves properties of it:

- **The order pipeline** (`Pipeline*`, `Confluence`, `Orders`, `Crossing*`, `CrossPrices`, `MatchingEngine`). Intake, risk
  workers, router, one dispatcher and one fill collector per venue, and the venues themselves run as a step machine whose
  actions interleave freely. `PipelineCore` says what each stage does to orders, rows, positions and channels,
  `PipelineLedger` what each stage keeps, `PipelineMachine` composes the stages into runs, `PipelineSafety` proves what
  holds over every run, `Confluence` that the collectors may interleave in any order, and `PipelineResidual` and
  `ResidualChildren` what becomes of an order that crosses internally. `Continuations` says what can still happen from a
  state, `Unserved` what cannot, `SplitExecution` what an order and its child orders fill together, and `WiredRouter` and
  `NamedVenues` what holds with the router the gateway wires; `SplitExamples` has example runs. Over every run,
  `RiskDecisions` says which orders may trade, `OrderOrigins` where orders come from, `OrderLifecycle` how they move on,
  `Placement` which venue they are submitted to, `QueueOrder` in which order, `VenueFills` which prices the fills of a
  simulated venue come from, and `PositionBooks` what the position rows are. The class in `Pipeline` works on shared,
  mutable order objects as the program does, and each of its methods is proved to do what the stage function says.
- **Money arithmetic** (`Decimals`, `OrderVwap`, `Positions`, `PositionPnl`, `PositionBasis`, `Splitter`, `SplitShares`,
  `Ranking`, `VenueRanking`, `BestVenue`).
- **The risk engine** (`Portfolio`, `PortfolioLedger`, `RiskGate`, `RiskGateSafety`, `RiskGateInFlight`, `GateAmounts`,
  `FillConsumer`, `BooksAgree`). Approval and fill are separate steps in `RiskGateInFlight`, so that orders are checked
  while approved ones are on their way.
- **Bars and charts** (`Aggregator`, `OhlcBars`, `CompletedBars`, `BarGranularity`, `ChartStore`).
- **Credentials and settlement dates** (`Credentials`, `CredentialNonces`, `BusinessDays`, `Settlement`, `SettlementBook`).

`Routing`, `Wrappers` and `Totals` hold what several of these share.

Conventions. Decimals are reals; addition, subtraction and multiplication are exact, and a division is rounded half away
from zero to a grid `g`. A grid of 0 means exact division. The decimal library's default is a grid of 10^-16. Answers of the
outside world (risk engine, router, venues, prices, clocks, random bytes, store failures of the credential store) are
parameters, so every statement holds for all of them. Objects that the program changes in place are classes; a pure function
on snapshots specifies each method, and the properties are proved of these functions.

What the proofs found out about the code:

- The gate reserves nothing when it approves: it compares each buy with all available cash, and orders fill later. Five
  limit buys of 25 approved one after the other overdraw a capital of 100 (`RiskGateInFlight.FiveBuysInFlightOverdraw`). It
  does not see every order either: the gateway fails open when the call fails, and child orders are never checked
  (`RiskGateInFlight.UncheckedBuyOverdraws`). From any book and over every run, cash stays non-negative under all ways of
  filling what is pending exactly when it does at the start and each buy, at the moment it went on, fitted in available
  cash, at the worst price it may get, together with what the pending buys may still cost
  (`RiskGateInFlight.RunsKeepCashExactlyWhenBuysHaveRoom`). For the share limit the like is proved per instrument, over runs
  in which each instrument keeps one price (`RiskGateInFlight.RunsKeepSharesExactlyWhenBuysHaveRoom`).
- A market buy is checked at the price it carries, if any; else at the last mark of what is held, which moves only on fills;
  else with its quantity in place of its cost. The venue fills it at its own price. Each can overdraw the account
  (`RiskGateSafety.PricedMarketBuyOverdraws`, `RiskGateSafety.SlippedMarketBuyOverdraws`,
  `RiskGateSafety.UnpricedBuyCanOverdraw`). On the book it was checked against, an approval covers every fill its own order
  can get exactly for limit orders whose cash check ran in time, or whose cost fits in cash without it
  (`RiskGateSafety.OwnFillIsCoveredExactlyWhenLimited`).
- With rounded division the splitter can allocate more than the order (`Splitter.RoundedSplitCanOverAllocate`); it conserves
  exactly when the lots placed do not exceed the order.
- The projected book of the value-at-risk check drops a holding that is oversold, while the fill itself would be refused
  (`RiskGateSafety.ProjectionIsTheFilledBook`, `RiskGateSafety.OversellIsProjectedFlat`).
- The gateway and the risk engine agree exactly on streams that never oversell (`BooksAgree.BooksAgreeExactlyWhenLongOnly`,
  `BooksAgree.FirstSellDiverges`).
- With authentic encryption, a rotation that stops after its first venue leaves the manager with a passphrase that no longer
  opens the venues done (`Credentials.SecondStoreFails`); the manager can still read everything exactly when every venue
  could be re-encrypted and stored, there was none, or the first one could not (`Credentials.ManagerStillReadsExactlyWhen`).
- The comment at `gateway/internal/pipeline/pipeline.go:418` promises external routing of what a cross leaves over. The
  order then has a fill, and line 612 refuses to acknowledge it again, so the order itself never reaches a venue
  (`PipelineResidual.CrossedOrdersAreNeverSubmitted`). Only child orders can (lines 466-514), of the router's quantities,
  and they can exactly when the router answers with other than one allocation and one of them names a connected venue with a
  channel (`ResidualChildren.ResidualReachesAVenueExactlyBySplitting`, with a run for each side in `SplitExamples`). The
  router that the gateway wires never answers so, and nothing of a crossed order reaches a venue with it
  (`WiredRouter.WiredResidualStaysInside`).
- Candidates and children are sized by the whole quantity of an order (lines 552-590), whatever of it has crossed, so an
  order and its children can fill more than was ordered (`SplitExamples.SplitResidualOverfills`). They never do exactly when
  what goes to connected venues that can fill it fits in what the order has left
  (`SplitExecution.NeverOverfilledExactlyWhenSplitFits`).
- Two market orders cross internally at a price of zero (`gateway/internal/crossing/engine.go:149-160`); with positive
  limits a cross has a positive price exactly when one of the orders has a limit
  (`CrossPrices.CrossIsPricedExactlyWithALimit`).
- The stub candidates all tie, so an order that names no venue goes to the first venue of the list, whatever its side and
  price (`NamedVenues.UnnamedGoesToTheFirst`).
- The settlement tracker goes by asset class and the book by the label of the fill, which is T2 when there is none. They
  hold the same unsettled cash exactly when the two groups of fills bring in the same
  (`SettlementBook.TrackerHoldsUnsettledCash`); a crypto fill without a label is a case where they do not
  (`SettlementBook.UnlabelledCryptoIsNotTracked`).
- The best-price strategy allocates the ordered quantity exactly when the depth of the best venue suffices or all depths
  together happen to be that quantity (`BestVenue.BestPriceConservesExactlyWhen`).

`dafny verify dfyconfig.toml` checks the project.

## Model

| member | source | states |
|---|---|---|
| PipelineSafety.PositionsAccountForOrders | gateway/internal/pipeline/pipeline.go:364-769 | in every state any run can reach, per instrument the positions over all venues (INTERNAL included) sum to the signed filled quantities of all orders, no order holds more than its quantity or anything but the sum of its fills, and rows and order map mirror memory |
| PipelineSafety.SubmittedAtMostOnce | gateway/internal/pipeline/pipeline.go:597-654 | over every run no order ID reaches a venue twice, and each is Acknowledged with no fill when it does |
| PositionBooks.EveryPositionReplaysItsTrades | gateway/internal/pipeline/pipeline.go:674-749 | over every run a position row exists for an instrument at a venue exactly when a trade was booked there, and it is the replay of those trades in order: the fills collected from that venue, and for INTERNAL the crosses |
| PositionBooks.StoredPositionsSayWhatWasTraded | gateway/internal/pipeline/pipeline.go:674-749 | over every run with exact division each stored row gives the net quantity, the average cost of the lots still held, the cash flow plus the cost of those lots as realized profit, and unrealized profit at the price of the first trade |
| PositionBooks.PricingOnlyMarks | gateway/internal/pipeline/pricer.go:31-55 | however bookings and single market prices interleave, a row is the replay of its trades marked at the last price other than zero since the first trade |
| OrderLifecycle.OrdersOnlyAdvance | gateway/internal/pipeline/pipeline.go:189-769 | from every reachable state an order never goes back: ticket and fills stay, its status moves from New by Acknowledged and PartiallyFilled to an end, and from then on nothing of it changes |
| OrderLifecycle.VenueRefusalIsFinal | gateway/internal/pipeline/pipeline.go:632-645 | an order whose SubmitOrder call fails stays rejected and unfilled in every continuation, whatever the venue reports for it later |
| OrderLifecycle.FullyCrossedIsDone | gateway/internal/pipeline/pipeline.go:377-416 | an order that crosses in full is filled at INTERNAL, is queued nowhere, has no children and stays exactly so in every continuation |
| OrderOrigins.OrdersHaveEnteredTerms | gateway/internal/pipeline/pipeline.go:189-220 | over every run the instruments, sides, types, prices and asset classes of the orders, children included, are exactly those of the valid submissions |
| OrderOrigins.EveryOrderIsValid | gateway/internal/pipeline/pipeline.go:189-220 | over every run every order, children included, has a positive quantity and an instrument |
| RiskDecisions.RefusedStaysOut | gateway/internal/pipeline/pipeline.go:223-271 | over every run an order that the risk engine refused, or that it could not be asked about while the pipeline fails closed, stays rejected: it is in no SubmitOrder call, has not crossed, has no fill, waits nowhere, and is never routed again and so has no children |
| RiskDecisions.WhateverIsInMarketWasLetThrough | gateway/internal/pipeline/pipeline.go:223-271 | over every run each order that waits for the router, was submitted or has a fill, other than a child, was let through by an approval, or by an unavailable risk engine while the pipeline fails open |
| Placement.LegacyCallsGoToTheChosenVenue | gateway/internal/pipeline/pipeline.go:274-358 | over every run in which no router answers, because there is none or it always fails, each SubmitOrder call goes to alpaca for equities and binance_testnet for crypto if registered, else to sim-exchange if registered, else to a registered venue |
| Placement.NoVenueNoOrder | gateway/internal/pipeline/pipeline.go:331-342 | without registered venues an order that is routed and does not cross is rejected |
| Placement.RoutedAsAllocated | gateway/internal/pipeline/pipeline.go:453-549 | an order that does not cross and for which the router names one venue carries it: rejected if that venue is not connected, else last in its queue and still New, or nowhere if it has no channel; no other order or queue changes |
| Placement.RoutedAsChosen | gateway/internal/pipeline/pipeline.go:274-358 | the same for an order for which no router answers, at the venue chosen by asset class |
| PipelineSafety.SimulatedVenueFillsOnce | gateway/internal/adapter/simulated/matching_engine.go:91-208 | over every run a simulated venue emits at most one fill per order, of its full quantity; a collected fill is the order's only one, and one still in the channel will be accepted |
| QueueOrder.FirstQueuedFirstSubmitted | gateway/internal/pipeline/pipeline.go:520-654 | from every reachable state, of two New orders in the queue of a venue the one behind is submitted in no continuation before the one in front has been submitted to that venue |
| PipelineResidual.CrossedOrdersAreNeverSubmitted | gateway/internal/pipeline/pipeline.go:364-654 | over every run an order that crossed internally, in part or in full, is never submitted to a venue |
| ResidualChildren.ResidualReachesAVenueExactlyBySplitting | gateway/internal/pipeline/pipeline.go:418-549 | from every reachable state in which an order crosses in part: some continuation submits a child order, of a quantity the router chose, exactly when the router answers with other than one allocation and one names a connected venue with a channel; the order itself is submitted in none |
| SplitExamples.SplitResidualIsSubmitted | gateway/internal/pipeline/pipeline.go:466-514 | a run in which an order of 10 crosses 4, the router answers with an even split of the whole quantity over two venues, and a child can reach a venue |
| SplitExamples.WholeResidualIsNot | gateway/internal/pipeline/pipeline.go:447-464 | the same run with the whole quantity to one venue: no continuation submits anything for it |
| SplitExecution.NeverOverfilledExactlyWhenSplitFits | gateway/internal/pipeline/pipeline.go:466-514 | over every run: after an order is split, crossed in part or whole, no continuation fills more of it and its children together than was ordered exactly when what goes to connected venues that can fill it fits in what the order has left; an external venue can fill any order, a simulated one market and limit orders in the instruments it lists |
| Unserved.IgnoredForever | gateway/internal/adapter/simulated/matching_engine.go:91-145 | a stop-limit order, or one in an instrument that is not listed, is filled by a simulated venue in no continuation |
| SplitExecution.ChildrenFitExactlyWhenAllocationsDo | gateway/internal/pipeline/pipeline.go:574-590 | the children of a split ask together for no more than the order has left exactly when the allocations add up to no more than that |
| SplitExamples.SplitResidualOverfills | gateway/internal/pipeline/pipeline.go:552-590 | in the run of the even split the order of 10 and its children can fill 14 |
| Continuations.CanComplete | gateway/internal/pipeline/pipeline.go:602-769 | from every state with the invariant, an order waiting for, held for or given to a venue that can fill it can be filled completely, and no other such order loses by it |
| WiredRouter.WiredAnswersWithOneVenue | gateway/internal/pipeline/pipeline.go:552-571 | with candidates that claim depth for the whole order, the best-price and the preferred-venue strategies answer with one venue for the whole order |
| WiredRouter.WiredResidualStaysInside | gateway/cmd/gateway/main.go:298-312 | with the router the gateway wires, what a cross leaves of an order reaches no venue in any continuation: the order is never submitted and has no children |
| WiredRouter.WiredVenuesGetWholeOrders | gateway/cmd/gateway/main.go:298-312 | over every run with that router, each SubmitOrder call is for an order as it was submitted, whole and never crossed, and there are no other orders |
| NamedVenues.NamedVenueIsHonoured | gateway/internal/router/strategy_venue_pref.go:29-55 | over every run with that router an order whose client names a registered venue is submitted to that venue or to none |
| NamedVenues.UnnamedGoesToTheFirst | gateway/internal/pipeline/pipeline.go:552-571 | the candidates all tie, so any other order goes to the first venue of the list, whatever its side and price |
| PipelineSafety.Reachable | gateway/internal/pipeline/pipeline.go:157-180 | the conjunction behind these results (ownership of orders by venues, hands, books, channels) holds after every run of enabled actions |
| PipelineSafety.StepKeepsInv | gateway/internal/pipeline/pipeline.go:189-769 | every action of every goroutine keeps that invariant |
| PipelineSafety.SubmitOrderKeepsInv | gateway/internal/pipeline/pipeline.go:608-640 | calling SubmitOrder on an acknowledged order keeps it, whether the venue accepts, fills at once or refuses |
| PipelineSafety.CollectKeepsInv | gateway/internal/pipeline/pipeline.go:658-769 | collecting one fill keeps it: the fill meets the untouched order it was made for |
| PipelineSafety.EngineStepKeepsInv | gateway/internal/adapter/simulated/matching_engine.go:169-283 | sweeps and withdrawals of a simulated venue keep it |
| Confluence.CollectorsConfluent | gateway/internal/pipeline/pipeline.go:658-769 | from every reachable state, two schedules that give each fill collector the same number of turns end in the same state |
| Confluence.TurnsCommute | gateway/internal/pipeline/pipeline.go:658-769 | the turns of two collectors commute wherever the invariant holds |
| Confluence.FillsCommute | gateway/internal/pipeline/pipeline.go:674-769 | two fills of orders with different position keys commute, although both write orders, rows, positions and the order map |
| Confluence.SchedulesAgree | gateway/internal/pipeline/pipeline.go:658-671 | for any commuting steps that keep an invariant, permuted schedules agree |
| PipelineLedger.ProcessedKeeps | gateway/internal/pipeline/pipeline.go:674-769 | processing any positive fill, accepted or refused, keeps conservation, soundness, mirroring and queueing, and changes no other order |
| PipelineLedger.CrossedInternallyKeeps | gateway/internal/pipeline/pipeline.go:377-410 | the crossing reset and re-application keeps them too |
| PipelineLedger.RoutedKeeps | gateway/internal/pipeline/pipeline.go:331-515 | routing one order (crossing, fallback, single venue or children) keeps them and touches only that order and new ones |
| PipelineLedger.SplitKeeps | gateway/internal/pipeline/pipeline.go:466-514 | so does creating and dispatching any number of child orders |
| PipelineLedger.TakenKeeps | gateway/internal/pipeline/pipeline.go:609-630 | so does a dispatcher taking an order, and a refused acknowledgement changes nothing but the channel |
| PipelineLedger.DecideKeeps | gateway/internal/pipeline/pipeline.go:223-271 | so does a risk decision on any order waiting in the intake |
| PipelineLedger.SubmitKeeps | gateway/internal/pipeline/pipeline.go:189-220 | so does a submission, refused ones included |
| Pipeline.Pipeline.Submit | gateway/internal/pipeline/pipeline.go:189-220 | validation, persistence, order map and intake change exactly as the stage function says |
| Pipeline.Pipeline.RiskCheck | gateway/internal/pipeline/pipeline.go:223-271 | approve, reject or fail open, over shared order objects |
| Pipeline.Pipeline.RouteLegacy | gateway/internal/pipeline/pipeline.go:331-358 | venue choice by asset class, persisted before dispatch; rejection without a venue |
| Pipeline.Pipeline.RouteSmart | gateway/internal/pipeline/pipeline.go:364-515 | crossing, then the smart router for what is left, over the objects shared with the crossing book |
| Pipeline.Pipeline.Route | gateway/internal/pipeline/pipeline.go:308-328 | the router's choice between the two for the next approved order |
| Pipeline.Pipeline.CrossInternally | gateway/internal/pipeline/pipeline.go:369-410 | a cross resets the in-place fill, acknowledges for INTERNAL and books the order's own fill through ProcessFill |
| Pipeline.Pipeline.DispatchChildren | gateway/internal/pipeline/pipeline.go:466-514 | one fresh child order per allocation, each persisted and dispatched |
| Pipeline.Pipeline.DispatchToVenue | gateway/internal/pipeline/pipeline.go:520-549 | rejected when the venue is not connected, dropped when it has no channel, else queued last |
| Pipeline.Pipeline.TakeAndAcknowledge | gateway/internal/pipeline/pipeline.go:602-630 | the New to Acknowledged guard decides whether a dequeued order goes on |
| Pipeline.Pipeline.ProcessFill | gateway/internal/pipeline/pipeline.go:674-769 | an unknown or refused fill changes nothing; an accepted one changes its order, row, position and order map as specified |
| Orders.Order.ApplyTransition | gateway/internal/domain/order.go:114-130 | the new status only along the transition table, else an error and no change |
| Orders.Order.ApplyFill | gateway/internal/domain/order.go:134-166 | refused unless fillable and within the remainder; else quantity, VWAP with one rounded division, fill list and status |
| OrderVwap.RunKeeps | gateway/internal/domain/order.go:134-166 | any number of attempted fills, refused ones in between, leave filled equal to the sum of the accepted fills and within the order, and the average within its rounding allowance |
| OrderVwap.FillKeepsSound | gateway/internal/domain/order.go:134-166 | a fill keeps filled = sum of fills and at most the quantity, and Filled exactly when complete |
| OrderVwap.VwapWithinRounding | gateway/internal/domain/order.go:141-155 | after n accepted fills the average differs from the exact VWAP by at most (n - 1) half grid steps |
| OrderVwap.VwapExact | gateway/internal/domain/order.go:141-155 | with exact division it is the VWAP |
| OrderVwap.VwapBetweenFillPrices | gateway/internal/domain/order.go:141-155 | rounding included, it stays between the lowest and highest fill price when these lie on the grid |
| Positions.Position.ApplyFill | gateway/internal/domain/position.go:29-69 | increase, reduce, flip or reopen; non-positive fills refused |
| Positions.Position.UpdateMarketPrice | gateway/internal/domain/position.go:74-78 | marking for either sign of the holding |
| PositionPnl.AccountMatchesCash | gateway/internal/domain/position.go:29-69 | for every history of positive trades, through shorts, flips and reopenings, realized profit less cost basis is the net cash flow up to half a step per unit of volume |
| PositionPnl.AccountIsCash | gateway/internal/domain/position.go:29-69 | exactly, with exact division |
| PositionPnl.ProfitIsCashPlusValue | gateway/internal/domain/position.go:29-78 | realized plus unrealized profit at any mark is cash flow plus marked value |
| PositionPnl.ProfitIgnoresOrder | gateway/internal/domain/position.go:29-78 | and so does not depend on the order of the fills |
| PositionPnl.SlackBound | gateway/internal/domain/position.go:44-50 | the rounding allowance is at most half a step per trade and unit of volume |
| PositionBasis.MirrorNegates | gateway/internal/domain/position.go:29-69 | for every history and any rounding: swapping the side of every trade negates holding and realized profit and leaves the average cost as it is |
| PositionBasis.TradeAddsOrRealizes | gateway/internal/domain/position.go:29-69 | in every history and with any rounding each trade either goes the way of the holding, long or short, and realizes nothing, or leaves the average cost alone and realizes its quantity at its price against that cost, flips included |
| PositionBasis.CostAndProfitAreOfLots | gateway/internal/domain/position.go:29-69 | for every history with exact division the average cost is the average price of the lots still held, and realized profit the net cash flow plus what they cost, with its sign; a trade that adds makes a lot, any other shrinks all lots alike |
| Decimals.NearestInteger | gateway/internal/domain/position.go:49-49 | the rounding of every division takes the nearest integer of grid steps, and of two equally near the one further from zero |
| Splitter.SplitOrder | gateway/internal/router/splitter.go:25-108 | the loops, filters and in-place patch of the residual compute the split function |
| Splitter.SplitConserves | gateway/internal/router/splitter.go:25-108 | allocations add up to exactly the order on every path, with exact division, and with rounded division for whole-lot orders small against the grid |
| Splitter.SplitConservesIff | gateway/internal/router/splitter.go:64-107 | on the split path, for any grid, they do exactly when the lots placed do not already exceed the order |
| Splitter.SplitInLots | gateway/internal/router/splitter.go:64-107 | all but the residual-bearing first allocation are whole positive lots; with exact division the residual is below one lot per venue |
| SplitShares.SplitsExactlyAboveHalf | gateway/internal/router/splitter.go:31-56 | an order is split exactly when there is more than one venue and it is above half of the depth of the best; else the best gets all of it |
| SplitShares.EveryVenueGetsItsShare | gateway/internal/router/splitter.go:66-90 | with exact division every venue gets the whole lots of its share in proportion to its depth, if it reaches a lot, and no other venue anything, before the residual is placed |
| Splitter.RoundedSplitCanOverAllocate | gateway/internal/router/splitter.go:64-107 | for every grid an order a quarter step short of a lot is over-allocated: conservation fails without its condition |
| VenueRanking.Evaluate | gateway/internal/router/strategy_best_price.go:37-111 | error on no candidates; one allocation when the best depth suffices, else all in ranked order, each with the reason for its side |
| VenueRanking.RankingIsStablePermutation | gateway/internal/router/strategy_best_price.go:46-80 | every candidate once, none strictly better behind a worse one, ties in input order |
| Ranking.StableRankingUnique | gateway/internal/router/strategy_best_price.go:46-80 | there is only one stable ranking, so any stable sort yields it |
| Ranking.RankIsStable | gateway/internal/router/strategy_best_price.go:46-80 | the modelled ranking is one |
| VenueRanking.CompareVenuePrices | gateway/internal/router/price_comparator.go:94-190 | both errors, freshness filter, best price, divergence, and order of the result |
| VenueRanking.CollectFresh | gateway/internal/router/price_comparator.go:110-132 | the loop keeps exactly the venues that answer in time, in order |
| VenueRanking.BestPrice | gateway/internal/router/price_comparator.go:138-152 | the loop finds the best price of the side |
| VenueRanking.FreshOnly | gateway/internal/router/price_comparator.go:110-132 | a quote is kept exactly when its venue was asked, answers, and is not stale |
| VenueRanking.BestIsExtreme | gateway/internal/router/price_comparator.go:138-152 | the best price is offered, and none is better |
| VenueRanking.ComparatorRanksByDivergence | gateway/internal/router/price_comparator.go:110-190 | only fresh venues, all of them; divergence zero at the head and never decreasing down the list, rounding included |
| BestVenue.BestPriceAnswers | gateway/internal/router/strategy_best_price.go:37-111 | one candidate is best by price for the side, then latency, fill rate and place; it gets the whole quantity if its depth suffices, else every candidate is answered in that order, each with its depth |
| BestVenue.BestPriceConservesExactlyWhen | gateway/internal/router/strategy_best_price.go:82-111 | the allocated quantities sum to the order exactly when the best depth suffices, or all depths together happen to be the quantity |
| BestVenue.FiguresAreShares | gateway/internal/router/price_comparator.go:147-180 | divergence is the distance from the best price as a share of it, and spread is ask above bid as a share of the middle, in basis points, up to the rounding of one division; zero without a positive base |
| Crossing.CrossingEngine.AddOrder | gateway/internal/crossing/engine.go:36-40 | appends to the book of the instrument and to no other |
| Crossing.CrossingEngine.TryCross | gateway/internal/crossing/engine.go:44-124 | the in-place changes to the incoming order, one resting order and the book are those of the crossing function |
| Crossing.CrossingEngine.FindCandidate | gateway/internal/crossing/engine.go:53-66 | the scan stops at the first opposite order that can cross |
| CrossingRuns.CrossIsFair | gateway/internal/crossing/engine.go:44-160 | earliest eligible opposite order, equal positive quantity up to the smaller remainder, one price inside both limits, everything else untouched, residual exactly when something is left |
| CrossingRuns.MidpointBetween | gateway/internal/crossing/engine.go:127-160 | the price is acceptable to both sides, rounding included, unless both are market orders |
| CrossingRuns.BookHoldsLiveArrivals | gateway/internal/crossing/engine.go:36-124 | over any run each book is exactly the added orders with a positive remainder in arrival order, and internal buys equal internal sells |
| CrossPrices.PrintsArePairs | gateway/internal/crossing/engine.go:44-160 | over every run what is printed is pairs of a buy and a sell of one instrument whose limits meet, of equal quantity at one price: the rounded middle of the limits, the only limit, or zero for two market orders |
| CrossPrices.CrossesExactlyWhenMet | gateway/internal/crossing/engine.go:44-146 | an incoming order crosses exactly when an order of the other side in the book meets it, and then with the earliest of these |
| CrossPrices.CrossIsPricedExactlyWithALimit | gateway/internal/crossing/engine.go:149-160 | with positive limits on the grid a cross has a positive price exactly when one of the orders has a limit |
| MatchingEngine.Engine.ProcessOrder | gateway/internal/adapter/simulated/matching_engine.go:91-145 | market orders fill at once, limit orders rest, others and unknown instruments do nothing |
| MatchingEngine.Engine.SweepInstrument | gateway/internal/adapter/simulated/matching_engine.go:169-208 | fills and remaining book of one sweep |
| MatchingEngine.Engine.CancelOrder | gateway/internal/adapter/simulated/matching_engine.go:268-283 | the order leaves every book |
| MatchingEngine.SweepSplits | gateway/internal/adapter/simulated/matching_engine.go:169-222 | a sweep fills exactly the orders whose limit is reached, at their limit and in full, and keeps exactly the others |
| VenueFills.FillsComeFromPrices | gateway/internal/adapter/simulated/matching_engine.go:91-222 | over every run each fill of a simulated venue is for a whole order: for a limit order from a sweep of its instrument, at its own limit, at a price at or below it for a buy and at or above it for a sell; for a market order from its submission at the slipped price; for a stop-limit order never |
| VenueFills.AfterSweepNothingReachedRests | gateway/internal/adapter/simulated/matching_engine.go:169-222 | over every run, right after a sweep at a price no buy with a limit at or above it and no sell with one at or below it rests in that book, and each that did has just been filled in full at its limit |
| MatchingEngine.ProcessedTidy | gateway/internal/adapter/simulated/matching_engine.go:91-145 | a new order keeps fills and books disjoint, distinct and of given orders |
| MatchingEngine.SweptTidy | gateway/internal/adapter/simulated/matching_engine.go:169-208 | so does a sweep |
| MatchingEngine.WithdrawnTidy | gateway/internal/adapter/simulated/matching_engine.go:268-283 | and a cancellation |
| Aggregator.Aggregator.Ingest | gateway/internal/marketdata/aggregator.go:66-98 | the map of current bars changes as the step function says, and the completed bar is offered to the channel |
| Aggregator.Aggregator.Flush | gateway/internal/marketdata/aggregator.go:116-126 | a partial copy of every current bar is emitted, and nothing else changes |
| Aggregator.OfferedIsPrefix | gateway/internal/marketdata/aggregator.go:150-156 | a full channel drops the newest bars and keeps the order of those it takes |
| OhlcBars.RunRefinesBars | gateway/internal/marketdata/aggregator.go:66-126 | for each instrument the current bar is the last bar of its ticks and the completed bars emitted are all the others, whatever else is interleaved |
| OhlcBars.BarsAreGroups | gateway/internal/marketdata/aggregator.go:66-148 | with non-decreasing times the bars are the summaries (first, max, min, last, volume, count) of exactly the ticks of each period, one per period with ticks, increasing |
| OhlcBars.BarsPartitionTicks | gateway/internal/marketdata/aggregator.go:66-98 | for any timestamps no tick or volume is lost or counted twice |
| CompletedBars.CompletedBarSummarizesItsPeriod | gateway/internal/marketdata/aggregator.go:66-148 | over every run in which the times of an instrument do not decrease, each completed bar ends one interval after its start and has the first, last, highest and lowest price, the volume and the number of exactly the ticks of its period |
| CompletedBars.FlushedBarSummarizesItsPeriod | gateway/internal/marketdata/aggregator.go:116-148 | the partial bar a flush emits says the same of the ticks so far of the period of the last one, and the current bar stays |
| BarGranularity.AlignNested | gateway/internal/marketdata/aggregator.go:143-148 | aligning to a period and then to a multiple of it is aligning to the multiple, negative times included |
| BarGranularity.StreamsConsistent | gateway/internal/marketdata/aggregator.go:66-98 | two granularities fed the same ticks stay consistent at every moment |
| BarGranularity.CoarseBarsMergeFineBars | gateway/cmd/gateway/main.go:339-341 | every completed coarse bar is the merge of the completed fine bars of its period |
| BarGranularity.EmittedBarsMerge | gateway/cmd/gateway/main.go:339-341 | the same of the completed bars two aggregators emitted, whatever else they were fed and whenever they flushed |
| ChartStore.KeysDiffer | dashboard/src/stores/marketDataStore.ts:27 | two series never share a key, although instrument names may contain colons |
| ChartStore.ChartProjects | dashboard/src/stores/marketDataStore.ts:25-51 | a key holds the capped chart of its own updates, however others interleave |
| ChartStore.ChartHoldsLogicalBars | dashboard/src/stores/marketDataStore.ts:25-51 | fed an aggregator, it holds the last 500 logical bars: all but the newest completed, the newest completed or partial |
| ChartStore.ChartHoldsBothSeries | gateway/cmd/gateway/main.go:339-341 | two aggregators of different intervals feed one channel: however their bars interleave, the chart holds the last 500 logical bars of both |
| ChartStore.LabelsDiffer | gateway/internal/marketdata/aggregator.go:14-23 | different intervals have different tags |
| ChartStore.ChartIncreases | dashboard/src/stores/marketDataStore.ts:25-47 | one bar per period, strictly increasing, for non-decreasing times |
| Portfolio.Portfolio.ApplyFill | risk-engine/risk_engine/domain/portfolio.py:33-136 | refused or applied to positions, the three cash fields and NAV; the objects are those of the map |
| Portfolio.Portfolio.UpdatePosition | risk-engine/risk_engine/domain/portfolio.py:65-114 | weighted average, realized profit, deletion when flat, opening |
| Portfolio.Portfolio.UpdateCash | risk-engine/risk_engine/domain/portfolio.py:116-134 | each side and settlement cycle |
| Portfolio.Portfolio.RecomputeNav | risk-engine/risk_engine/domain/portfolio.py:147-163 | available cash plus the sum over the positions, in whatever order |
| Portfolio.Position.UpdateMarketPrice | risk-engine/risk_engine/domain/position.py:40-44 | marking |
| PortfolioLedger.NavIdentity | risk-engine/risk_engine/domain/portfolio.py:33-163 | in every reachable book NAV is starting cash plus all realized profit, deleted positions included, plus all unrealized; available cash is starting cash less buys plus sells; holdings are positive |
| PortfolioLedger.SettledCash | risk-engine/risk_engine/domain/portfolio.py:116-134 | settled and unsettled cash in closed form; available = cash - unsettled exactly when T2 sells brought in nothing |
| PortfolioLedger.RefusedSellChangesNothing | risk-engine/risk_engine/domain/portfolio.py:80-102 | exactly sells of more than is held are refused, and change nothing |
| PortfolioLedger.AlwaysKept | risk-engine/risk_engine/domain/portfolio.py:33-163 | the invariant behind the identity, over every stream |
| BooksAgree.BooksAgreeExactlyWhenLongOnly | risk-engine/risk_engine/kafka/consumer.py:280-300 | gateway and risk engine hold the same quantities after every fill of a one-venue stream exactly when no prefix oversells; then average cost and cumulative realized profit agree too |
| BooksAgree.FirstSellDiverges | risk-engine/risk_engine/domain/portfolio.py:80-102 | when the first fill of a stream sells, the gateway is short by it and the risk engine holds nothing |
| BooksAgree.LongOnlyAgrees | gateway/internal/pipeline/pipeline.go:718-745 | agreement over long-only streams, through deletion and re-creation of flat positions |
| BooksAgree.FillAgrees | gateway/internal/domain/position.go:29-69 | one fill keeps both sides equal, whether it opens, reopens, increases, reduces or closes |
| FillConsumer.PortfolioStateBuilder.ProcessMessage | risk-engine/risk_engine/kafka/consumer.py:187-208 | each event type drives the book, the collected fills and the reports as specified |
| FillConsumer.PortfolioStateBuilder.HandleFill | risk-engine/risk_engine/kafka/consumer.py:280-316 | a refused fill is neither tracked nor notified; an accepted one is both |
| FillConsumer.NotifiedFillsMakeTheBook | risk-engine/risk_engine/kafka/consumer.py:301-316 | over every run the fill callback is told exactly the fills that make the book: each acceptable when it came, and replaying them gives the book |
| FillConsumer.ReportsPartitionAcceptedFills | risk-engine/risk_engine/kafka/consumer.py:280-347 | over every run the reports of an order followed by what is still collected are its accepted fills in order: none lost, repeated or misattributed |
| FillConsumer.CompletedOrderIsFullyReported | risk-engine/risk_engine/kafka/consumer.py:193-196 | once an order is filled its reports hold all its accepted fills |
| RiskGate.Gate.CheckPreTradeRisk | risk-engine/risk_engine/grpc_server/server.py:69-157 | which checks run under the time budget, what each decides, and the first failure as the reason |
| RiskGate.Gate.BuildHypothetical | risk-engine/risk_engine/grpc_server/server.py:294-333 | the projected book is made of fresh copies and equals the projection; no live object is modified |
| RiskGate.Gate.FirstFailing | risk-engine/risk_engine/grpc_server/server.py:151-157 | the loop finds the first failing check |
| RiskGateSafety.NoFailureIsApproval | risk-engine/risk_engine/grpc_server/server.py:151-157 | no reason is given exactly when every check passed |
| RiskGateSafety.ApprovalSays | risk-engine/risk_engine/grpc_server/server.py:113-147 | what an approval in time means, check by check, both directions |
| RiskGateSafety.LatenessKeepsEarlyFailures | risk-engine/risk_engine/grpc_server/server.py:115-147 | running out of time only drops checks at the end: a failure already found still rejects for the same reason |
| GateAmounts.ChecksThatRun | risk-engine/risk_engine/grpc_server/server.py:99-147 | for every way of running out of time: which of the four checks run, and in which order |
| GateAmounts.ApprovalInAmounts | risk-engine/risk_engine/grpc_server/server.py:88-147 | approval, for every way of running out of time, as inequalities between amounts in both directions: cost, share of net asset value, cash, and value at risk before and after |
| GateAmounts.VarCheckInAmounts | risk-engine/risk_engine/grpc_server/server.py:336-350 | the fourth check passes exactly when the value at risk after is at most (1 + limit) times that before, if that is positive; else exactly when none is at risk after and the limit is not negative, or the limit is at least 1 |
| GateAmounts.VarAfterTheFill | risk-engine/risk_engine/grpc_server/server.py:272-350 | the same of the book that the fill of the order leaves, for every order that does not oversell a holding |
| GateAmounts.OversellChecksFlat | risk-engine/risk_engine/grpc_server/server.py:311-314 | an oversell is checked as if the holding were sold out |
| RiskGateSafety.ProjectionIsTheFilledBook | risk-engine/risk_engine/grpc_server/server.py:294-333 | the projection equals the filled book in quantity, cost, price and unrealized profit for exactly the orders that do not oversell a holding |
| RiskGateSafety.OversellIsProjectedFlat | risk-engine/risk_engine/grpc_server/server.py:294-333 | with one unit held a sell of two is projected as an empty book, and its fill is refused |
| RiskGateSafety.NavAfterFill | risk-engine/risk_engine/domain/portfolio.py:62-163 | an accepted fill moves NAV by exactly the revaluation of what was held |
| RiskGateSafety.LimitAfterFill | risk-engine/risk_engine/grpc_server/server.py:214-252 | exactly when a position is within its share of NAV after a fill, in terms known before it |
| RiskGateSafety.ApprovedBuyIsSafe | risk-engine/risk_engine/grpc_server/server.py:196-270 | an approved buy filled at the checked price keeps cash non-negative and, at the mark or below or for a new instrument, the position within its limit |
| RiskGateSafety.OwnFillIsCoveredExactlyWhenLimited | risk-engine/risk_engine/grpc_server/server.py:88-157 | on the very book it was checked against, an approval covers every fill the order can get exactly for limit orders whose cash check ran in time or whose cost fits in cash without it; a market order fills at the price of the venue, whatever price it carries |
| RiskGateSafety.PricedMarketBuyOverdraws | gateway/internal/rest/handler_order.go:146-162 | a market order may carry a price and is checked at it: ten units stated at 1 are approved against 100, fill at 50, and overdraw the account |
| RiskGateSafety.SlippedMarketBuyOverdraws | risk-engine/risk_engine/grpc_server/server.py:90-94 | a market buy of a held instrument is approved at its last mark, fills five basis points above it, and overdraws the account |
| RiskGateSafety.UnpricedBuyCanOverdraw | risk-engine/risk_engine/grpc_server/server.py:88-94 | a market order for an instrument not held passes with its quantity in place of its cost, and can overdraw |
| RiskGateInFlight.CashIsSafeExactlyWhenCovered | risk-engine/risk_engine/grpc_server/server.py:254-270 | whatever is filled of the orders on their way, in any order and in parts, each up to its worst price, cash stays non-negative exactly when what they may still cost fits in it |
| RiskGateInFlight.SharesAreSafeExactlyWhenCovered | risk-engine/risk_engine/grpc_server/server.py:214-252 | and at the mark every position stays within its share exactly when its value and pending cost fit in it |
| RiskGateInFlight.RunsKeepCashExactlyWhenBuysHaveRoom | risk-engine/risk_engine/grpc_server/server.py:69-270 | from any book and over every run of checks, orders that go on unchecked, partial fills and withdrawals, limit orders filled at their limit at worst and all others at any price given with them, cash is safe at every moment exactly when it is at the start and each buy, when it went on, fitted in cash at its worst price together with the pending ones, although the gate compares it with all available cash |
| RiskGateInFlight.UncheckedBuyOverdraws | gateway/internal/pipeline/pipeline.go:234-241 | a buy that the gate never answered goes on and can overdraw the account |
| RiskGateInFlight.RunsKeepSharesExactlyWhenBuysHaveRoom | risk-engine/risk_engine/grpc_server/server.py:69-270 | over every run in which each instrument keeps one price, the same holds for the share of each instrument |
| RiskGateInFlight.OneAtATimeIsSafe | risk-engine/risk_engine/grpc_server/server.py:69-270 | over every run from a safe start in which each instrument keeps one price and every buy is checked in time, at the price it fills at, and goes on only while no other buy is pending, cash and shares are safe at every moment |
| RiskGateInFlight.FiveBuysInFlightOverdraw | gateway/internal/pipeline/pipeline.go:223-271 | under the default limits, five limit buys of 25 in different instruments are all approved against a capital of 100, and their fills leave -25 |
| Credentials.CredentialManager.Store | gateway/internal/credential/manager.go:63-123 | error on an empty venue, missing entropy or store failure without a change; else the locked row is upserted |
| Credentials.CredentialManager.Seal | gateway/internal/credential/manager.go:68-105 | nonces packed key, secret, passphrase; two when there is no passphrase |
| Credentials.CredentialManager.Retrieve | gateway/internal/credential/manager.go:126-176 | unpacking and decryption, each error case |
| Credentials.CredentialManager.RotateCredential | gateway/internal/credential/manager.go:229-282 | one row re-encrypted, or an error and no change |
| Credentials.CredentialManager.RotatePassphrase | gateway/internal/credential/manager.go:204-226 | both refusals change nothing; the loop stops at its first error; the new passphrase is taken only when all venues are done |
| Credentials.CredentialStore.StoreCredential | gateway/internal/store/credential_repo.go:24-55 | the upsert keeps the creation time of an existing row |
| Credentials.UnlockLock | gateway/internal/credential/manager.go:98-175 | what is locked opens to the same secrets, with or without a passphrase |
| Credentials.StoreThenRetrieve | gateway/internal/credential/manager.go:63-176 | a stored credential is retrieved unchanged and no other venue is affected |
| CredentialNonces.StoreSealsEachFieldUnderItsOwn | gateway/internal/credential/manager.go:63-123 | after a store the row holds the drawn nonces in the order of the fields, each field is sealed under the key of the row's salt and its own part of the column, and parts differ if draws do |
| CredentialNonces.RotationSealsEachFieldUnderItsOwn | gateway/internal/credential/manager.go:204-282 | the same for every venue done at any point of a rotation, under the new passphrase |
| CredentialNonces.NoKeyAndNonceSealsTwice | gateway/internal/credential/manager.go:63-282 | over any history of stores and rotations that draws no nonce twice, no two fields ever written are sealed under the same key and nonce, and the rows in the store are among those written |
| Credentials.RotationKeepsEveryPlaintext | gateway/internal/credential/manager.go:217-282 | at every point, an early error included, the venues done open to the same secrets under the new passphrase (and, with authentic encryption, no longer under the old) and the rest are untouched; no error exactly when all are done |
| Credentials.CompletedRotationMovesEveryVenue | gateway/internal/credential/manager.go:204-226 | on success every stored venue opens under the new passphrase to what it held |
| Credentials.RotationStopsOnlyOnFailure | gateway/internal/credential/manager.go:217-222 | it stops at the first venue that cannot be opened, drawn for or stored, and only there |
| Credentials.RekeyShutsOutTheOld | gateway/internal/credential/manager.go:229-282 | with authentic encryption a rotated row no longer opens under the old passphrase |
| Credentials.ManagerStillReadsExactlyWhen | gateway/internal/credential/manager.go:204-282 | with authentic encryption the passphrase the manager is left with still opens everything the old one opened exactly when every venue could be re-encrypted and stored, or there was none, or the very first one could not |
| Credentials.SecondStoreFails | gateway/internal/credential/manager.go:217-226 | two venues, the second of which cannot be stored: an error, the manager keeps the old passphrase, and the first venue no longer opens under it |
| Credentials.SomeCryptoIsAuthentic | gateway/internal/credential/manager.go:98-175 | there are ciphers that satisfy what is assumed of them |
| BusinessDays.AddBusinessDays | risk-engine/risk_engine/settlement/tracker.py:189-205 | terminates (days left, then distance to the next business day) and computes the iterated next business day; days not positive return the start |
| BusinessDays.LeastDateWithCount | risk-engine/risk_engine/settlement/tracker.py:189-205 | the least date with exactly n business days after the start, itself one for positive n |
| BusinessDays.PlusMonotone | risk-engine/risk_engine/settlement/tracker.py:189-205 | monotone in the start |
| BusinessDays.PlusAdditive | risk-engine/risk_engine/settlement/tracker.py:189-205 | adding a and then b days is adding a + b |
| BusinessDays.WeekAhead | risk-engine/risk_engine/settlement/tracker.py:189-205 | for n of at least 1, five more business days are seven more days |
| BusinessDays.WeekFromStart | risk-engine/risk_engine/settlement/tracker.py:189-205 | for n = 0 that holds exactly from a business day |
| BusinessDays.PlusInWeeks | risk-engine/risk_engine/settlement/tracker.py:189-205 | the date in one formula: five business days are a week, and a start on a weekend counts from the Friday before |
| Settlement.SettlementTracker.RecordFill | risk-engine/risk_engine/settlement/tracker.py:43-99 | no record for T+0; else a pending one two business days ahead with the signed amount |
| Settlement.SettlementTracker.SettleMatured | risk-engine/risk_engine/settlement/tracker.py:113-132 | exactly the matured pending records become settled, in place |
| Settlement.SettlementTracker.ComputeSettlementRisk | risk-engine/risk_engine/settlement/tracker.py:138-169 | total, committed cash, count and net amount per date of the pending records |
| Settlement.PendingForTwoBusinessDays | risk-engine/risk_engine/settlement/tracker.py:86-88 | a record is pending exactly while fewer than two business days have passed |
| Settlement.MaturingComposes | risk-engine/risk_engine/settlement/tracker.py:124-127 | settling on two days is settling on the later |
| Settlement.PendingAfterMaturing | risk-engine/risk_engine/settlement/tracker.py:124-127 | what stays pending is what was pending and settles later |
| Settlement.RiskFiguresBalance | risk-engine/risk_engine/settlement/tracker.py:149-169 | the amounts by date add up to the total less twice the committed cash, which never exceeds the total |
| SettlementBook.TrackerHoldsUnsettledCash | risk-engine/risk_engine/main.py:133-145 | after any stream of events the tracker's net pending amount is the negated unsettled cash of the book exactly when fills labelled T2 and fills of classes that settle later bring in the same, and so whenever every fill is labelled as its class settles |
| SettlementBook.UnlabelledCryptoIsNotTracked | risk-engine/risk_engine/kafka/consumer.py:280-300 | a crypto fill without a settlement cycle is booked as unsettled and never tracked |
| SettlementBook.CommittedIsOutgoing | risk-engine/risk_engine/settlement/tracker.py:43-99 | the outgoing amounts of the records are what the buys that settle later cost |

## Left out

- Transport and storage: HTTP, WebSocket, Kafka, PostgreSQL and gRPC are queues, maps and parameters here; logging and metrics are dropped.
- Pipeline.Pipeline.Submit: store failures and a cancelled context are not modelled, so its two error returns after validation are not.
- Pipeline.Pipeline.RouteLegacy: the return after a failed row update is not modelled; store calls of the pipeline succeed.
- Pipeline.Pipeline.RouteSmart: the returns after failed row updates are not modelled; store calls of the pipeline succeed.
- Pipeline.Pipeline.CrossInternally: the return after a failed row update is not modelled; store calls of the pipeline succeed.
- Pipeline.Pipeline.DispatchChildren: a child whose row cannot be written is skipped in the source; here every row is written.
- Pipeline.Pipeline.TakeAndAcknowledge: the skip after a failed row update is not modelled; store calls of the pipeline succeed.
- Pipeline.Pipeline.ProcessFill: store failures between its writes are not modelled, and fills are positive, as all fills of the modelled venues are.
- RiskGateInFlight.RunsKeepSharesExactlyWhenBuysHaveRoom: assumes one price per instrument over the run, since every other fill price revalues what is held and so moves all shares.
- Crossing.CrossingEngine.AddOrder: assumes the order object is not in its instrument's book yet, which the source does not check.
- Crossing.CrossingEngine.TryCross: assumes the incoming order object does not rest in the book it is matched against, which the source does not check.
- Interleavings finer than a stage: processing one fill, one routing decision and one acknowledgement are atomic steps.
- PositionBooks.PricingOnlyMarks: takes each read and write of a row by the position pricer as one step, though nothing coordinates it with fills; the runs of the pipeline are without it.
- The REST cancel handler, which changes a copy of the order and does not reach the pipeline's objects.
- Fees, timestamps of orders, fill IDs, currencies and the payloads of client notifications: carried through without a decision. Order IDs are taken to be unique.
- Orders.Order.ApplyFill: leaves out only the fill that brings a partly filled order back to zero, where the source divides by zero and panics.
- VaR engines, optimizer, anomaly and language-model services: the VaR amount is an arbitrary function of the book.
- RiskGate.Gate.CheckPreTradeRisk: compares exact ratios where the source converts them to floating point, gives the failing check in place of its message, and takes the 10 ms budget as a flag per check.
- Python's 28-digit decimal context: the risk engine's divisions are exact; sides other than buy and sell are not modelled.
- BooksAgree.BooksAgreeExactlyWhenLongOnly: does not compare market price and unrealized profit, because the gateway marks at its first fill or market data and the risk engine at the last fill; both sides divide exactly.
- Consumer reconnects, replays and hydration: each event is delivered once and in order.
- Backoff arithmetic and message decoding of the consumer.
- The sorting algorithm itself: a stable ranking is proved unique, so the ranking is given by insertion.
- CredentialNonces.NoKeyAndNonceSealsTwice: is about the rows written; a row that was sealed but could not be stored leaves nothing behind in the model.
- AES-GCM and Argon2id internals: sealing and key derivation are arbitrary functions for which opening undoes sealing; deletion and validation of credentials only look rows up.
- Aggregator.Aggregator.Ingest: periods are counted in whole time units from a fixed origin, and the chart results are about runs in which the channel drops nothing.
- Aggregator.Aggregator.Flush: the order in which it visits the map is a parameter.
- The ML-scored strategy, which the gateway registers but never asks for by name, and its scoring service.
- React components and the other stores; the position throttle of the WebSocket hub.
- Calendar limits of Python dates, holidays, and the order of the dates in the settlement report.
