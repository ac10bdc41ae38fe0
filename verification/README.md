# A verified model of the CorpSim economy kernel

CorpSim advances an economy of companies tick by tick: companies trade on regional order books, run production
jobs, ship goods, fulfil contracts, hire, build and research. Every command and every tick is one database
transaction. This project models those transactions in Dafny and proves what they keep, over every run.

Check it with `dafny verify dfyconfig.toml`.

## How the model is built

Three layers meet in the theorems of `Reachable.dfy`, `Consistency.dfy`, `TickService.dfy` and `Concurrency.dfy`.

1. **Matching.** `Matching.dfy` holds the planner: its two-pointer loop over sorted books is proved equal to a
   recursive crossing. `MatchingTheory.dfy` proves priority, uniqueness of the sorted order and absence of a crossed
   remainder; `MatchingOptimality.dfy` proves by a clearing price that no feasible allocation gains more.
2. **The world.** `Rows.dfy` gives each table's row and the `World` of all tables. Each command is a function from a
   world to an `Outcome`: `Done(world)`, or `Thrown(error, open)` where `open` is what the transaction had written
   when it threw, which matters because the auto-start of production swallows errors inside an open transaction. The
   functions are in `Market.dfy`, `Production.dfy`, `Logistics.dfy`, `Estate.dfy`, `Payroll.dfy`, `Contracts.dfy`,
   `Research.dfy`, `DemandSink.dfy` and `Pipeline.dfy`. The services as the program writes them, statement by
   statement and loop by loop on tables updated in place, are the methods of `MarketService.dfy`,
   `ProductionService.dfy`, `CompanyServices.dfy`, `DealServices.dfy` and `TickService.dfy` on the class in
   `Database.dfy`; each is proved to do to the tables exactly what its function says, on every input and for every
   error, and `CommandService.dfy` runs any of them in its transaction. `Accounting.dfy` states the invariant of the
   books, `Conservation.dfy` what no run changes, `Health.dfy` both together. The files named after what they keep
   (`...Books`, `Audits`, `Goods`, `Solvency`, `...Steps`, `Stages`, `Records`, `StorageTheory`, `TickTheory`,
   `Delivery`, `Completeness`, `DemandTheory`, `ResearchTheory`) prove it command by command and stage by stage.
   `Effects.dfy`, `CompanyEffects.dfy` and `Admission.dfy` say in the figures of the rows, and without the functions
   that compute them, what each operation does and exactly when it goes through; `PriceTime.dfy` does so for the
   order of the book and `TickEffects.dfy` for a whole tick.
   `Roundtrips.dfy` proves what one command undoes of another and what a command settles for every later state;
   `Overflow.dfy`, `Refusals.dfy` and `Solvency.dfy` say exactly when a promise fails, and `Witnesses.dfy` gives a
   concrete run for each failure.
3. **The tick protocol.** `TickProtocol.dfy` and `WorkerLoop.dfy` model advances as interleaved steps over the world
   row and the execution-key table, `Lease.dfy` the lease row with a clock that only goes forward. `Concurrency.dfy`
   joins the protocol to the world: every interleaving of workers and users is one run of the commands that
   committed.

`InvariantScan.dfy` models the collectors of the invariant scan and `RowChecks.dfy` proves that a tick never gives
them anything new to report; `Candles.dfy` models the candles and the window summary built from them.

What "sound" says (`Health.Sound`): every reservation is backed by open orders and running jobs, no row is out of
range, each contract's remainder plus its deliveries and each order's remainder plus its trades is its original
quantity, rows carry a closing tick exactly when they are closed, and research is closed under prerequisites with
exactly one running job per node being researched. Every state of every run from a sound world is sound. "Healthy"
(`Health.Healthy`) says besides that no company has more cash reserved than it has, and that every ledger entry
records the balance its company had right after it; `Reachable.dfy` proves exactly which commands can lose either.
What "follows" says (`Health.Follows`): the ledger entries added explain every change of cash, goods changed only by
production and consumption, the terms of every order, job, shipment and contract are what they were, closed rows did
not change, and completed research only grew.

## Where the code and its documentation differ

The model follows the code.

- The headers of the matching service speak of a transaction per settlement. All settlements of a tick share the
  tick's transaction, so one full store aborts the whole tick.
- The bot runner's header promises that one bot's failure does not affect others. A refused cancel or placement ends
  the tick and undoes what the other bots did; only a failed recipe of the auto-start is swallowed.
  `Refusals.RefusedIff` gives the condition of each action and `Refusals.BotsThrowIff` that of a list.
- Fulfilling a contract and starting research guard on total cash, not on cash minus reserved cash. Over all
  commands they alone can leave reserved cash uncovered, exactly under the condition of `Reachable.CoverKeptIff`.
  The tick calls neither.
- The consistency checks of the accounting are written as if they could not fail. After such a command they do: a
  settlement with that company as buyer, a charge of its buildings and a bot's look at its cash throw, and each aborts
  the whole tick, tick after tick (`Witnesses.OverspentCrossingAborts`, `Witnesses.OverspentChargeAborts`). They are
  silent exactly where every company covers its reservations (`Consistency.ConsistentIffCovered`).
- A contract settled between a company and itself records a wrong balance on the paying entry, because both balances
  are read after both updates; nothing else does (`Reachable.BalancesKeptIff`).
- The conditional stock update of a fulfilment names no region, so it also throws when the seller holds an identical
  row in another region, and then only (`Overflow.TwinRowRefusesIff`).
- Cancelling a shipment and fulfilling a contract credit stock with no storage check, so capacity is not an
  invariant. `Overflow.RecallBoundedIff` and `Overflow.FulfilmentBoundedIff` say exactly when they keep every store
  within the larger of what it held and what it may hold, which everything inside a tick does.
- Creating a production job writes its reservations before it validates the company's workforce and before the
  insert that a taken key refuses.
- An execution key is remembered for a retention period, not for ever: a key advances the world once if each of its
  tries comes in time (`TickProtocol.AtMostOnce`), and `TickProtocol.RepeatAtTheBound` shows the first try that does
  not.
- A lease is not renewed while a batch runs. Up to its expiry it excludes every other worker (`Lease.OthersKeepLease`,
  `Lease.LeaseExcludes`); after it only the lock version keeps ticks apart. A grant that takes effect after the expiry
  may have read its time before it (`Lease.LaterGrantMayReadEarlier`).

## What is assumed

- Primary keys are numbers ordered as the collation of the string ids; a new row's key is a parameter, and a key
  already in use is the error `Conflict`.
- A company's region and the static catalogue never change, recipes list each input item once, and orders are
  created open.
- The rows a stage's query returns are a list in any order. The theorems hold for every list of due rows, because
  the loop bodies re-check what the query filtered on; the order query must list each open order once.
- Research-tier, specialization and unlock checks, the profit test of a recipe, base prices and base quantities are
  parameters. Timestamps are numbers.
- Integers are unbounded: the 32-bit columns are not modelled, the 32-bit hash is.
- In the protocol layer a transaction sees committed rows only, its writes appear at commit, and other writers of
  the world row do not exist.

## Model

| member | source | states |
|---|---|---|
| Matching.PlanOrderMatches | packages/sim/src/services/market-matching.ts:134-196 | the planner refuses a side that mixes regions, matches nothing across regions, and otherwise returns the greedy crossing of the two priority-sorted books |
| Matching.MatchSorted | packages/sim/src/services/market-matching.ts:159-195 | the two-pointer loop with shrinking remainders computes the recursive crossing of the two books, and terminates |
| MatchingTheory.PlanIsOrderIndependent | packages/sim/src/services/market-matching.ts:150-157 | the plan is the same for every permutation of the input orders |
| MatchingTheory.SortedUnique | packages/sim/src/services/market-matching.ts:97-127 | there is only one sequence of the given orders sorted by priority: the comparators leave no ties |
| MatchingTheory.PriceTimePriority | packages/sim/src/services/market-matching.ts:113-195 | no order is overfilled, and an order gets a fill only if every order of its side ahead of it is filled completely |
| PriceTime.FirstIsServedFirst | packages/sim/src/services/market-matching.ts:97-195 | of two orders of one side, if the first has the better price, or the same price and the smaller tick, or then the earlier time, or then the smaller id, any fill of the second means that the first is filled completely |
| PriceTime.FirstOrderSetsThePrice | packages/sim/src/services/market-matching.ts:129-132 | every match is at the limit price of whichever of its two orders has the smaller tick, or then the earlier time, or then the smaller id |
| PriceTime.RefusedIffMixed | packages/sim/src/services/market-matching.ts:134-148 | the planner refuses exactly the inputs in which one side holds orders of two regions |
| MatchingTheory.PlanLeavesNoCross | packages/sim/src/services/market-matching.ts:159-195 | a buy and a sell that the plan leaves partly unfilled do not cross |
| MatchingTheory.MatchesAreWellFormed | packages/sim/src/services/market-matching.ts:129-195 | each match joins an eligible order of each side, has a positive quantity and a price between the two limits, and there are at most n + m - 1 matches |
| MatchingTheory.NoOverfill | packages/sim/src/services/market-matching.ts:168-193 | what the crossing trades of an order is between zero and what the order has left |
| MatchingTheory.FewMatches | packages/sim/src/services/market-matching.ts:159-195 | two non-empty books give at most n + m - 1 matches |
| MatchingOptimality.GainBelowSurplus | packages/sim/src/services/market-matching.ts:150-195 | at any outside price, no feasible allocation gains more than the two sides together would gain against that price |
| MatchingOptimality.ClearingPrice | packages/sim/src/services/market-matching.ts:150-195 | there is a price at which the crossing gains exactly that bound |
| MatchingOptimality.PlanIsOptimal | packages/sim/src/services/market-matching.ts:150-195 | no feasible allocation of buy quantities to sell quantities gains more than the plan |
| Market.ReserveCash | packages/sim/src/domain/reservations.ts:130-158 | cash is reserved exactly when quantity and price are positive, the row is in range and unreserved cash covers the value; the row stays in range |
| Market.ReserveStock | packages/sim/src/domain/reservations.ts:160-183 | stock is reserved exactly when the quantity is positive, the row is in range and unreserved stock covers it; the row stays in range |
| MarketService.PlaceMarketOrder | packages/sim/src/services/market-orders.ts:165-340 | placing an order changes the tables exactly as the command function says, or throws what it says |
| MarketService.CancelMarketOrder | packages/sim/src/services/market-orders.ts:350-457 | cancelling closes the order and gives back what it reserved, or throws, or finds it already closed |
| MarketService.SettleOne | packages/sim/src/services/market-matching.ts:198-441 | one settlement makes the checks in order and then the writes, for every input and error; what the writes amount to is in the four rows of `Effects` below |
| MarketService.WriteSettlement | packages/sim/src/services/market-matching.ts:316-440 | the writes of a settlement, the self-trade branch included, are those of the function whose figures the next four rows state |
| Effects.SettlementMovesCash | packages/sim/src/services/market-matching.ts:286-341 | a settlement moves quantity times price from buyer to seller, nothing in a self-trade, and frees quantity times the buy limit of the reserved cash; nobody else is touched |
| Effects.SettlementMovesStock | packages/sim/src/services/market-matching.ts:343-377 | the quantity leaves the row of the seller, and its reservation, for the row of the buyer in the same region; no other row changes |
| Effects.SettlementIsPosted | packages/sim/src/services/market-matching.ts:402-440 | it adds one trade with its total and two entries of minus and plus that total, with the freed reservation on the first and the new balances on both |
| Effects.SettlementShrinksOrders | packages/sim/src/services/market-matching.ts:379-400 | both orders lose the quantity and the reservation for it, and close as filled exactly when nothing remains |
| MarketService.RunMarketMatching | packages/sim/src/services/market-matching.ts:443-488 | all groups are planned from one reading of the book and settled one match at a time; the first throw ends it |
| MarketBooks.PlaceOrderKeepsBooks | packages/sim/src/services/market-orders.ts:239-340 | placing an order keeps every reservation backed and cash covering it |
| Effects.PlacedOrder | packages/sim/src/services/market-orders.ts:239-340 | a placement adds one open order with the terms asked for, in the region of its company, and no other |
| Effects.PlacedOrderReserves | packages/sim/src/services/market-orders.ts:239-340 | it reserves quantity times price in cash for a buy and the quantity itself for a sell, of that company and row only; no cash and no goods move |
| Effects.CancelledOrder | packages/sim/src/services/market-orders.ts:361-457 | a cancel closes an open order, frees exactly the cash or the stock that it still held, and leaves every amount of cash and goods; a closed order is left alone |
| MarketBooks.CancelOrderKeepsBooks | packages/sim/src/services/market-orders.ts:372-457 | cancelling keeps every reservation backed |
| MarketBooks.CancelOrderNeverThrows | packages/sim/src/services/market-orders.ts:372-440 | with backed reservations neither consistency check of a cancel can fire |
| MarketBooks.SettleMatchKeepsBooks | packages/sim/src/services/market-matching.ts:208-400 | a settlement of two open orders keeps every reservation backed; it fails its consistency check if and only if the buyer's cash does not cover the rest of its reservations, and its storage check if and only if it does and buyer and seller differ and the buyer's store has no room |
| Roundtrips.PlaceThenCancel | packages/sim/src/services/market-orders.ts:165-457 | an order placed and cancelled leaves cash, stock and every reservation as they were; its ledger entries add up to nothing |
| MatchingRun.GroupExecutable | packages/sim/src/services/market-matching.ts:443-487 | the plan of a group asks no order for more than it has left, and only open orders for anything |
| MatchingRun.SettleAllExecutes | packages/sim/src/services/market-matching.ts:481-485 | a planned list is settled in full, order by order, or it stops for a full store or, with an inconsistency, where some company's cash does not cover what is reserved of it |
| MatchingRun.SettleAllTrades | packages/sim/src/services/market-matching.ts:402-415 | settling a list records one trade per match, at its full quantity and price |
| MatchingRun.MatchingSettlesEveryPlan | packages/sim/src/services/market-matching.ts:443-487 | either the run aborts, for a full store or, with an inconsistency, where some company's cash does not cover what is reserved of it; or every order advanced by exactly its planned fill, the trades added are exactly the matches of all plans, and no open buy is priced at or above an open sell of its region and item |
| PriceTime.BookIsServedInOrder | packages/sim/src/services/market-matching.ts:443-487 | after one tick of matching, an open order of which anything was traded has left no order of its side, item and region unfilled that was better priced, or equally priced and placed first |
| PriceTime.TradesAtFirstPrice | packages/sim/src/services/market-matching.ts:443-487 | every trade that a tick of matching records is at the limit price of the order placed first |
| Production.Requirements | packages/sim/src/services/production.ts:198-216 | each input is needed in its recipe quantity times the number of runs |
| ProductionService.CheckRows | packages/sim/src/services/production.ts:524-540 | the checking loop reports the first requirement that its row cannot meet |
| ProductionService.UseRows | packages/sim/src/services/production.ts:541-556 | the writing loop applies every requirement |
| ProductionService.CreateProductionJob | packages/sim/src/services/production.ts:388-612 | creating a job; reservations are written before the workforce is validated |
| Effects.CreatedJob | packages/sim/src/services/production.ts:558-579 | a new job is due after the least number of ticks that covers the duration of its recipe times 10000 minus the bonus, in ten-thousandths, where the bonus is 0 without staff and otherwise operations share times efficiency times 1200 / 1000000, held to 0 and 1200; it is due at once exactly when the recipe takes no time |
| Effects.CreatedJobReserves | packages/sim/src/services/production.ts:501-556 | it reserves runs times the recipe quantity of every input in its company and region; no cash and no goods move |
| Admission.JobCreatedIff | packages/sim/src/services/production.ts:388-612 | a job is created exactly if runs are positive, company and recipe exist, nothing locks it, a player has an active production building, every input is there unreserved, the staff row is valid and the key is new |
| ProductionService.CancelProductionJob | packages/sim/src/services/production.ts:625-768 | cancelling a job releases its inputs |
| ProductionService.CompleteDueProductionJobs | packages/sim/src/services/production.ts:770-953 | the completion loop over the due jobs, stopped by the first throw |
| Effects.CompletedJob | packages/sim/src/services/production.ts:820-953 | a completed job takes its inputs out of stock and reservation, adds runs times the output quantity, and records its tick; every other row stays |
| ProductionService.StartProfitableProduction | packages/sim/src/services/production.ts:955-1055 | the auto-start loop goes on in the same transaction after a failed creation |
| Effects.AutoStarted | packages/sim/src/services/production.ts:955-1055 | a company with unreserved cash and no running job starts one run of the first recipe that pays and can start; one without either starts nothing |
| ProductionBooks.UseInputsEffect | packages/sim/src/services/production.ts:541-556 | applying the requirements row by row changes each row by all that is needed of its item and no other row |
| ProductionBooks.JobReservationsHold | packages/sim/src/services/production.ts:696-728 | the inputs of a running job are always reserved for it: release and consume find every row they need |
| ProductionBooks.CreateJobKeepsBooks | packages/sim/src/services/production.ts:501-612 | creating a job keeps every reservation backed |
| ProductionBooks.CancelJobKeepsBooks | packages/sim/src/services/production.ts:650-768 | a cancel of an existing job always goes through and keeps the books |
| ProductionBooks.CompleteJobKeepsBooks | packages/sim/src/services/production.ts:820-953 | a due job is completed, or throws if and only if its net output is positive and does not fit |
| ProductionBooks.CreateJobLeaks | packages/sim/src/services/production.ts:524-569 | a failed creation leaves something written if and only if it reached the reservation, the recipe has inputs, and the company's workforce row is invalid or the job's key is taken |
| ProductionBooks.StartEachKeepsBooks | packages/sim/src/services/production.ts:1027-1052 | from books that balance, a skipped recipe leaves the tables unchanged, the count is the number of jobs created and at most maxJobs, and only a taken key ends the loop with an error |
| ProductionBooks.AutoStartKeepsBooks | packages/sim/src/services/production.ts:955-1052 | the same for the whole auto-start of a company |
| Roundtrips.CreateThenCancelJob | packages/sim/src/services/production.ts:388-768 | a job created and cancelled gives every input back |
| Roundtrips.ShipThenRecall | packages/sim/src/services/shipments.ts:296-674 | a shipment sent and recalled gives the goods back to the row they came from and leaves only the fee paid |
| Effects.SentShipment | packages/sim/src/services/shipments.ts:420-531 | a shipment arrives after the least number of ticks that covers the travel time of the route times 10000 minus the bonus of the logistics staff, in ten-thousandths |
| Effects.SentShipmentCosts | packages/sim/src/services/shipments.ts:449-545 | it takes its goods out of the row they lay in and costs the base fee and the fee per unit, posted in one entry |
| Admission.ShipmentSentIff | packages/sim/src/services/shipments.ts:296-531 | a shipment is sent exactly if its quantity is positive, the route exists and leads elsewhere, nothing locks it, and unreserved stock and unreserved cash cover goods and fee |
| Effects.ArrivedShipment | packages/sim/src/services/shipments.ts:704-790 | a due shipment enters the destination if it has room, the origin if only that has, and stays in transit otherwise |
| Roundtrips.ClosedShipmentIsInert | packages/sim/src/services/shipments.ts:553-793 | the goods of a shipment enter a store once: after it was recalled or delivered, in whatever state a run then reaches, another cancel or a delivery of it changes nothing |
| CompanyServices.DeliverDueShipments | packages/sim/src/services/shipments.ts:676-793 | the delivery loop delivers, returns or leaves each due shipment, counts the first two, and throws on an error other than a full store |
| Delivery.DeliverySplitsTheList | packages/sim/src/services/shipments.ts:676-793 | over shipments of something delivery completes; delivered, returned and still in transit make up the due list; no store ends above the larger of what it held and what it may hold |
| Delivery.EachMeetsItsFate | packages/sim/src/services/shipments.ts:704-790 | a due shipment is closed in this tick exactly if it arrived somewhere, and its row is untouched otherwise |
| Delivery.DeliveredStock | packages/sim/src/services/shipments.ts:720-775 | every store ends with what it held plus the full quantity of each shipment that landed there |
| Delivery.DeliveryCompletesIff | packages/sim/src/services/shipments.ts:676-793 | delivery completes if and only if no due row has a negative quantity, the one storage error that is not about room |
| Delivery.FateAtItsTurn | packages/sim/src/services/shipments.ts:704-790 | a due shipment is left in transit if and only if, at its turn, neither its destination nor its origin has room; it returns if and only if only the origin has; one left in transit has no room at the end of the loop either |
| Delivery.OthersUntouched | packages/sim/src/services/shipments.ts:676-702 | rows outside the due list do not change |
| Database.Tables.StoredQuantity | packages/sim/src/services/buildings.ts:596-606 | the loop over the rows adds up a company's stock in a region |
| Database.Tables.ActiveWarehouses | packages/sim/src/services/buildings.ts:549-581 | the loop over the buildings counts the active warehouses of a company in a region |
| Database.Tables.HasRoom | packages/sim/src/services/buildings.ts:583-636 | the storage check passes exactly when current stock plus the quantity is within capacity |
| StorageTheory.SettleMatchWithin | packages/sim/src/services/market-matching.ts:296-315 | a settlement leaves every store within the larger of what it held and its capacity |
| StorageTheory.CompleteJobWithin | packages/sim/src/services/production.ts:860-918 | so does a job completion, whose check is on the net quantity |
| TickTheory.RunTickBoundsStores | packages/sim/src/services/tick-engine.ts:267-305 | no tick ends with a store above the larger of what it held before and what it may hold afterwards |
| Contracts.UnitPriceInBand | packages/sim/src/services/contracts.ts:225-247 | the unit price is at least one cent and within the band around the base price, on the side the tick and the sequence choose |
| Contracts.UnitPriceExact | packages/sim/src/services/contracts.ts:238-247 | the price is the base price moved by its band share, rounded towards zero, up on even and down on odd turns, and one cent at the least |
| Contracts.Truncate | packages/sim/src/services/contracts.ts:236-246 | division truncates toward zero on either sign |
| Roundtrips.AcceptedForGood | packages/sim/src/services/contracts.ts:365-560 | once a seller has accepted, in whatever state a run then reaches, the contract is that seller's, nobody accepts it again and nobody else delivers on it |
| DealServices.FulfilContract | packages/sim/src/services/contracts.ts:462-768 | a fulfilment moves stock, cash and the remainder, or throws; its stock update names no region, so it also throws when another region holds an identical row |
| CompanyEffects.FulfilledContract | packages/sim/src/services/contracts.ts:576-714 | a fulfilment moves the units from the row of the seller to that of the buyer and price times quantity the other way, lowers the remainder by them, and closes the contract exactly when nothing remains |
| DealServices.ExpireContracts | packages/sim/src/services/contracts.ts:770-798 | one update closes every open contract that has expired |
| CompanyEffects.ExpiredContracts | packages/sim/src/services/contracts.ts:770-798 | a contract is closed as expired, at this tick, exactly if it was offered, accepted or partly fulfilled and its expiry tick has come; every other row is unchanged |
| CompanyEffects.GeneratedOffers | packages/sim/src/services/contracts.ts:835-880 | each turn of the generator whose buyer has the cash adds one offer of the item, quantity, price, buyer and expiry that tick and turn determine, on a fresh key, and no other row changes |
| CompanyEffects.LivedContracts | packages/sim/src/services/contracts.ts:882-894 | the contract stage expires first and then generates for as many turns as are configured |
| CompanyEffects.AcceptedContract | packages/sim/src/services/contracts.ts:407-419 | an accepted contract has its seller, its status and its tick, and all else as it was |
| Admission.ContractAcceptedIff | packages/sim/src/services/contracts.ts:394-425 | a contract is accepted exactly while it is offered, before its expiry tick, without a seller, and its buyer is a company that nobody plays or owns |
| DealServices.RunContractLifecycle | packages/sim/src/services/contracts.ts:800-894 | expiry first, then the generation loop, which skips an offer its buyer could not pay |
| DealSteps.FulfilBacked | packages/sim/src/services/contracts.ts:574-678 | a fulfilment keeps remaining plus fulfilments equal to the original quantity, the seller fixed, and nothing delivered at or after the expiry tick |
| DealSteps.AcceptBacked | packages/sim/src/services/contracts.ts:397-419 | accepting changes no terms and touches no contract that has deliveries |
| CompanyBooks.FulfilKeepsBooks | packages/sim/src/services/contracts.ts:562-678 | a fulfilment keeps every reservation backed, whatever cash it spends |
| Audits.FulfilmentKeepsTotalCash | packages/sim/src/services/contracts.ts:616-652 | a settlement leaves total cash as it was; the seller receives price times delivered quantity and the buyer pays it |
| Solvency.FulfilSolventIff | packages/sim/src/services/contracts.ts:569-572 | a fulfilment keeps reserved cash covered if and only if the buyer's unreserved cash covers the payment, or the buyer pays itself |
| Witnesses.FulfilmentCanOverdraw | packages/sim/src/services/contracts.ts:569-572 | a concrete healthy world in which a fulfilment leaves reserved cash above cash |
| Overflow.FulfilledIff | packages/sim/src/services/contracts.ts:462-614 | a fulfilment goes through if and only if every check before its writes passes and the seller's row has no twin in another region |
| Overflow.TwinRowRefusesIff | packages/sim/src/services/contracts.ts:574-592 | a fulfilment that passes every check is refused if and only if the seller holds an identical row of the item in another region |
| Witnesses.TwinRowCanRefuse | packages/sim/src/services/contracts.ts:574-592 | a concrete healthy world in which a twin row refuses a delivery that every check allows |
| Overflow.FulfilmentBoundedIff | packages/sim/src/services/contracts.ts:594-614 | a fulfilment keeps every store within bounds if and only if a company delivers to itself or the buyer's store has room for the delivery |
| Witnesses.FulfilmentCanOverfill | packages/sim/src/services/contracts.ts:594-614 | a concrete healthy world with a full store that a fulfilment puts above its capacity |
| Overflow.RecallBoundedIff | packages/sim/src/services/shipments.ts:590-640 | a cancelled shipment keeps every store within bounds if and only if it was no longer in transit or its origin has room for it |
| Witnesses.RecallCanOverfill | packages/sim/src/services/shipments.ts:590-640 | a concrete healthy world with a full store that the recall of a shipment puts above its capacity |
| Witnesses.SelfSaleCanUnbalance | packages/sim/src/services/contracts.ts:616-730 | a concrete healthy world in which a company accepts and fulfils its own offer and a wrong balance is recorded |
| Payroll.ApplyDuration | packages/sim/src/services/workforce.ts:362-372 | the duration is scaled and rounded up, never to zero for a positive duration and never above it |
| Roundtrips.AllocationAcceptedIff | packages/sim/src/services/workforce.ts:478-515 | an allocation is accepted if and only if the company exists and the four shares are percentages that make up the whole; a refused one writes nothing |
| Roundtrips.LastAllocationCounts | packages/sim/src/services/workforce.ts:478-515 | of two allocations only the last counts, and neither touches capacity or efficiency |
| Roundtrips.MoreStaffIsNoSlower | packages/sim/src/services/workforce.ts:311-372 | at the same capacity and efficiency, a larger share for a function never makes its durations longer |
| Roundtrips.HireThenArrive | packages/sim/src/services/workforce.ts:517-723 | hired heads are paid for at once, change nothing before they are due, and arrive exactly once |
| Roundtrips.HireThenLayOff | packages/sim/src/services/workforce.ts:517-670 | laying off the heads that arrived brings capacity back to what it was, and no cash |
| CompanyEffects.HiredStaff | packages/sim/src/services/workforce.ts:614-658 | hiring costs the recruitment cost of each head at once and books the heads for the tick after the hiring delay |
| CompanyEffects.LaidOffStaff | packages/sim/src/services/workforce.ts:584-600 | a layoff takes the heads at once and lowers efficiency by the penalty, to zero at the least |
| Admission.CapacityRequestedIff | packages/sim/src/services/workforce.ts:517-625 | a change of staff is accepted exactly within the absolute and the relative limit of a request, with the unreserved cash for a hire and the heads for a layoff |
| CompanyEffects.AllocatedStaff | packages/sim/src/services/workforce.ts:492-513 | an accepted allocation is the one asked for, and nothing else changes |
| CompanyServices.ApplyDueHirings | packages/sim/src/services/workforce.ts:672-723 | the loop applies each due hiring once |
| CompanyServices.RunWorkforceForTick | packages/sim/src/services/workforce.ts:725-842 | hirings, then for each company the salary that unreserved cash allows and the next efficiency |
| CompanyEffects.PaidSalary | packages/sim/src/services/workforce.ts:789-840 | a company pays heads times base salary times the modifier of its region, or its unreserved cash where that is less, posted in one salary entry |
| CompanyEffects.MovedEfficiency | packages/sim/src/services/workforce.ts:800-827 | efficiency falls by the shock of the hirings of the last ticks, by the penalty of a low corporate share and by that of an unpaid salary, rises by the recovery, and stays between 0 and 10000 |
| CompanyServices.EfficiencyAfter | packages/sim/src/services/workforce.ts:768-794 | efficiency moves by hiring shock, low corporate share, salary shortfall and recovery, and stays in range |
| CompanyBooks.PaySalaryKeepsBooks | packages/sim/src/services/workforce.ts:740-840 | paying a company always goes through, never spends reserved cash, and keeps the workforce row valid |
| Roundtrips.AcquiredWarehouse | packages/sim/src/services/buildings.ts:203-294 | a new warehouse adds its slot to exactly one store of one company, and is due for a charge exactly from the seventh tick on |
| CompanyServices.ApplyBuildingOperatingCosts | packages/sim/src/services/buildings.ts:296-421 | the loop charges each due building, or shuts it down when unreserved cash does not cover the cost |
| CompanyEffects.AcquiredBuilding | packages/sim/src/services/buildings.ts:231-279 | a building is paid at its price and stands active in the name of its company, charged up to this tick |
| CompanyEffects.ChargedBuilding | packages/sim/src/services/buildings.ts:307-400 | an active building never charged, or not for seven ticks, pays its weekly cost, or is shut down free of charge where unreserved cash falls short; any other is left alone |
| Admission.BuildingAcquiredIff | packages/sim/src/services/buildings.ts:203-264 | a building is acquired exactly if costs are not negative, company and region exist and unreserved cash covers the price |
| Admission.BuildingReactivatedIff | packages/sim/src/services/buildings.ts:423-455 | a building is reactivated exactly if it exists and is inactive |
| Roundtrips.ShutThenReopen | packages/sim/src/services/buildings.ts:336-463 | a building shut down takes its room with it and is not charged; reopened it gives back the same room, pays nothing for the gap, and is due again exactly from the seventh tick on |
| CompanyBooks.ChargeThrows | packages/sim/src/services/buildings.ts:336-352 | a charge throws if and only if the building is due and its company has more cash reserved than it has |
| CompanyBooks.ChargesThrowIff | packages/sim/src/services/buildings.ts:296-421 | charging a list of buildings throws if and only if it holds such a building, wherever it stands |
| Roundtrips.StudiedForGood | packages/sim/src/services/research.ts:306-610 | research that ran its time is completed in whatever state a run then reaches: its recipes stay unlocked, and it can be neither started nor cancelled again |
| Roundtrips.StudyThenAbandon | packages/sim/src/services/research.ts:306-532 | research started and cancelled leaves the node AVAILABLE and the payment made, and everything else as it was |
| DealServices.CompleteDueResearchJobs | packages/sim/src/services/research.ts:534-610 | the loop completes each due job and unlocks the recipes of its node |
| CompanyEffects.StartedResearch | packages/sim/src/services/research.ts:371-435 | starting a node costs its price and opens one job that completes after the least number of ticks covering its duration times 10000 minus the bonus of the research staff, in ten-thousandths |
| CompanyEffects.CompletedResearch | packages/sim/src/services/research.ts:561-609 | a job whose tick has come completes its node and unlocks exactly the recipes of the node for its company |
| Admission.ResearchStartedIff | packages/sim/src/services/research.ts:306-369 | research starts exactly for a player company with an owner, on a node neither completed nor running whose prerequisites are completed, with the cash for it |
| Admission.ResearchCancelledIff | packages/sim/src/services/research.ts:452-530 | research is cancelled exactly where the job named is running for that node and company |
| ResearchTheory.StartResearchSound | packages/sim/src/services/research.ts:354-422 | starting keeps completed nodes closed under prerequisites and each RESEARCHING node with exactly one running job |
| ResearchTheory.CancelResearchSound | packages/sim/src/services/research.ts:483-517 | a cancel puts the node back to AVAILABLE: the LOCKED outcome is unreachable |
| ResearchTheory.CompleteOneSound | packages/sim/src/services/research.ts:561-608 | a completion only adds to the completed nodes and leaves all their recipes unlocked |
| ResearchTheory.StoredStatusIsListed | packages/sim/src/services/research.ts:266-282 | the stored status of every row is the status the listing derives |
| ResearchTheory.AvailableIsStartable | packages/sim/src/services/research.ts:354-370 | a company that can pay can start a node if and only if the listing shows it as AVAILABLE |
| Solvency.StartResearchSolventIff | packages/sim/src/services/research.ts:367-378 | starting research keeps reserved cash covered if and only if unreserved cash covers the cost |
| Witnesses.ResearchCanOverdraw | packages/sim/src/services/research.ts:367-378 | a concrete healthy world in which starting research leaves reserved cash above cash |
| Records.AcceptRecorded | packages/sim/src/services/contracts.ts:397-419 | a contract has a seller exactly when it has an acceptance tick |
| Records.ExpireRecorded | packages/sim/src/services/contracts.ts:770-798 | a contract has a closing tick exactly when it is fulfilled or expired |
| DemandTheory.SinkTakesWhatItCan | packages/sim/src/services/demand-sink.ts:217-263 | over distinct regions the sink takes the smaller of the demand and the unreserved stock |
| DemandTheory.SinkRecordsAll | packages/sim/src/services/demand-sink.ts:231-263 | every unit taken is recorded |
| DemandTheory.EachDemandMet | packages/sim/src/services/demand-sink.ts:217-265 | each company and item gives the smaller of its demand and its unreserved stock, region after region, each region what it has free as far as the ones before it left something to ask for; what is taken is recorded |
| DemandSink.DemandFor | packages/sim/src/services/demand-sink.ts:120-147 | the demand lies between the base quantity and base plus variability |
| DemandSink.DemandGoesRound | packages/sim/src/services/demand-sink.ts:120-140 | what the demand lies above its base goes round the variability with tick and hash |
| DemandSink.ComputeStableHash | packages/sim/src/services/demand-sink.ts:98-104 | the hash loop computes the 31-ary polynomial of the character codes modulo 2^32 |
| DemandSink.HashIsPolynomial | packages/sim/src/services/demand-sink.ts:98-104 | the hash is the 31-ary polynomial of the character codes modulo 2^32 |
| CompanyServices.ConsumeItem | packages/sim/src/services/demand-sink.ts:217-263 | the innermost loop takes unreserved stock row by row until the demand is met |
| CompanyServices.RunDemandSinkForTick | packages/sim/src/services/demand-sink.ts:149-274 | the outer loops over companies and items |
| CompanyBooks.TakenIsUnreserved | packages/sim/src/services/demand-sink.ts:231-245 | what is taken is never negative, never more than the demand, and never reserved stock |
| InvariantScan.CollectCompanyInvariantIssues | packages/sim/src/services/invariants.ts:88-166 | an issue is reported if and only if its company row breaks the rule of its code |
| InvariantScan.CollectInventoryInvariantIssues | packages/sim/src/services/invariants.ts:168-204 | an issue is reported if and only if its stock row breaks the rule of its code |
| InvariantScan.NoIssuesIff | packages/sim/src/services/invariants.ts:88-204 | no row breaks a rule if and only if companies and stock are in range and cash covers what is reserved |
| RowChecks.TickIntroducesNoIssue | packages/sim/src/services/tick-engine.ts:267-305 | from any world without an invariant issue whose open orders have positive prices and whose recipes are as their table allows, a tick with any bot actions aborts or ends in such a world; nothing is asked of other columns or of what reservations are held for |
| RowChecks.HealthyInRange | packages/sim/src/services/invariants.ts:88-204 | every sound world whose cash covers what is reserved is such a world |
| Conservation.LedgerExplainsEveryCent | packages/sim/src/services/market-matching.ts:417-440 | between a state and a later one, each company's cash and reserved cash changed by exactly the entries added, and total cash by the entries that are not transfers |
| Audits.SettledAudited | packages/sim/src/services/market-matching.ts:316-440 | a settlement's two entries explain its changes and record right balances, for a self-trade too |
| Audits.TradeKeepsTotalCash | packages/sim/src/services/market-matching.ts:316-341 | a trade leaves total cash as it was, for a self-trade too |
| Audits.FulfilAudited | packages/sim/src/services/contracts.ts:616-730 | the entries of a fulfilment explain its changes; their recorded balances are right if and only if buyer and seller differ |
| Goods.SettledKeepsGoods | packages/sim/src/services/market-matching.ts:343-377 | a settlement moves goods and makes none |
| Goods.CompleteJobKeepsGoods | packages/sim/src/services/production.ts:878-918 | a completion changes stock by exactly the job's yield of each item |
| Goods.CreateShipmentKeepsGoods | packages/sim/src/services/shipments.ts:459-472 | goods put in transit leave stock |
| Goods.CancelShipmentKeepsGoods | packages/sim/src/services/shipments.ts:603-640 | a cancelled shipment's goods return to stock once |
| Goods.DeliverOneKeepsGoods | packages/sim/src/services/shipments.ts:704-790 | a delivered or returned shipment's goods enter stock once |
| Goods.TakeRowKeepsGoods | packages/sim/src/services/demand-sink.ts:231-263 | what the sink takes is recorded as eaten |
| Goods.FulfilKeepsGoods | packages/sim/src/services/contracts.ts:574-614 | a fulfilment moves goods and makes none |
| Records.PlaceOrderRecorded | packages/sim/src/services/market-orders.ts:247-340 | a new order is open, has no closing tick and nothing traded |
| Records.CancelOrderRecorded | packages/sim/src/services/market-orders.ts:410-457 | a cancelled order has a closing tick and keeps what was left of it |
| Records.SettledRecorded | packages/sim/src/services/market-matching.ts:379-415 | after a settlement every order's remainder plus its trades is still its original quantity, it is FILLED exactly when nothing is left, and the new trade's price lies between the two limits |
| Records.CreateJobRecorded | packages/sim/src/services/production.ts:557-612 | a job is due no earlier than it started and no later than the recipe's duration after that |
| Records.CompleteJobRecorded | packages/sim/src/services/production.ts:898-918 | a job has a completion tick exactly when it is no longer in progress |
| Records.DeliverOneRecorded | packages/sim/src/services/shipments.ts:704-790 | a shipment has a closing tick exactly when it is no longer in transit |
| TickService.RunTickPipeline | packages/sim/src/services/tick-engine.ts:267-305 | the ten stages in their fixed order, stopped by the first throw |
| TickService.AdvanceTick | packages/sim/src/services/tick-engine.ts:357-428 | a tick in its transaction: sound tables stay sound and follow from what they were, cover and right balances stay; no crossed book is left; a throw changes nothing |
| TickEffects.TickPasses | packages/sim/src/services/tick-engine.ts:267-305 | a completed tick ran its nine stages in this order, each on what the one before it left and on the rows listed for it |
| TickEffects.BotsActInTurn | packages/sim/src/bots/bot-runner.ts:343-625 | the bots act one after the other, each on what the one before it left, and the first refusal ends the run |
| TickEffects.BotActs | packages/sim/src/bots/bot-runner.ts:343-625 | an order a bot placed is open with its terms, one it cancelled is closed, and a company it ran has started the first recipe that pays and can start |
| TickEffects.BotsReachTheMarket | packages/sim/src/services/tick-engine.ts:291-299 | no stage between the bots and matching touches an order |
| TickEffects.OrdersServed | packages/sim/src/services/tick-engine.ts:298-299 | after a tick no order is unfilled that competed with one of which something was traded, was better priced, or equally priced and placed first; every trade is at the price of the order placed first |
| TickEffects.ShipmentsArrive | packages/sim/src/services/tick-engine.ts:300 | after a tick every shipment listed as due is delivered, or was too large at its turn, and still when the stage ended, for both its stores; no other shipment changed |
| TickEffects.SalariesPaid | packages/sim/src/services/tick-engine.ts:301 | after a tick the ledger holds exactly one new salary entry for each company on the payroll, of what it owed or, where that was less, its unreserved cash, and its cash and efficiency have moved accordingly |
| TickEffects.DemandsMet | packages/sim/src/services/tick-engine.ts:302 | after a tick what was eaten of each listed company and item grew by the smaller of the demand and the unreserved stock that the earlier stages left |
| TickEffects.ContractsExpire | packages/sim/src/services/tick-engine.ts:303 | after a tick a contract is expired exactly if it was open and its expiry tick has come, every other row is unchanged, and no open contract is past its expiry tick |
| TickEffects.OffersAdded | packages/sim/src/services/tick-engine.ts:303 | after a tick every turn of the generator whose buyer has the cash has added its offer |
| TickService.RunBotsForTick | packages/sim/src/bots/bot-runner.ts:274-625 | bot actions run one after another in the tick's transaction, and a refused one ends the tick |
| Refusals.RefusedIff | packages/sim/src/bots/bot-runner.ts:274-625 | from books that balance and with fresh keys, a bot action is refused if and only if the company it reads does not cover its reservations, its order to cancel does not exist, its placement fails a check on the tables, or its auto-start names no company whose cash covers what is reserved |
| Refusals.BotsThrowIff | packages/sim/src/bots/bot-runner.ts:343-625 | a list of actions throws if and only if one of them is refused by the tables that those before it left |
| Refusals.RefusalUndoesTheTick | packages/sim/src/services/tick-engine.ts:357-428 | such a refusal undoes the whole tick |
| Refusals.TickAbortsOnlyFor | packages/sim/src/services/tick-engine.ts:267-305 | and from any sound world a tick aborts only for such a refusal, a full store, a taken key, or, with an inconsistency, where some company's cash does not cover what is reserved of it |
| Witnesses.RefusedCancelCanUndo | packages/sim/src/bots/bot-runner.ts:343-350 | a concrete tick in which one bot's cancel of a missing order undoes the order another bot had placed |
| TickTheory.RunTickCarries | packages/sim/src/services/tick-engine.ts:267-305 | from a sound world, with any bot actions, a tick keeps everything below, or aborts because a bot action was refused, a store was full, a new row's key was taken, or, with an inconsistency, where some company's cash does not cover what is reserved of it |
| Completeness.TickLeavesNothingDue | packages/sim/src/services/tick-engine.ts:267-305 | if each stage was given every row that was due when it began, then after a completed tick no building is due for a charge, no job and no research for completion, and no hiring for its arrival |
| Reachable.CleanIsHealthy | packages/db/src/seed-world.ts:819-1096 | a seeded world before its first order, with research rows for what is completed from the start, is healthy |
| Reachable.ApplyCarries | packages/sim/src/services/tick-engine.ts:267-305 | every tick and every command but the two that spend total cash takes a sound world to a sound world that follows from it, and keeps cover and right balances |
| Reachable.RunContinues | packages/sim/src/services/tick-engine.ts:350-440 | every run of commands and ticks, whatever it spends, goes from a sound world to a sound world that follows from it: ledger, goods, closed rows, contracts and research agree with where it began |
| Reachable.CoverKeptIff | packages/sim/src/services/contracts.ts:569-572 | over all commands, cash stops covering what is reserved of it if and only if a fulfilment or a research start spends more than is unreserved |
| Reachable.BalancesKeptIff | packages/sim/src/services/contracts.ts:616-730 | over all commands, right balances are lost if and only if a company settles a contract with itself |
| Reachable.RunStaysHealthy | packages/sim/src/services/tick-engine.ts:350-440 | a run none of whose completed commands does either keeps the whole of health |
| CommandService.RunCommand | packages/sim/src/services/market-orders.ts:156-163 | any command in its transaction over the tables: it commits what its function says or changes nothing; sound tables stay sound |
| Reachable.ReservationsAreExact | packages/sim/src/services/market-orders.ts:239-340 | in every sound world reserved cash is remaining times price over the open buys, and reserved stock is the open sells' remainders plus inputs times runs of the running jobs |
| Consistency.ConsistentIffCovered | packages/sim/src/services/market-matching.ts:218-294 | the consistency checks are silent over all commands and ticks from a sound world if and only if every company's cash covers what is reserved of it |
| Consistency.UncoveredThrows | packages/sim/src/services/buildings.ts:203-294 | and where one does not, every attempt of that company to acquire a building fails one |
| Consistency.StageStepsConsistent | packages/sim/src/services/market-matching.ts:218-294 | inside a tick, a completion never fails a consistency check, a settlement does if and only if the buyer's cash does not cover the rest of its reservations, and a charge if and only if it is due from a company that does not cover them |
| Witnesses.OverspentCrossingAborts | packages/sim/src/services/market-matching.ts:218-294 | a concrete run: a company of a healthy world researches out of its reserved cash, and from then on the crossing of its own bid and offer aborts the tick |
| Witnesses.OverspentChargeAborts | packages/sim/src/services/buildings.ts:336-352 | the same run, and the weekly charge of its building aborts the tick |
| TickProtocol.RunsAreSerial | packages/sim/src/services/tick-engine.ts:357-440 | whatever the interleaving of advances, each commit starts where the one before it ended, in tick and in lock version |
| Concurrency.InterleavingsAreSerial | packages/sim/src/services/tick-engine.ts:357-440 | however workers and users interleave, the tables are those of the committed commands run one after another, the ticks among them numbered on without gap or repeat: an advance that loses its race, finds its key taken or throws leaves no trace; a job whose keys are retried in time makes at most its batch of those ticks, and exactly its batch once each key was executed |
| Concurrency.InterleavingsContinue | packages/sim/src/services/tick-engine.ts:357-440 | and sound tables are sound after every interleaving and follow from what they were |
| TickProtocol.OneStepOneTick | packages/sim/src/services/tick-engine.ts:396-414 | a step raises tick and version by one together or changes neither; an advance that read an older version writes nothing |
| TickProtocol.RepeatsAreLate | packages/sim/src/services/tick-engine.ts:369-389 | a key that advances the world again does so at least a retention period after it did before |
| TickProtocol.RepeatAtTheBound | apps/worker/src/worker-loop.ts:252-269 | and that bound is sharp: for every retention period there is a run in which a key advances the world again exactly then |
| TickProtocol.TriedInTimeIff | apps/worker/src/worker-loop.ts:103-107 | trying a key before the tick reaches an execution plus the retention period is something the caller decides at each try: no other step can break it |
| TickProtocol.RunTriedInTimeIff | apps/worker/src/worker-loop.ts:228-250 | so over a run a key was always tried in time if and only if each of its tries came in time |
| TickProtocol.AtMostOnce | packages/sim/src/services/tick-engine.ts:369-389 | a key that was always tried in time has advanced the world at most once, wherever the tick is now, and exactly once if it was executed at all |
| TickProtocol.BatchExactlyOnce | apps/worker/src/worker-loop.ts:228-250 | over all attempts at a job, after any partial progress, its keys, each retried in time, advance the world at most as often as the batch is long, and exactly as often once each was executed |
| WorkerLoop.Tables.AdvanceSimulationTick | packages/sim/src/services/tick-engine.ts:357-440 | with nobody else about the answer is stale for another expected version, skipped for a key already executed, failed with the pipeline, and otherwise one tick and one version more with the key remembered; among other transactions it fails only with the pipeline, is stale only for another expected version or for a foreign advance, and moves or skips only what was executed |
| WorkerLoop.Tables.RunSingleTickWithRetries | apps/worker/src/worker-loop.ts:162-191 | only a stale version is retried, at most maxConflictRetries times, each retry is due to a foreign advance, and it throws only for the pipeline or once there were more foreign advances than retries; met by nobody, the first try decides |
| WorkerLoop.Tables.RunTicks | apps/worker/src/worker-loop.ts:228-250 | the loop over a batch stops only at a pause or an error, and an error is a failed pipeline or more foreign advances than retries; with nobody else about it advances every tick |
| WorkerLoop.Tables.CleanExecutions | apps/worker/src/worker-loop.ts:252-270 | the cleanup runs exactly every so many ticks, and deletes exactly the execution rows that are a retention period old |
| WorkerLoop.Tables.RunBatch | apps/worker/src/worker-loop.ts:228-269 | a batch breaks only at a pause and throws only for a pipeline or more foreign advances than retries; one that does neither has executed every key of its job, and with its keys retried in time all attempts together advanced the world by exactly the batch; met by nobody, with unused keys, it advances every tick; a pause still cleans up |
| WorkerLoop.RunWorkerIteration | apps/worker/src/worker-loop.ts:193-277 | an iteration is refused exactly where the lease row is there, unexpired, and still there at the insert, and then changes nothing; it never keeps the lease, and one that ends before its lease expires was alone under it; met by nobody it ends with the whole batch advanced; a pause at the start changes nothing; a batch neither paused nor stopped leaves the job with exactly its batch |
| WorkerLoop.Tables.BatchDone | apps/worker/src/worker-loop.ts:166-188 | with its keys retried in time, a job has advanced the world at most, and once each key was executed exactly, its batch |
| WorkerLoop.Tables.AdvanceSimulationTicks | packages/sim/src/services/tick-engine.ts:470-492 | a loop of advances makes as many as asked or stops at the first that does not advance, keeping what was committed; met by nobody it makes them all; only the first checks the expected version |
| Lease.LeaseTable.Acquire | apps/worker/src/simulation-lease.ts:25-67 | acquiring is a conditional update and then an insert, with other workers' statements in between; it succeeds exactly when one of them writes the caller's row |
| Lease.LeaseTable.ReleaseLease | apps/worker/src/simulation-lease.ts:69-81 | a release removes the row of that name and owner and no other |
| Lease.RunsAreSound | apps/worker/src/simulation-lease.ts:32-66 | in every interleaving each grant found no row, an expired one, or its owner's own |
| Lease.LeaseExcludes | apps/worker/src/simulation-lease.ts:32-66 | a successful acquire excludes every other of its name until its expiry, or its owner's release or re-entry: whichever comes later takes effect at or after the expiry |
| Lease.NextGrantReadsExpiry | apps/worker/src/simulation-lease.ts:32-48 | the next grant of the name has even read a time at or past the expiry |
| Lease.LaterGrantMayReadEarlier | apps/worker/src/simulation-lease.ts:32-66 | a concrete run in which a grant after that read its time before the expiry |
| Lease.OthersKeepLease | apps/worker/src/simulation-lease.ts:32-81 | until it expires, whatever others do, a lease row stays and nobody else is granted the name or releases it |
| Lease.LateReleaseIsHarmless | apps/worker/src/simulation-lease.ts:69-81 | a late release never removes a different owner's lease |
| Candles.ComputeTickCandles | packages/sim/src/services/market-candles.ts:95-159 | one candle per region and item that traded, in key order; invalid rows are refused |
| Candles.BuildCandle | packages/sim/src/services/market-candles.ts:121-156 | open and close are the prices of the earliest and latest trade, high and low the extremes, volume and count the totals, vwap the rounded average |
| Candles.CandleInRange | packages/sim/src/services/market-candles.ts:129-156 | low is positive and at most open, close and vwap, which are at most high; vwap is within half a cent of exact |
| Candles.CandlesPartition | packages/sim/src/services/market-candles.ts:105-156 | volumes add up to the traded quantity and counts to the number of trades |
| Candles.Summarise | packages/sim/src/services/read-models.ts:604-690 | the window loop computes last price, change, extremes, volume, vwap, and the average volume to the nearest integer, a half upwards |
| Candles.ChangeIsNearest | packages/sim/src/services/read-models.ts:664-674 | the change in basis points is the nearest integer, on either sign |
| Candles.WindowWithinACent | packages/sim/src/services/read-models.ts:637-660 | the window price built from rounded candle prices is within one cent of the exact price of the underlying trades |

## Left out

- The web application, controllers, authentication, data transfer objects and read models other than the analytics
  window.
- The database, queue, cache, timers and back-off delays: replaced by atomic statements, transactions and an
  abstract clock.
- Administrative rewrites (support tooling, reset, seeding, catalogue synchronisation): taken only as the clean
  world a run begins in.
- The bot strategies: a bot is any sequence of looks at its cash, cancels, placements and auto-starts.
- Cursor encoding, filters, limits and the `truncated` flag of the listings and of the invariant scan.
- The finance summary over the ledger: the ledger theorems are about the entries themselves.
- Writing candles to their table: they are computed from the trades and nothing reads them back inside a tick.
- Order-independence of production completion and shipment delivery: their sort keys leave ties, so results are
  proved for every order.
- The order in which market groups are settled: results are proved for every order of the groups.
- The key order of candles compares region and item numbers, not the concatenated key text.
- Integer overflow of 32-bit columns.
- Concurrency.InterleavingsAreSerial: a pipeline takes effect when it commits. Which rows it could see of a user's
  command committed between two of its own statements is the database's isolation level, which is not modelled.
