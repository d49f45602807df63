# Verified model of the ARC limit-order engine

ARC trades five-minute prediction markets. This project models, in Dafny, the parts of it where an
error would lose or duplicate money, and proves what they promise for every input, every venue answer
and every crash point.

- **Orders against a venue** (`orders`, `backend`, `chains`, `submit`, `reprice`, `sweep`, `fills`,
  `reconcile`, `runs`, `forgetting`). Every operation is specified by the list of effects it performs (save a row, save a fill,
  ask the venue), and every imperative method is proved to perform exactly that list: the store and venue handle keeps a
  ghost journal. A crash is a prefix of the list. `chains.dfy` says when one effect is lawful; every
  operation is proved lawful for arbitrary venue answers, and `runs.dfy` puts them together
  over arbitrary runs with crashes and restarts. `forgetting.dfy` says exactly when such a run ends with a
  closed row for an order that still works.
- **The paper venue and the loop** (`paper`, `paperloop`, `looporder`). The matching loop on its own, then
  runs of trades, polls, reprices and sweeps with the answers this venue really gives, and last the passes
  of the main loop as it orders them.
- **The MAJORITY decision** (`trigger`, `risk`, `watch`, `majority`, `majorityrun`, `majorityengine`, `majorityreach`).
  Entry conditions, the separate later read, the side lock, the nineteen gates, the twelve-check boundary, the
  intent, and reconstruction at restart.
- **Supporting pieces** (`money`, `split`, `bucket`, `rotation`, `ptb`, `ledger`, and `text`, `ids`,
  `decimals`, `lists`, `settings` for identities and settings rows).

An identity is the datatype `OrderId`; `ids.dfy` proves its text form injective, so the dictionaries
keyed by text are modelled as maps keyed by it. Decimals are exact reals in arithmetic and coefficient
and scale where their text matters. Clock readings are reals handed in by the caller. What the venue,
the feeds and the health checks say is a parameter, so every theorem is for all of it.

Where the code and its own comments disagree, the model follows the code:

- `recovery.py` says a PENDING row cannot be resting at the venue; after a crash between the venue's
  acceptance and the save it can, and the row is expired all the same (`Runs.ExpiryForgetsWorkingOrder`). It is
  right about every other row (`Forgetting.ExpiryForgetsExactly`, `Forgetting.UnsettledExactlyWhen`).
- `reconcile.py` takes the venue's filled figure because fills may have arrived while the process was down; the
  same fills are polled in afterwards and added again (`Runs.DowntimeFillCountsTwice`, `Reconcile.FillsBeforeReconcile`).
- `store.save_settings` says it replaces the settings; it updates only the keys it is given, so an old
  single-window key survives and returns when the window list is emptied (`Settings.SavedComesBack`,
  `Settings.EmptiedIsReached`).
- A reprice is meant to wait out its patience at each price; a successor whose placement was not
  acknowledged inherits a spent counter (`Runs.EarlyExactlyWhenInherited`, `Runs.LostPlacementLosesPatience`).
- `split_size` promises every part clears the minimum; that holds exactly for minimums that are
  multiples of the step (`Split.MinimumRespectedIff`).
- The engine's comments say the price-to-beat gate denies without a price; no gate reads it
  (`Risk.PriceToBeatIsIgnored`).
- The loss gate reads 200 settlements and the panel 10000, so their streaks can differ
  (`Ledger.StreaksAgreeIff`).

## Model

| member | source | states |
|---|---|---|
| Ids.OrderTextInjective | arc/execution/orders.py:104-147 | order ids are injective over engine, market, window, index and generation when engine and market hold no colon, although the default engine has no prefix |
| Ids.ColonCollides | arc/execution/orders.py:104-147 | the colon-free condition is needed: two different orders with one id text |
| Ids.NextGenerationAdvances | arc/execution/orders.py:149-160 | advancing an id text advances exactly the generation, and index and generation read back as the numbers they were |
| Ids.SuccessorIdIsNext | arc/execution/reprice.py:182-197 | the id the repricer derives from the order's own texts is the next generation of the same chain |
| Ids.MatchIsMarket | arc/execution/v1_paper.py:145-152 | the paper venue's text tests select exactly the market's orders and name the engine that placed them, for a market name that is no numeral of an id and not that engine's name |
| Ids.NumeralMisfires | arc/execution/v1_paper.py:145-152 | a market named by a numeral as ids write it, such as "45" but not "007", matches every order of that window or index, whatever its market |
| Ids.EngineNameMisfires | arc/execution/v1_paper.py:145-152 | a market named as an engine with a prefix matches every order of that engine |
| Ids.MatchExactlyWhen | arc/execution/v1_paper.py:145-152 | over all orders of an engine the test selects exactly the market's if and only if its name is no such numeral and not that engine's prefix |
| Orders.StateMachineShape | arc/execution/orders.py:62-102 | live and terminal partition the states; exactly the live ones have a way out; a fill moves a live order forward within its size |
| Orders.Order.constructor | arc/execution/orders.py:163-198 | an order object carries the row it is made from |
| Orders.Order.Transition | arc/execution/orders.py:200-218 | the move is made if the table allows it; otherwise it raises and nothing changes |
| Orders.Order.ApplyFill | arc/execution/orders.py:221-239 | a fill is refused on a terminal order or when not positive; otherwise it is added, capped at the size, and the state is FILLED or PARTIAL by the result |
| Money.FloorToIsGreatest | arc/domain/money.py:70-82 | flooring yields the greatest multiple of the step not above the value |
| Money.FixedIffOnGrid | arc/domain/money.py:85-92 | a price is unchanged by flooring exactly when it lies on the tick grid |
| Money.SharesFitBudget | arc/domain/money.py:104-121 | the share count fits the budget and one step more would not; each refusal has its cause |
| Split.SplitSize | arc/execution/submit.py:59-108 | the ladder is the even division of the floored total; every refusal and every empty ladder where the code has them |
| Split.Deal | arc/execution/submit.py:96-108 | the dealing loop ends in fewer rounds than parts and leaves no dust |
| Split.LadderConserves | arc/execution/submit.py:59-108 | parts sum to the step-floor of the total, do not increase, and differ by at most one step |
| Split.MultipleClears | arc/execution/submit.py:86-95 | with a minimum of whole steps every part clears it and one part more would not |
| Split.MinimumRespectedIff | arc/execution/submit.py:90-95 | the minimums that every ladder respects are exactly the multiples of the step |
| Backend.Backend.constructor | arc/storage/store.py:618-654 | a store and a venue as some earlier process left them |
| Backend.Backend.SaveOrder | arc/storage/store.py:618-654 | upsert by id: price, size, side and owner are written once, progress is overwritten |
| Backend.Backend.SaveFill | arc/storage/store.py:729-762 | insert or ignore by fill id, reporting novelty |
| Backend.Backend.SaveIntent | arc/storage/store.py:497-545 | insert or ignore by engine, market and window, reporting novelty |
| Backend.Backend.Place | arc/execution/protocol.py:49-55 | the venue takes the id on exactly when its answer, told or lost, says so |
| Backend.Backend.Cancel | arc/execution/protocol.py:57-58 | an id counts as retracted only on an acknowledgement |
| Backend.Backend.List | arc/storage/store.py:666-700 | each matching row of the market once |
| Chains.GoodKeepsInv | arc/execution/orders.py:200-239 | every lawful effect keeps the chain invariant where it happens |
| Chains.SafeAtEveryCrash | arc/execution/submit.py:237-293 | a sound list of effects is safe after any prefix of it |
| Chains.ExposureConserved | arc/execution/reprice.py:126-225 | filled sizes of earlier generations plus the last one's size are exactly the approved size |
| Chains.OneLivePerChain | arc/execution/reprice.py:126-225 | a chain has at most one live order |
| Chains.OneWorkingPerChain | arc/execution/reprice.py:126-225 | at most one order of a chain can be working at the venue, whatever answers were lost |
| Chains.PricePath | arc/execution/reprice.py:74-93 | generation k rests exactly k ticks from the first price, in the band, with at most three successors |
| Chains.GridPath | arc/execution/reprice.py:74-93 | a chain that starts on the tick grid stays on it |
| Chains.NoSuccessorBeforeCancel | arc/execution/reprice.py:150-197 | only a cancelled order has a successor |
| Submit.SettledTells | arc/execution/retry.py:62-96 | the recorded state tells the answer: SUBMITTED, INDETERMINATE or REJECTED; an order the venue took is never REJECTED |
| Submit.RetriesBounded | arc/execution/submit.py:237-293 | at most six requests, all but the last answered by a transient reject: an unknown outcome is never retried |
| Submit.EndsOnRecord | arc/execution/submit.py:262-293 | the loop ends by recording the answer it ended on, and ends early only on an answer that is no transient reject |
| Submit.PlaceOneSound | arc/execution/submit.py:237-293 | persist then send is sound; a replay of an order on record sends nothing |
| Submit.SubmitSound | arc/execution/submit.py:195-235 | submission is sound whatever the venue answers, first run or replay |
| Submit.SubmitDoes | arc/execution/submit.py:195-293 | refused outside ACTIVE or where the size does not divide; otherwise every part is an order on record with the answer its sending ended on, at the venue exactly when that answer says so, one on record before is left alone, and nothing else is touched |
| Submit.Submitter.constructor | arc/execution/submit.py:126-161 | a submitter bound to its store, venue, minimum, step and engine |
| Submit.Submitter.Settle | arc/execution/submit.py:262-292 | the answer is recorded on the order and saved |
| Submit.Submitter.Send | arc/execution/submit.py:248-293 | the retry loop performs exactly the effects of the specification |
| Submit.Submitter.PlaceOne | arc/execution/submit.py:237-308 | an existing row is returned untouched; a new one is saved before it is sent |
| Submit.Submitter.PlaceNext | arc/execution/submit.py:215-235 | one more row of the ladder after the ones before |
| Submit.Submitter.PlaceAll | arc/execution/submit.py:215-235 | the rows in turn |
| Submit.Submitter.Submit | arc/execution/submit.py:195-235 | refusal outside ACTIVE, the ladder's refusals, or one order per part, on record |
| Reprice.RepriceDoes | arc/execution/reprice.py:126-225 | an order asks to cancel exactly when it rests with retries left and its patience spent, the best price is readable and not its own, and one tick on is positive and in its window's band; otherwise nothing changes; then, by the venue's answers, the unfilled quantity is placed one tick on under the next id, or the order is CANCELLED, INDETERMINATE or as it was |
| Reprice.MovesExactlyWhen | arc/execution/reprice.py:126-225 | the same condition on one call alone, with the pass counter it leaves: pruned, counted, or reset by an accepted successor |
| Reprice.RepriceSound | arc/execution/reprice.py:126-225 | a reprice is sound whatever the venue answers, at every crash point |
| Reprice.RepriceHandsBack | arc/execution/reprice.py:126-225 | the returned order is on record as returned and nothing else of its chain is live |
| Reprice.RepriceAllSound | arc/runtime/engine.py:1346-1367 | a whole pass over a market is sound |
| Reprice.PassReachesEach | arc/runtime/engine.py:1346-1367 | a pass does for every order it visits, and leaves of its counter, what one call on that order alone would |
| Reprice.OpenOrdersAreApart | arc/runtime/engine.py:1346-1367 | the orders one pass visits belong to different chains, so no copy read at its start goes stale |
| Reprice.Repricer.constructor | arc/execution/reprice.py:96-124 | no pass has been counted |
| Reprice.Repricer.NextId | arc/execution/reprice.py:182-242 | the successor's id by text is the next generation |
| Reprice.Repricer.MaybeReprice | arc/execution/reprice.py:126-225 | effects, counters and returned order are the specified ones; an order that may not move is returned with nothing done |
| Reprice.Repricer.MoveTo | arc/execution/reprice.py:150-225 | cancel, then place |
| Reprice.Repricer.Unanswered | arc/execution/reprice.py:152-168 | a cancel of unknown outcome makes the order INDETERMINATE; a refused one changes nothing |
| Reprice.Repricer.Relocate | arc/execution/reprice.py:169-225 | a confirmed cancel is recorded and the remainder placed |
| Reprice.Repricer.Replace | arc/execution/reprice.py:198-225 | the successor is saved, sent once, and its answer saved |
| Reprice.Repricer.SetAnswer | arc/execution/reprice.py:203-222 | the answer decides the successor's state |
| Reprice.Repricer.Unfilled | arc/execution/fill_engine.py:137-141 | the live orders with quantity outstanding that a repricer still serves, each once |
| Reprice.Repricer.RepriceOpen | arc/runtime/engine.py:1346-1367 | one pass performs exactly the specified effects and counts |
| Sweep.SweepSound | arc/execution/sweep.py:67-143 | a sweep is sound whatever the venue answers, at every crash point |
| Sweep.SweepLeavesOnlyUnknown | arc/execution/sweep.py:67-110 | after a full sweep an in-scope order is live exactly when reported unknown; each live one is EXPIRED if never sent, CANCELLED if the cancel was taken or refused for good, INDETERMINATE otherwise; all else is unchanged |
| Sweep.ReportMembers | arc/execution/sweep.py:78-110 | each list of the report holds exactly the orders of its verdict |
| Sweep.Sweeper.constructor | arc/execution/sweep.py:51-66 | a sweeper bound to its store and venue |
| Sweep.Sweeper.CancelOne | arc/execution/sweep.py:112-143 | one order is expired, cancelled, or left unknown by the venue's answer |
| Sweep.Sweeper.SweepNext | arc/execution/sweep.py:82-100 | one more order, or a skip for another engine |
| Sweep.Sweeper.Sweep | arc/execution/sweep.py:67-110 | the loop performs exactly the specified effects and reports |
| Fills.IngestSound | arc/execution/fill_engine.py:67-126 | any batch, even one that raises, keeps every chain safe at every crash point |
| Fills.BatchOutcome | arc/execution/fill_engine.py:67-126 | a batch that does not raise leaves exactly its new fills, each stored as reported but under the engine of the order it filled, an unlinked one as reported; one with room never raises |
| Fills.BatchHandsBack | arc/execution/fill_engine.py:67-126 | what it returns as accepted is exactly its new fills, each once, under the order's engine |
| Fills.AcceptedIsStored | arc/execution/fill_engine.py:67-126 | whether or not it raises, what it returns is what is new in storage, as stored |
| Fills.DeliveriesConverge | arc/execution/fill_engine.py:67-126 | permuted, duplicated or interleaved deliveries of the same fills end in the same world, each fill under its order's engine, filled size the capped sum |
| Fills.PollsConverge | arc/execution/fill_engine.py:62-126 | any run of polls ends where one poll of the final history ends |
| Fills.RoomyIffNeverRaises | arc/execution/fill_engine.py:107-111 | the room condition is exact: it fails exactly when some order of arrival raises |
| Fills.ClosedRefuses | arc/execution/fill_engine.py:107-111 | when one order was closed before its fills came in and the others have room, the batch raises exactly when it brings a new fill of that order |
| Fills.FillEngine.constructor | arc/execution/fill_engine.py:46-60 | an engine bound to its store |
| Fills.FillEngine.Read | arc/execution/fill_engine.py:77-77 | the market's orders as objects that agree with their rows |
| Fills.FillEngine.IngestFill | arc/execution/fill_engine.py:80-126 | one fill: skipped, unlinked, known, refused after being saved, or landed; it is the order's engine's when the order is on record |
| Fills.FillEngine.Ingest | arc/execution/fill_engine.py:67-126 | the batch up to its end or the first refusal |
| Reconcile.ReconcileSettles | arc/execution/reconcile.py:66-126 | no in-scope order of the market stays INDETERMINATE: each takes state, filled size and venue id from the list's last word on it; an in-scope order is live exactly when reported so; all others are unchanged |
| Reconcile.ReportedExactly | arc/execution/reconcile.py:84-100 | which orders the report calls resolved and which still live |
| Reconcile.LookupFound | arc/execution/reconcile.py:82-82 | the dictionary's entry is the last with that id |
| Reconcile.OrphansExactly | arc/execution/reconcile.py:84-114 | the report names exactly the venue orders no row has the id of, foreign ones included, each once and in order, by client id or, lacking one, by venue id |
| Reconcile.FillsBeforeReconcile | arc/execution/reconcile.py:150-156 | fills ingested first bring the row to the venue's figure; ingested afterwards they count twice, unless there were none or the order is full, and the row turns FILLED with quantity open at the venue exactly when counting them twice reaches its size |
| Reconcile.FillsAfterClosing | arc/execution/reconcile.py:133-168 | when reconciliation closed the order, fills ingested afterwards raise exactly when one is a new fill of it |
| Reconcile.Reconciler.constructor | arc/execution/reconcile.py:50-64 | a reconciler bound to its store and venue |
| Reconcile.Reconciler.ByClientId | arc/execution/reconcile.py:82-82 | the last entry of a repeated client id wins |
| Reconcile.Reconciler.Resolve | arc/execution/reconcile.py:128-177 | one unknown order settled by what the venue shows |
| Reconcile.Reconciler.Visit | arc/execution/reconcile.py:92-100 | which rows are passed over, kept live, or resolved |
| Reconcile.Reconciler.VisitNext | arc/execution/reconcile.py:92-100 | one more row |
| Reconcile.Reconciler.Reconcile | arc/execution/reconcile.py:66-126 | effects and all three lists are the specified ones |
| Reconcile.Reconciler.FindOrphans | arc/execution/reconcile.py:102-114 | the orphan list |
| Reconcile.ExpireSettles | arc/runtime/recovery.py:214-233 | afterwards no row of the market is PENDING and no other row changed |
| Reconcile.Reconciler.ExpireNext | arc/runtime/recovery.py:224-231 | one more row |
| Reconcile.Reconciler.ExpirePending | arc/runtime/recovery.py:214-233 | the loop expires exactly the PENDING rows and counts them |
| Runs.EventSound | arc/runtime/engine.py:1301-1367 | submission, reprice pass, sweep, reconciliation and expiry move rows along the transition table only; fills alone may leave it |
| Runs.EveryRunIsSafe | arc/execution/reprice.py:126-225 | after any run with crashes anywhere: exposure conserved, one live and one working order per chain, prices tick by tick in the band, no id accepted twice or without a row |
| Runs.TerminalForGood | arc/execution/orders.py:62-102 | a terminal row is the same row ever after |
| Runs.EarlyExactlyWhenInherited | arc/execution/reprice.py:126-166 | an order that could move is asked to cancel before its patience is spent exactly when it inherited a spent counter |
| Runs.LostPlacementLosesPatience | arc/execution/reprice.py:198-225 | how that happens, as a run from the empty state for every patience: an unacknowledged successor shown resting by a fill is asked to cancel on its first pass |
| Runs.ExpiryForgetsWorkingOrder | arc/runtime/recovery.py:214-233 | a crash between the venue taking an order and the row recording it ends with an EXPIRED row for a working order |
| Runs.DowntimeFillCountsTwice | arc/runtime/recovery.py:132-195 | a restart reconciles before it polls, so a fill it slept through is in the venue's figure and added again: the row turns FILLED while the order still works exactly when twice the fill reaches its size |
| Forgetting.CutUnsettles | arc/execution/submit.py:237-293 | a row says never sent while its order works exactly after a cut between the venue taking it on and the save that follows |
| Forgetting.MindfulForgetsNothing | arc/execution/reprice.py:150-225 | submissions, reprices and fills, cut anywhere, close no row of a working order |
| Forgetting.SweepForgets | arc/execution/sweep.py:112-143 | a sweep, cut anywhere, closes the row of a working order exactly when it wrote it as PENDING or its cancel was refused for good |
| Forgetting.ExpiryForgetsExactly | arc/runtime/recovery.py:214-233 | the expiry is wrong about a row exactly when that row was PENDING while its order worked |
| Forgetting.RestartForgetsExactly | arc/runtime/recovery.py:178-233 | under a truthful listing a restart loses a resting order exactly when the listing shows one resting whose row is PENDING |
| Forgetting.ForgottenExactlyWhen | arc/runtime/recovery.py:178-233 | after any run, a closed unfilled row stands for a working order exactly when a turn expired or swept it as left PENDING by such a crash, swept it with its cancel refused for good, or reconciled it with a listing that does not show it resting |
| Forgetting.UnsettledExactlyWhen | arc/runtime/recovery.py:214-222 | after any run, a PENDING row belongs to a working order exactly when such a crash left it and no later turn wrote it |
| Paper.TradeConserves | arc/execution/v1_paper.py:115-188 | a trade conserves quantity: fills, drop in resting quantity and used size are equal, and no more than the size |
| Paper.TakesOnAndWithdraws | arc/execution/v1_paper.py:52-75 | a resting id is refused and any other taken on under the next venue number; a cancel is acknowledged exactly when the order rests |
| Paper.OnlyCrossedTrade | arc/execution/v1_paper.py:115-188 | only crossed orders fill, once each, at their own price, within their open quantity; an order leaves exactly when filled up |
| Paper.TradeStaysInMarket | arc/execution/v1_paper.py:140-152 | every fill is of the traded market and side and names the placing engine |
| Paper.StopsWhenExhausted | arc/execution/v1_paper.py:135-188 | the trade stops only when used up or no crossed order has quantity left |
| Paper.EarlierServedFirst | arc/execution/v1_paper.py:135-188 | an order fills only after every crossed order before it in id order is served |
| Paper.PaperExecutor.constructor | arc/execution/v1_paper.py:39-44 | an empty venue |
| Paper.PaperExecutor.Place | arc/execution/v1_paper.py:52-68 | a resting id is refused, any other taken on under a fresh venue id |
| Paper.PaperExecutor.Cancel | arc/execution/v1_paper.py:70-75 | a resting order is withdrawn, anything else refused |
| Paper.PaperExecutor.Fills | arc/execution/v1_paper.py:83-84 | the market's whole history |
| Paper.PaperExecutor.SortedIds | arc/execution/v1_paper.py:135-135 | the resting ids, each once, in code-point order |
| Paper.PaperExecutor.Match | arc/execution/v1_paper.py:138-187 | one order of the matching loop |
| Paper.PaperExecutor.Trade | arc/execution/v1_paper.py:115-188 | the loop is the specified fold over the sorted ids |
| PaperLoop.PollKeeps | arc/execution/fill_engine.py:62-126 | a poll of the paper venue never raises and leaves everything reported stored |
| PaperLoop.TradeKeeps | arc/execution/v1_paper.py:115-188 | a trade keeps book, rows and history in agreement |
| PaperLoop.RepricingKeeps | arc/execution/reprice.py:126-225 | a reprice after a poll keeps them in agreement |
| PaperLoop.SweepingKeeps | arc/execution/sweep.py:112-143 | a sweep after a poll keeps them in agreement |
| PaperLoop.PlacingKeeps | arc/execution/submit.py:237-293 | a placement at any time keeps them in agreement |
| PaperLoop.EveryPollAgrees | arc/runtime/engine.py:1301-1367 | after every poll each local filled size is the venue's and the sum of its stored fills, and FILLED means taken off by matching |
| PaperLoop.ChainNeverOverfills | arc/execution/v1_paper.py:115-188 | all a chain ever fills at the venue is within its approved size |
| PaperLoop.FillIdsDistinct | arc/execution/v1_paper.py:161-162 | no fill id is issued twice over a run |
| LoopOrder.DrainedKept | arc/runtime/engine.py:1702-1717 | whatever happens short of a trade of the market, a polled market stays polled |
| LoopOrder.InOrderIsPossible | arc/runtime/engine.py:1301-1367 | any sequence of events with a poll between each trade of a market and each cancel in it is a possible run, and leaves every such market polled |
| LoopOrder.LoopInOrder | arc/runtime/engine.py:1702-1717 | any number of passes as the loop makes them (sweep what closed, trade the live markets, then place, poll and reprice in each) is in that order |
| LoopOrder.LoopAgrees | arc/runtime/engine.py:1690-1717 | after any number of such passes, every order of every market has one filled size locally, in its stored fills and at the venue, and is live exactly while it rests |
| LoopOrder.UnpolledCancelRaises | arc/execution/fill_engine.py:107-111 | from any agreeing state, a reprice or sweep makes the next poll raise exactly when it cancelled the order over a fill not yet polled in |
| LoopOrder.UnpolledCancelReached | arc/execution/fill_engine.py:107-111 | that happens: placed, partly traded and swept, any order makes the poll that comes only then raise |
| LoopOrder.LoopReached | arc/runtime/engine.py:1690-1717 | passes of every kind do happen: an order placed, partly traded, polled, repriced, and its successor swept |
| Trigger.DeterminesStrictWinner | arc/majority/trigger.py:177-243 | a side is determined exactly when it strictly outbids the other on a fresh complete read; exchanging the outcomes exchanges the verdict |
| Trigger.TriggeredWhenReached | arc/majority/trigger.py:144-174 | triggered exactly when, on a fresh complete read, some side bids at least the threshold |
| Risk.Evaluate | arc/risk/engine.py:236-248 | the loop names the least failing gate in the declared order, or allows; it allows exactly when every field condition holds, and a denial is the earliest reason there are grounds for |
| Risk.OneVerdict | arc/risk/engine.py:236-248 | that verdict is unique |
| Risk.AllowedPassedAll | arc/risk/engine.py:236-248 | an allowed proposal passed all nineteen gates and meets every field condition |
| Risk.AllowedExactly | arc/risk/engine.py:252-707 | allowed exactly when specification, switches, phase, window, intent, quota, sides, positions, band, size, losses, feed, drift, health, supervisor, wallet, orphans and balance are all as they must be |
| Risk.DeniedExactly | arc/risk/engine.py:252-707 | denied for a reason exactly when there are grounds for it and for none looked at before, and by the gate it belongs to |
| Risk.PriceToBeatIsIgnored | arc/risk/engine.py:363-372 | the verdict is the same whatever the price to beat, and without one |
| Risk.ReasonNamesGate | arc/risk/engine.py:196-223 | a denial reason belongs to one gate |
| Watches.MajorityMarketState.constructor | arc/majority/state.py:138-180 | a window's fresh state: no trigger, no decision, no side |
| Watches.MajorityMarketState.OpenWindow | arc/majority/state.py:260-263 | only WAITING_WINDOW opens |
| Watches.MajorityMarketState.AwaitTrigger | arc/majority/state.py:265-268 | only an open window waits |
| Watches.MajorityMarketState.CaptureLevels | arc/majority/engine.py:486-496 | reference and levels are captured together |
| Watches.MajorityMarketState.LatchPriceTrigger | arc/majority/engine.py:456-465 | the price trigger is latched |
| Watches.MajorityMarketState.MarkTriggered | arc/majority/state.py:270-284 | fires once; a second attempt raises and changes nothing |
| Watches.MajorityMarketState.Fire | arc/majority/engine.py:531-571 | fires at most once, with its evidence |
| Watches.MajorityMarketState.MarkReading | arc/majority/state.py:286-289 | only a fired window reads |
| Watches.MajorityMarketState.MarkDetermined | arc/majority/state.py:291-300 | the determination is recorded without a lock |
| Watches.MajorityMarketState.SelectSide | arc/majority/state.py:193-220 | the side is locked once, from a verdict that has one; otherwise it raises and changes nothing |
| Watches.MajorityMarketState.ReconstructLockedSide | arc/majority/state.py:222-241 | the persisted side is put back |
| Watches.MajorityMarketState.MarkNoTrade | arc/majority/state.py:302-315 | never over a terminal state or executed quantity |
| Watches.MajorityMarketState.MarkIntentCreated | arc/majority/state.py:317-319 | only from SIDE_SELECTED |
| Watches.MajorityMarketState.MarkState | arc/majority/state.py:321-332 | never over a terminal state |
| Watches.BeginsBlank | arc/majority/state.py:138-180 | a window begins with nothing decided and nothing latched |
| Watches.MarksMoveOnlyFrom | arc/majority/state.py:260-319 | each mark moves a window from its own stages only and moves nothing but the stage; a fired window does not fire again |
| Watches.Locks | arc/majority/state.py:193-300 | a lock, taken or put back, is the side of its verdict or intent with its clock; a determination alone locks nothing |
| Watches.NothingFinalIsOverwritten | arc/majority/state.py:302-332 | finished stages stay, and executed quantity is never marked as not traded |
| Majority.FiresExactlyWhenMet | arc/majority/engine.py:417-529 | a window fires exactly when every switched-on condition is met |
| Majority.EntryRecords | arc/majority/engine.py:417-571 | the reference is the spot price it was taken at, and taken once; the price trigger is latched; firing records the clock and the level reached |
| Majority.ActsOnlyWhileOpen | arc/majority/engine.py:365-413 | before the window opens, and once it is spent or finished, a tick changes nothing; in an open one that has not fired it fires exactly when the conditions are met, and one that has fired is read at once |
| Majority.ReadDecides | arc/majority/engine.py:573-642 | the read after a firing locks the strict winner's side within two seconds, and otherwise ends the window without a trade |
| Majority.BoundaryPassesExactly | arc/majority/engine.py:824-897 | the final boundary passes exactly when market, window, engine, verdict, side, book, price, size, gates and record all agree |
| Majority.LivePriceIs | arc/majority/engine.py:899-927 | the live price is the decision read's bid for the side, floored to the tick, when positive and in the band |
| Majority.SendingDoes | arc/majority/engine.py:755-822 | the intent is saved, submitted whole as one part, and the window is SENT when that has an order and otherwise ends without a trade |
| Majority.ActsExactlyWhen | arc/majority/engine.py:365-1030 | a tick acts exactly when the window is open, unspent and fired at most two seconds ago, its read has a strict winner, no intent is on record, and the intent is priced, sized, on the grid, in the band and cleared by market and process |
| Majority.ActsOnFreshWinner | arc/majority/engine.py:365-413 | a tick that acts does so in an open window that fired in an earlier tick and at most two seconds before, on the strict winner of its own read, with a sanctioned intent at the price the switch names |
| Majority.ApprovedIsSanctioned | arc/majority/engine.py:644-760 | an approved intent is cleared by market and process, on the grid and in the band, of the window's size, with no intent on record |
| Majority.TickSettles | arc/majority/engine.py:365-413 | a tick leaves the window spent, or with no side it could still act on |
| MajorityEngines.MajorityEngine.constructor | arc/majority/engine.py:176-200 | no window is held and none is spent |
| MajorityEngines.MajorityEngine.BufferGate | arc/majority/engine.py:471-529 | the buffer condition of the window's mode |
| MajorityEngines.MajorityEngine.EvaluateEntry | arc/majority/engine.py:417-529 | price trigger first, latched, then the buffer condition |
| MajorityEngines.MajorityEngine.FreshReadAndDetermine | arc/majority/engine.py:573-642 | read afresh, record, then lock or refuse |
| MajorityEngines.MajorityEngine.Propose | arc/majority/engine.py:644-757 | price, intent, risk gates and final gate; reads only |
| MajorityEngines.MajorityEngine.SubmitWindow | arc/majority/engine.py:644-820 | propose, persist, mark spent, send, in that order |
| MajorityEngines.MajorityEngine.Advance | arc/majority/engine.py:365-413 | one window's tick is the specified one, and nothing happens before the window opens |
| MajorityEngines.MajorityEngine.TickWindow | arc/majority/engine.py:365-413 | no other window is touched |
| MajorityEngines.MajorityEngine.Put | arc/majority/engine.py:218-232 | a brand-new object for a window |
| MajorityEngines.MajorityEngine.OpenMarket | arc/majority/engine.py:204-242 | fresh state for every configured window, OFF when the engine may not trade |
| MajorityEngines.MajorityEngine.Relock | arc/majority/engine.py:333-334 | the lock is put back and the window spent |
| MajorityEngines.MajorityEngine.RestoreOne | arc/majority/engine.py:320-334 | a window that is no longer configured gets state too |
| MajorityEngines.MajorityEngine.RestoreFromIntents | arc/majority/engine.py:307-343 | every persisted lock is put back |
| MajorityEngines.MajorityEngine.IntentsFor | arc/storage/store.py:547-584 | the market's intents of this engine, and no other's |
| MajorityEngines.MajorityEngine.DropMarket | arc/majority/engine.py:244-267 | every window of the market is thrown away |
| MajorityRuns.OneOrder | arc/majority/engine.py:784-806 | the whole intent goes into one order of the step-floored size, or none |
| MajorityRuns.OpeningLeaves | arc/majority/engine.py:204-242 | every configured window of the market, and no other, gets fresh state, waiting or off |
| MajorityRuns.RestoringLeaves | arc/majority/engine.py:307-343 | every window with an intent, and no other, is spent and locked on its side since it was made |
| MajorityRuns.DroppingLeaves | arc/majority/engine.py:244-267 | every window of the market, and no other, is thrown away |
| MajorityRuns.BootOk | arc/majority/engine.py:204-343 | opening and restoring leaves every window with an intent spent and locked on that intent's side |
| MajorityRuns.StepOk | arc/majority/engine.py:365-413 | every tick, cut by a crash or not, every restart and everything permitted in between keeps the invariant |
| MajorityRuns.EveryMajorityOrderIsJustified | arc/majority/engine.py:573-820 | under whatever configurations the processes of a run came up with, every first order comes from a persisted intent with its side, price and floored size, and that intent is justified by one complete read of a later tick, at most two seconds by the clocks of the two ticks after the one that fired, both within the window's offset of the close, with market and process clearing it |
| MajorityRuns.OneIntentForGood | arc/majority/engine.py:307-343 | one intent per market and window for good; wherever the window is held, its side is the intent's and nothing more is sent |
| MajorityReach.MajorityOrderReached | arc/majority/engine.py:365-413 | whenever an open window's conditions are met on one tick and the next may act and sends one part, a run from nothing ends with the order on record and at the venue |
| MajorityReach.OpportunityExists | arc/majority/engine.py:365-413 | there are such a configuration and two such moments |
| MajorityReach.LockOutlivesConfiguration | arc/majority/engine.py:307-343 | a restart under any configuration, one without the window included, holds the window locked on its intent's side and spent |
| MajorityRuns.LifecycleIsPermitted | arc/runtime/engine.py:1301-1367 | all other lifecycle events, crashes included, create no intent and no first order |
| TokenBuckets.NeverOverspends | arc/execution/ratelimit.py:45-58 | tokens stay within [0, burst]; what was taken and what is left is at most the start plus the rate times forward clock movement |
| TokenBuckets.NothingLost | arc/execution/ratelimit.py:45-58 | until the bucket is full, what was taken plus what is left is exactly the start plus the rate times forward clock movement |
| TokenBuckets.NoShorterNap | arc/execution/ratelimit.py:60-76 | the computed sleep is no longer than it must be |
| TokenBuckets.NapBounds | arc/execution/ratelimit.py:60-76 | no deficit exactly when there is a token; no sleep under a millisecond |
| TokenBuckets.RateBound | arc/execution/ratelimit.py:45-58 | with a clock that never steps back, at most burst plus rate times elapsed time |
| TokenBuckets.BackwardStepPaidTwice | arc/execution/ratelimit.py:45-50 | a clock that steps back is paid again for the same second: for every rate and burst, and every n, calls within one second take the burst and n seconds' worth |
| TokenBuckets.OneNapSuffices | arc/execution/ratelimit.py:60-76 | one computed sleep yields a token |
| TokenBuckets.TokenBucket.constructor | arc/execution/ratelimit.py:28-39 | a full bucket |
| TokenBuckets.TokenBucket.Create | arc/execution/ratelimit.py:28-39 | refused exactly when the rate is not positive or the burst is below it |
| TokenBuckets.TokenBucket.Refill | arc/execution/ratelimit.py:45-50 | refill by forward movement, capped |
| TokenBuckets.TokenBucket.TakeOne | arc/execution/ratelimit.py:52-58 | one token, or none taken |
| TokenBuckets.TokenBucket.DelayUntilToken | arc/execution/ratelimit.py:60-65 | the deficit in seconds |
| TokenBuckets.TokenBucket.Acquire | arc/execution/ratelimit.py:67-76 | one attempt, or one computed sleep and a second |
| Rotation.WindowContains | arc/domain/timing.py:73-90 | the grid start is the one multiple of the duration whose market contains the time |
| Rotation.EveryAdvanceIsRight | arc/market/rotation.py:134-165 | after any run, the current market is the grid market of the time, the closing one older, opened = archived + live, and live sums and counts are over every price routed while the market was being discovered, active, cancelling or settling |
| Rotation.AdvanceIsIdempotent | arc/market/rotation.py:134-165 | advancing again in the same window opens and closes nothing |
| Rotation.AdvanceDoes | arc/market/rotation.py:134-296 | what one advance does to both markets, the rows and the counters, inside a window and at a boundary |
| Rotation.SettlementDoes | arc/market/rotation.py:298-311 | a settlement marks the market it names and lets it go when it is the closing one |
| Rotation.FreezingDoes | arc/domain/models.py:534-561 | a positive reference freezes once on the live market it is for and on its row, a late one on the row of a settling market that is no longer live |
| Rotation.RoutedExactly | arc/market/rotation.py:315-337 | an observation adds its price and one to every live market that is discovered, active, cancelling or settling, changes no settled or dead one, and is routed exactly when some market listens |
| Rotation.FreshMarketIsExact | arc/market/rotation.py:167-198 | an unseen market starts from nothing |
| Rotation.RestartResumes | arc/market/rotation.py:200-241 | a restart resumes sum, count and reference from the row and never revives a dead market |
| Rotation.ArchivedExactly | arc/market/rotation.py:281-296 | an archived row holds the exact final sum and count of every price routed while the market listened |
| Rotation.PtbOnceForGood | arc/domain/models.py:534-561 | a reference on record never changes, a late one for an archived market included, and a live market that has one has that one |
| Rotation.TwapAccumulator.constructor | arc/domain/models.py:93-109 | restored from sum and count |
| Rotation.TwapAccumulator.Add | arc/domain/models.py:110-113 | exact sum and count |
| Rotation.MarketInstance.constructor | arc/domain/models.py:475-520 | an instance with its own accumulator |
| Rotation.MarketInstance.FreezePtb | arc/domain/models.py:534-551 | set once, positive only; otherwise raises and changes nothing |
| Rotation.MarketInstance.AddObservation | arc/domain/models.py:591-603 | refused exactly when settled or dead |
| Rotation.MarketRotator.constructor | arc/market/rotation.py:91-115 | no live market |
| Rotation.MarketRotator.Archive | arc/market/rotation.py:281-296 | saved, archived and let go |
| Rotation.MarketRotator.Reap | arc/market/rotation.py:265-279 | only a settled or dead closing market |
| Rotation.MarketRotator.Open | arc/market/rotation.py:167-241 | a fresh or restored instance |
| Rotation.MarketRotator.Close | arc/market/rotation.py:243-263 | the current market starts settling |
| Rotation.MarketRotator.Advance | arc/market/rotation.py:134-165 | the specified rotation |
| Rotation.MarketRotator.SettledAt | arc/market/rotation.py:298-311 | the live market of that name is settled, and reaped when closing |
| Rotation.MarketRotator.Route | arc/market/rotation.py:315-337 | delivered to every live market that accepts it |
| OpeningReference.OfficialPrice | arc/market/ptb.py:189-204 | a positive decimal or nothing |
| OpeningReference.PublishedPriceIsRead | arc/market/ptb.py:189-204 | any positive decimal is read as itself, to the digit |
| OpeningReference.AnswersItsWindow | arc/market/ptb.py:169-173 | the cache answers exactly for the window the newest settled market's close opens |
| OpeningReference.OfferAnswered | arc/market/ptb.py:133-167 | an offer is answered with what is then held, unless it says no price or is of an older market |
| OpeningReference.HoldsFirstOfTheNewest | arc/market/ptb.py:133-167 | in any arrival order, the cache holds the first valid offer among those of the newest settled market |
| OpeningReference.ResolutionIsOfficial | arc/market/ptb.py:169-252 | a resolution is one of the two official texts, the metadata first, the other only for the window its close opens |
| OpeningReference.PreviousClosePtbCache.constructor | arc/market/ptb.py:126-127 | an empty cache |
| OpeningReference.PreviousClosePtbCache.TakeOffer | arc/market/ptb.py:133-167 | older never replaces, the same window is idempotent, an invalid text is ignored |
| OpeningReference.PreviousClosePtbCache.EntryFor | arc/market/ptb.py:169-173 | answers only for the window the cached close opens |
| Ledger.OneStreakOnly | arc/execution/wallet.py:144-158 | at most one streak is not zero |
| Ledger.ZeroRowsDoNotCount | arc/execution/wallet.py:144-158 | a zero row changes neither streak |
| Ledger.StreaksAgreeIff | arc/runtime/engine.py:1042-1053 | over different row limits the two streaks agree exactly when the shorter reading saw a win or the next decisive row is not a loss |
| Ledger.NetAtLeastLosses | arc/runtime/engine.py:1035-1054 | today's net is at least minus today's losses |
| Ledger.NetIsSum | arc/execution/wallet.py:110-171 | a net is the sum of the rows since the cutoff |
| Ledger.LossesAreSum | arc/runtime/engine.py:1035-1054 | today's losses are minus the sum of the losing rows since the cutoff, older ones not counted |
| Ledger.CountIsOfSign | arc/execution/wallet.py:110-171 | wins and losses count the rows of their sign |
| Ledger.Streaks | arc/execution/wallet.py:144-158 | the panel's loop yields the leading runs of decisive rows |
| Ledger.LedgerStats | arc/execution/wallet.py:110-171 | all ten figures, the extremes attained or zero |
| Ledger.RealisedLosses | arc/runtime/engine.py:1035-1054 | the gate's loop yields the same losing streak over the same rows, and a loss that covers the net |
| Decimals.DecRoundTrip | arc/domain/money.py:129-142 | printing then parsing a decimal gives it back |
| Decimals.IntRoundTrip | arc/config.py:927-934 | printing then parsing an integer gives it back |
| Decimals.BoolRoundTrip | arc/config.py:937-943 | printing then parsing a switch gives it back |
| Decimals.PlaceValue | arc/domain/money.py:129-142 | the value of a coefficient and scale: each digit behind the point is worth a tenth |
| Decimals.PaddedReads | arc/config.py:927-943 | blanks around any printed value do not matter |
| Decimals.PlusReads | arc/config.py:927-934 | a plus sign may stand before what has none |
| Decimals.ScientificReads | arc/config.py:612-621 | scientific notation is read as the mantissa with its point moved by the exponent |
| Decimals.ScaledWithin | arc/config.py:612-621 | and the value is the mantissa's times ten to the exponent, within its digits |
| Decimals.ScaledBeyond | arc/config.py:612-621 | past its last digit |
| Decimals.ScaledBelow | arc/config.py:612-621 | and below its first |
| Decimals.SwitchWords | arc/config.py:937-943 | the switch words in any case, and no other word |
| Lists.SortedSetIs | arc/majority/config.py:196-224 | the window list is sorted and without repetition |
| Lists.WindowsRoundTrip | arc/config.py:563-577 | a printed window list parses back |
| Lists.BuffersRoundTrip | arc/config.py:580-609 | printed buffers parse back |
| Lists.ParseWindowList | arc/config.py:563-577 | the loop parses the list or refuses it |
| Lists.ParseBufferList | arc/config.py:580-609 | the loop parses the buffers or refuses them, a repeated offset included |
| Settings.TradingOf | arc/config.py:624-924 | what is built satisfies every check, and its windows are sorted |
| Settings.MajorityOf | arc/majority/config.py:573-661 | a disabled engine is the one disabled configuration; the attempts lie in their range |
| Settings.TradingIsBuiltExactly | arc/config.py:624-924 | what can be built is exactly what passes every check with its windows in order |
| Settings.MajorityIsBuiltExactly | arc/majority/config.py:573-661 | what can be built is exactly the disabled configuration and the valid enabled ones |
| Settings.RefusedExactly | arc/config.py:624-924 | the builder's checks refuse exactly what is not valid |
| Settings.LoadReads | arc/config.py:1100-1160 | on the first start the environment is the configuration; afterwards a stored key wins and the environment fills MAJORITY's others |
| Settings.WindowListRead | arc/config.py:563-577 | a printed window list is read in order and refused when it repeats one |
| Settings.OffsetsRead | arc/majority/config.py:196-224 | a printed list is read in order without repetitions, refused when one is not positive, and only a blank one lets the old window speak |
| Settings.AttemptsRead | arc/majority/config.py:600-625 | blank attempts are five; printed ones are refused outside five to ten |
| Settings.TradingRoundTrip | arc/config.py:533-924 | any trading configuration the builder produced, printed into any row, is rebuilt exactly |
| Settings.MajorityRoundTrip | arc/majority/config.py:514-661 | any MAJORITY configuration the builder produced, said by any row through overrides or shared values, is rebuilt exactly, unless its list is empty and the row still holds the old single window |
| Settings.SavedComesBack | arc/config.py:983-1160 | saved over any rows and loaded under any environment a configuration comes back equal, with exactly that one exception |
| Settings.EmptiedIsReached | arc/api/routes.py:378-398 | the exception is met: a profile that switches MAJORITY on without windows, loaded over any old single window, is accepted and comes back as something else |
| Settings.OverrideNamesApart | arc/majority/config.py:254-278 | two overrides share a setting name only for the same window and field |
| Settings.BuildAll | arc/majority/config.py:640-652 | the building loop |
| Settings.AsStorageDict | arc/majority/config.py:514-554 | the printing loop |

## Left out

- Network adapters, the live executor and wallet, feeds, dashboard, notifications, logging, trace ids and message prose: no decision modelled here reads them.
- SQLite: the store is its contract, upsert by order id and insert-or-ignore for fills and intents; a storage failure is not modelled.
- asyncio: the loop awaits one call at a time, so operations are sequential and a crash is the only interruption.
- Decimal's 28-digit context and float clocks: arithmetic is on exact reals. Underscores and non-ASCII digits or blanks in numerals are not parsed.
- Settings errors: every refusal is one error value, and which of several faults is reported first is not modelled; advisory warnings are left out.
- Settings.TradingRoundTrip: setting names are constructors rather than strings; only the per-window override names, which are composed, are proved apart as text.
- Restart of the paper venue: its book lives in memory, so `PaperLoop` runs have no crash; crashes are in `Runs` and `MajorityRuns` against an arbitrary venue.
- Paper `open_orders`: it misses engine-prefixed ids, so reconciliation is modelled against an arbitrary listing instead.
- Runs.EveryRunIsSafe: bands and tick are fixed over a run; a settings change between two processes is not modelled.
- "Never both sides of a market": `directions_held` reads lists no code fills, so the set it returns is a parameter.
- TokenBuckets.TokenBucket.Acquire: no other caller takes a token while it sleeps; rounding of float time is not modelled.
- Rotation: the settlement callback, the settlement of an archived market from its row, the stored windows and the recovered-settlement average.
- MajorityRuns.EveryMajorityOrderIsJustified: the submitter's minimum and size step are fixed over a run; its configuration is not.
- Majority: `tick` visits the windows in turn and is modelled window by window.
