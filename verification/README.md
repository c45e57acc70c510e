# A verified model of the Omega zone node

The Omega zone is a privacy rollup on Tempo. This project models two stateful cores of it and
the code attached to them, and proves what they keep over every run.

**The darkpool order book** is a central limit order book kept in contract storage. It is
modelled at three levels, each proved against the next:

1. `Darkpool.DarkpoolOrderbook` is the precompile: maps of orders, book heads and balances,
   updated in place, with the price-time queues threaded through `prev` and `next`.
2. `OrderBook` gives the same calls as functions on a `Market`, where each side of a book is
   the sequence of its resting orders.
3. `Matching` reads the outcome of a crossing off a declarative plan: take orders from the
   front of the side, at their own prices, until nothing is wanted or nothing is in reach.

`Soundness` and `Safety` carry the invariant (list shape, uncrossed books, solvency, order
ledger) through every call. `Guarantees`, `Custody`, `Acceptance`, `Calls` and `Aggregates`
draw the consequences, and `Chronicle` with `OrderHistory` those for a user's order history.
The object keeps the history of its calls and is proved to be where that history leads, so
whatever holds of runs holds of its storage.

**The L1 deposit queue** is a window of L1 blocks with a running hash chain. `DepositQueue`
gives its transitions, `PendingDeposits` the object that makes them, `Backfill` the recovery
after gaps and reorgs, and `ZoneProtocol` the interleaving of subscriber, queue, engine and
builder as one state machine. `Subscriber` and `ZoneEngine` are the loops that drive it.

`PrepareBlock`, `PayloadBuilder`, `Paging` and `ActivityCursor` cover deposit preparation, the
pool loop with the withdrawal batch, and the paging code of the RPC server.

Verify everything with `dafny verify dfyconfig.toml`.

## What the proofs take as given

- A failed external call is rolled back by its host.
- A TIP-20 transfer moves exactly the requested amount or is refused; which tokens exist and
  which transfers are refused is arbitrary and may change from call to call. The zero address
  is never an initialised token.
- The digest of a pair stands for the pair, so distinct pairs have distinct book keys.
- The deposit hash is an arbitrary function, passed as `ChainHash`. Nothing is assumed of it.
- Executing a transaction uses no more gas than its own limit, and the block executor refuses a
  transaction whose limit exceeds what is left of the block.
- Outside the modelled calls nothing takes tokens from the darkpool's wallet, and the darkpool's
  own address never sends a call. The theorems that need the latter say so (`CalledByUsers`).
- Only `ZoneProtocol.DepositsProcessedOnceIff` assumes that a block's number and hash determine
  its deposits. The other protocol theorems hold for any offered blocks.

## What the proofs say about the code

- `CannotMatchSelf` is declared and never raised. An order may trade with its own account, and
  every theorem here covers that.
- A fill worth less than one quote unit aborts the whole call. A partial fill can leave such an
  order at the front of a side (`Guarantees.DustRests`), and then nobody whose limit reaches it
  can trade there (`Matching.DustStopsSide`). A best order can be matched, by some taker of at
  least the minimum size, exactly when all of it is worth at least one quote unit
  (`Matching.TradableIff`).
- The wallet covers what users are owed because the darkpool's own address never sends a call.
  `Custody.ExecuteConservesIff` shows that this is needed: a call conserves the difference exactly
  unless the darkpool would pay itself, and `Custody.SelfDepositBreaksCustody` is a run that would.
- The queue documents a chain of consecutive blocks. That holds of its window, but a parent
  mismatch on a window of one block makes the offered block a new anchor without a backfill.
  `Backfill.OnFloorIff` says exactly when the window stays on the block after the consumed
  floor, `Backfill.NeverGapsIff` exactly which runs never leave a gap, `Backfill.GapIsReachable`
  that a run can, and `Backfill.GapStaysOpen` that the missing blocks are then refused. What the
  zone absorbs is still one chain, because the builder checks it again
  (`ZoneProtocol.AbsorbedOnce`).
- The pool loop compares a 64-bit sum with the block limit. If the sum wraps, a transaction that
  does not fit is passed on (`PayloadBuilder.AdmittedUnfitIff`) and the executor's refusal fails
  the build. The gas stays within the limit for every pool. Gas alone never fails a build exactly
  when no sum can wrap (`PayloadBuilder.GasNeverFailsIff`), and the node's pool makes sure of that
  by capping gas limits (`PayloadBuilder.CappedPoolNeverFails`).
- A confirmation is lost when an offer displaces the front of the queue during a build
  (`ZoneProtocol.ConfirmationLostIff`, `ZoneProtocol.ConfirmationCanBeLost`). The engine logs it
  and goes on. `Backfill.FrontKeptIff` says which offers do, and
  `ZoneProtocol.DepositsProcessedOnceIff` that the consumed blocks are the absorbed ones exactly
  when none was lost.
- The activity feed drops an entry only behind a neighbour with the same id. That is enough,
  because the query makes each id from the one log or order it names, so that equal ids have equal
  keys (`ActivityCursor.FeedIdsDistinct`). `ActivityCursor.FeedIdsDistinctIff` is the general law.
- The batch list skips one batch when the pending batch fills the first page alone and the
  latest batch number is the largest 64-bit number (`Paging.ListsEveryBatchOnceIff`).

## Model

| member | source | states |
|---|---|---|
| FixedPoint.QuoteAmount | crates/precompiles/src/orderbook.rs:60-65 | the quote is the rounded-down value; refused exactly when it is zero or beyond 128 bits |
| FixedPoint.BidEscrow | crates/precompiles/src/orderbook.rs:68-75 | the reserve is the rounded-up value; refused exactly when an operand is zero or the value is beyond 128 bits |
| FixedPoint.EscrowCoversFill | crates/precompiles/src/orderbook.rs:60-75 | a fill at no more than the limit costs at most what it releases from the rounded-up escrow |
| FixedPoint.FloorSuperadditive | crates/precompiles/src/orderbook.rs:60-65 | rounded-down parts never exceed the rounded-down whole |
| OrderBook.InsertPos | crates/precompiles/src/orderbook.rs:706-780 | a new order goes behind every order it does not beat and before the first it beats |
| Soundness.ExchangeMoves | crates/precompiles/src/orderbook.rs:613-623 | net effect of a fill's four writes on every account, self-trades included |
| Soundness.ExchangeCovered | crates/precompiles/src/orderbook.rs:613-623 | with both payments covered, a fill can fail only because a credit overflows |
| Soundness.ReservedAfterFill | crates/precompiles/src/orderbook.rs:263-326 | a fill releases from the maker's reservation at least what the maker gives up, for every account |
| Soundness.FillBestSound | crates/precompiles/src/orderbook.rs:590-702 | one fill keeps shape, uncrossed books, solvency with the taker's remaining need, and the order ledger, and never underflows |
| Soundness.CrossSound | crates/precompiles/src/orderbook.rs:590-702 | so does the whole crossing loop |
| Soundness.CrossExhausts | crates/precompiles/src/orderbook.rs:590-702 | something is left only if no opposite order is within the limit; the taker's own side is untouched |
| Soundness.EnsureBalanceSound | crates/precompiles/src/orderbook.rs:367-382 | after the top-up the reservations and the new need are covered together |
| Soundness.InsertGood | crates/precompiles/src/orderbook.rs:706-780 | inserting at that position keeps price-time order and distinct live ids |
| Soundness.RestSound | crates/precompiles/src/orderbook.rs:565-581 | resting the remainder turns the taker's need into its reservation and keeps the book sound and uncrossed |
| Soundness.RemoveSound | crates/precompiles/src/orderbook.rs:782-826 | removing any resting order keeps the book sound |
| Safety.AvailableIsExact | crates/precompiles/src/orderbook.rs:253-326 | the saturating subtraction never saturates and the recomputed total never overflows |
| Safety.ShortfallIsExact | crates/precompiles/src/orderbook.rs:253-382 | what an order call pulls in is exactly what balance less reservations lacks |
| Safety.PlaceSound | crates/precompiles/src/orderbook.rs:489-586 | a limit order keeps every invariant and never fails on an underflowing debit |
| Safety.MarketOrderSound | crates/precompiles/src/orderbook.rs:833-963 | the same for market orders of both sides |
| Safety.WithdrawSound | crates/precompiles/src/orderbook.rs:470-485 | a withdrawal leaves every reservation covered |
| Safety.CancelSound | crates/precompiles/src/orderbook.rs:808-826 | a cancellation keeps every invariant |
| Safety.ExecuteSound | crates/precompiles/src/orderbook.rs:1189-1323 | every external call keeps every invariant; none fails on an underflowing debit |
| Safety.RunSound | crates/precompiles/src/orderbook.rs:1189-1323 | every market that any run of calls reaches satisfies the invariant |
| Guarantees.AlwaysSolvent | crates/precompiles/src/orderbook.rs:253-326 | in every reachable market each balance covers the reservations of its owner's live orders, and no call underflows |
| Guarantees.NeverCrossed | crates/precompiles/src/orderbook.rs:538-581 | in every reachable book each bid is priced strictly below each ask |
| Guarantees.AlwaysListedOnce | crates/precompiles/src/orderbook.rs:393-431 | in every reachable market the key list names each open pair, and nothing else, exactly once |
| Guarantees.AlwaysLive | crates/precompiles/src/orderbook.rs:489-586 | every resting order of every reachable market has a quantity, a price, an id already handed out and an escrow within 128 bits |
| Guarantees.AlwaysSorted | crates/precompiles/src/orderbook.rs:706-780 | on every reachable side bids do not rise and asks do not fall in price, and equal prices are in ascending order of id |
| Guarantees.OrderLedger | crates/precompiles/src/orderbook.rs:524-581 | over the log of any run, submitted equals taker fills plus maker fills plus cancelled plus still resting, per order |
| Guarantees.BuyerPaysAtMost | crates/precompiles/src/orderbook.rs:966-1026 | fills within a price limit together cost at most the rounded-down value of the whole at the limit |
| Guarantees.SellerGetsAtLeast | crates/precompiles/src/orderbook.rs:1029-1089 | fills within a price floor yield at least the value at the floor less under one unit per fill |
| Guarantees.TookFollowsPlan | crates/precompiles/src/orderbook.rs:489-586 | amounts, quote, log and both sides after the crossing of a call are those of the plan on the market before it; every balance is the one before plus the sender's top-up plus the planned flow, and only the top-up moves between wallets |
| Guarantees.PlaceGuarantee | crates/precompiles/src/orderbook.rs:489-586 | a limit order takes the smaller of its amount and the liquidity in reach, exactly the rest joins its side in its place, every balance and wallet moves by the top-up and the plan alone, the call returns the next id and uses it up, and all other books stay as they are |
| Guarantees.MarketOrderGuarantee | crates/precompiles/src/orderbook.rs:833-963 | filled is the smaller of amount and liquidity in reach, spend and proceeds respect the guard, FOK fills all, IOC stops only when nothing in reach is left, every balance and wallet moves by the top-up and the plan alone, and all other books stay as they are |
| Guarantees.RunLogsFills | crates/precompiles/src/orderbook.rs:625-632 | the log of any run holds one fill event per resting order that the plans of its calls take from |
| Guarantees.DustRests | crates/precompiles/src/orderbook.rs:600-642 | a run of three steps leaves a best ask worth less than one quote unit |
| Acceptance.CrossSucceedsIff | crates/precompiles/src/orderbook.rs:590-702 | where no credit can overflow, a crossing succeeds exactly when every fill of its plan can be quoted, and otherwise fails for a quote out of range |
| Acceptance.PlaceAcceptedIff | crates/precompiles/src/orderbook.rs:489-586 | after any run of users' calls, a limit order is accepted exactly when it is well formed, its sender can fund it and every fill of its plan can be quoted; otherwise which error, in the order of the checks |
| Acceptance.MarketOrderAcceptedIff | crates/precompiles/src/orderbook.rs:833-963 | the same for market orders, with proceeds within 128 bits and, for fill-or-kill, liquidity for the whole amount; otherwise which error |
| Calls.CrossLogsPlan | crates/precompiles/src/orderbook.rs:625-632 | a crossing logs one fill event per order it takes from, in order, with that order's id, maker and price, the taker's order and address, and the amount taken |
| Calls.PlaceLogs | crates/precompiles/src/orderbook.rs:489-586 | a limit order logs its submission field by field, then its fills, then for what is left its placement |
| Calls.MarketOrderLogs | crates/precompiles/src/orderbook.rs:833-963 | a market order logs its submission, its fills and, for what is left, the cancelled remainder, field by field |
| Calls.PairCreatedIff | crates/precompiles/src/orderbook.rs:413-431 | a pair is created exactly when both tokens exist, they differ and it is not open yet; then it is open with empty sides and listed last, and nothing else changes; otherwise which error |
| Calls.CancelUnknown | crates/precompiles/src/orderbook.rs:808-826 | an id that rests nowhere cannot be cancelled |
| Calls.CancelTakesOff | crates/precompiles/src/orderbook.rs:808-826 | after any run, the maker of a resting order, and nobody else, can cancel it; then exactly that order leaves its side, its reservation is free, the event names id, maker and remaining quantity, and nothing else changes |
| Chronicle.RunChronicled | crates/precompiles/src/orderbook.rs:238-245 | over any run each event is consistent with the log before it: ids are submitted once, fills, placements and cancellations take what is open, and no id rests twice |
| Chronicle.AlwaysRestsOnce | crates/precompiles/src/orderbook.rs:808-826 | in every reachable market an order id rests in at most one place of one side of one book |
| Matching.PlanIsPriceTime | crates/precompiles/src/orderbook.rs:590-702 | the plan takes a prefix of the side, all but the last order in full, all in reach, and as much as there is liquidity |
| Matching.CrossFollowsPlan | crates/precompiles/src/orderbook.rs:590-702 | a successful crossing yields exactly the plan's fills, quote, events, remaining side and balance of every account, and touches nothing else |
| Matching.CrossFlow | crates/precompiles/src/orderbook.rs:613-623 | every balance after the loop is the balance before plus the plan's net flow |
| Matching.CrossSettles | crates/precompiles/src/orderbook.rs:613-642 | the settled totals grow by the base the plan takes and the quote it costs |
| Matching.UnquotableFillFails | crates/precompiles/src/orderbook.rs:613-614 | a plan holding a fill that cannot be quoted fails, and only such a plan fails for its quotes |
| Matching.TradableIff | crates/precompiles/src/orderbook.rs:60-65 | some taker of at least the minimum size gets past the quote of the best order exactly when all of that order is worth at least one quote unit |
| Matching.DustStopsSide | crates/precompiles/src/orderbook.rs:600-614 | a best order worth less stops every taker whose limit reaches it |
| Custody.CrossConserves | crates/precompiles/src/orderbook.rs:590-702 | matching keeps the sum of all balances of every token |
| Custody.ExecuteDrift | crates/precompiles/src/orderbook.rs:328-382 | the wallet less what is owed moves only when the darkpool pays itself, and by how much |
| Custody.ExecuteConservesIff | crates/precompiles/src/orderbook.rs:463-485 | a call conserves that difference for every token exactly unless the darkpool calls and would transfer something |
| Custody.RunCovered | crates/precompiles/src/orderbook.rs:463-485 | after any run of users' calls the wallet covers everything owed |
| Custody.DepositAcceptedIff | crates/precompiles/src/orderbook.rs:463-468 | a deposit succeeds exactly when the token exists, the transfer is not refused, the wallet holds the amount and the balance has room; then exactly the sender's balance, the sender's wallet and the darkpool's wallet move by the amount; otherwise which error |
| Custody.WithdrawalPays | crates/precompiles/src/orderbook.rs:470-485 | after any run of users' calls a withdrawal succeeds exactly when it is covered beyond the reservations and the transfer is not refused; then exactly that balance and those two wallets move by the amount; otherwise which error |
| Custody.SelfDepositBreaksCustody | crates/precompiles/src/orderbook.rs:463-468 | a run in which the darkpool deposits to itself twice ends with more owed than held |
| LinkedBook.UnlinkRep | crates/precompiles/src/orderbook.rs:782-804 | unlinking a node represents the sequence without that order |
| LinkedBook.LinkRep | crates/precompiles/src/orderbook.rs:706-780 | linking a node between its neighbours represents the sequence with that order inserted |
| LinkedBook.ReduceRep | crates/precompiles/src/orderbook.rs:633-642 | reducing the head's quantity represents the partly filled sequence and touches no other side |
| LinkedBook.ListsRemove | crates/precompiles/src/orderbook.rs:782-804 | removal keeps the representation of all books at once |
| LinkedBook.ListsInsert | crates/precompiles/src/orderbook.rs:706-780 | insertion keeps the representation of all books at once |
| Darkpool.DarkpoolOrderbook.constructor | crates/precompiles/src/orderbook.rs:234-245 | empty storage represents the empty market of the empty history |
| Darkpool.DarkpoolOrderbook.RemoveOrder | crates/precompiles/src/orderbook.rs:782-804 | neighbours and head are rewritten as unlinking says |
| Darkpool.DarkpoolOrderbook.FindPlace | crates/precompiles/src/orderbook.rs:726-745 | the walk along `next` stops at the first order the new one beats, or at the last |
| Darkpool.DarkpoolOrderbook.InsertOrder | crates/precompiles/src/orderbook.rs:706-780 | storage represents the side with the order in its price-time place |
| Darkpool.DarkpoolOrderbook.IncrementBalance | crates/precompiles/src/orderbook.rs:337-350 | credits exactly, or overflows |
| Darkpool.DarkpoolOrderbook.DecrementBalance | crates/precompiles/src/orderbook.rs:352-365 | debits exactly, or underflows |
| Darkpool.DarkpoolOrderbook.AccumulateReservedSide | crates/precompiles/src/orderbook.rs:295-326 | the walk adds exactly the user's reservations on that side, or overflows |
| Darkpool.DarkpoolOrderbook.ReservedBalanceOf | crates/precompiles/src/orderbook.rs:263-293 | the loop over book keys sums the user's reservations over all books |
| Darkpool.DarkpoolOrderbook.AvailableBalanceOf | crates/precompiles/src/orderbook.rs:253-261 | the available balance of the market |
| Darkpool.DarkpoolOrderbook.EnsureInternalBalance | crates/precompiles/src/orderbook.rs:367-382 | pulls in exactly what the available balance lacks |
| Darkpool.DarkpoolOrderbook.ValidateOrCreatePair | crates/precompiles/src/orderbook.rs:386-411 | opens a missing pair once, with an empty book |
| Darkpool.DarkpoolOrderbook.FillBestOrder | crates/precompiles/src/orderbook.rs:600-642 | one turn of a matching loop on storage is one fill of the market |
| Darkpool.DarkpoolOrderbook.CrossAsks | crates/precompiles/src/orderbook.rs:590-645 | the loop refines the crossing function and terminates |
| Darkpool.DarkpoolOrderbook.CrossBids | crates/precompiles/src/orderbook.rs:647-702 | the loop refines the same crossing function |
| Darkpool.DarkpoolOrderbook.FillAsksMarket | crates/precompiles/src/orderbook.rs:966-1026 | the market loop makes the same transition, and overflows only if the quote total does |
| Darkpool.DarkpoolOrderbook.FillBidsMarket | crates/precompiles/src/orderbook.rs:1029-1089 | the same for the other side |
| Darkpool.DarkpoolOrderbook.Place | crates/precompiles/src/orderbook.rs:489-586 | refines the limit-order call with all its refusals and keeps the object valid |
| Darkpool.DarkpoolOrderbook.MarketBuy | crates/precompiles/src/orderbook.rs:833-893 | refines the market-order call for buys |
| Darkpool.DarkpoolOrderbook.MarketSell | crates/precompiles/src/orderbook.rs:898-963 | refines the market-order call for sells |
| Darkpool.DarkpoolOrderbook.CreateNewPair | crates/precompiles/src/orderbook.rs:413-431 | refines pair creation and its refusals |
| Darkpool.DarkpoolOrderbook.DepositTokens | crates/precompiles/src/orderbook.rs:463-468 | refines the deposit |
| Darkpool.DarkpoolOrderbook.WithdrawTokens | crates/precompiles/src/orderbook.rs:470-485 | refines the withdrawal |
| Darkpool.DarkpoolOrderbook.CancelOrder | crates/precompiles/src/orderbook.rs:808-826 | finds the one place where the id rests and refines its removal, or refuses |
| Darkpool.DarkpoolOrderbook.Call | crates/precompiles/src/orderbook.rs:1189-1323 | storage moves to the market the run reaches, or a failed call leaves all storage unchanged |
| EventIndex.RunTracked | crates/node/src/rpc.rs:3439-3527 | in every reachable market the log's pair index knows every resting order's pair, and logged volumes equal settled totals |
| EventIndex.RunGrows | crates/node/src/rpc.rs:3439-3527 | a longer run extends the log and never reuses an order id |
| EventIndex.IndexStable | crates/node/src/rpc.rs:3450-3464 | later submissions never change the pair of an indexed order |
| Aggregates.BuildIndex | crates/node/src/rpc.rs:3450-3464 | the index holds the submissions up to the last block |
| Aggregates.AggregateBatchEvents | crates/node/src/rpc.rs:3439-3527 | counts, pairs and volumes are those of the range, clamped to their widths; an empty range gives nothing |
| Aggregates.PairsInIff | crates/node/src/rpc.rs:3475-3527 | a pair is reported exactly when some log of the range submits an order for it or fills one of its orders |
| Aggregates.AggregatesAgreeWithSettlement | crates/node/src/rpc.rs:3439-3527 | on the log of any run the volume of each token is what the batch's fills settled, the order count is the ids handed out, and the fill count is the resting orders its calls took from |
| Aggregates.OnlyMinedCount | crates/node/src/rpc.rs:3450-3482 | logs without a block, or of later blocks, change no count, volume, pair or index entry |
| Aggregates.CountsAdd | crates/node/src/rpc.rs:3475-3527 | order and fill counts of adjacent ranges add up, on any logs |
| Aggregates.AdjacentBatchesAdd | crates/node/src/rpc.rs:3439-3527 | volumes of adjacent batches add up, although each is computed with its own index |
| OrderHistory.ReconstructOrders | crates/rpc/src/darkpool.rs:688-802 | every order named in the logs, with the entry that folding its own events in chain order gives; for the logs of a run, in whatever order, every entry tells the truth about the market the run reaches |
| OrderHistory.SortRestores | crates/rpc/src/darkpool.rs:691-693 | in whatever order the logs of a run arrive, sorting restores their order by block and then by index |
| OrderHistory.EntriesAreExact | crates/rpc/src/darkpool.rs:695-799 | on the log of any run exactly the ids handed out have an entry; filled and cancelled are the ledger's, remaining is what rests on the book, the status follows, and side, kind, pair, limit, amount and time in force are those of the submission |
| OrderHistory.ReconstructedAreExact | crates/rpc/src/darkpool.rs:683-802 | the same for logs that arrive in any order, with ascending places written out |
| OrderHistory.AllDescribed | crates/rpc/src/darkpool.rs:695-799 | on any consistent log an entry has the side, kind, pair, limit, amount and time in force of its submission, and a reason exactly for a cancellation, whose amount and reason it has |
| OrderHistory.OnlyMentionsMatter | crates/rpc/src/darkpool.rs:683-687 | leaving out events that do not name an order does not change its entry |
| Deposits.ChainOverConcat | crates/l1/src/deposit.rs:121-160 | the hash chain over two runs of deposits is the chain over the second from the head of the first |
| DepositQueue.TryEnqueueOk | crates/l1/src/queue.rs:55-169 | every offer keeps the window consecutive, hash-linked, chained, marked and above the floor; a duplicate changes nothing |
| DepositQueue.ConfirmOk | crates/l1/src/queue.rs:235-251 | a confirmation keeps all that, raises the floor strictly, and continues the processed chain by exactly that block's deposits |
| DepositQueue.ConfirmPops | crates/l1/src/queue.rs:235-251 | a confirmation takes the front off exactly when it names its number and hash, and changes nothing of the mark or the enqueued head |
| DepositQueue.DrainOk | crates/l1/src/queue.rs:255-268 | draining hands over every pending block in order, leaves none, keeps the invariants and moves the floor and the processed head to the tail |
| DepositQueue.FloorRejects | crates/l1/src/queue.rs:65-131 | anything at or below the floor is a duplicate and changes nothing |
| DepositQueue.WindowChain | crates/l1/src/queue.rs:186-205 | the chain value before each pending block is the fold over all deposits before it |
| DepositQueue.RunQueueOk | crates/l1/src/queue.rs:55-268 | over any run of offers, confirmations and drains the invariants hold, consumed numbers strictly increase, and the processed head is the fold from zero over all consumed deposits |
| DepositQueue.EnqueuedChain | crates/l1/src/queue.rs:186-216 | the enqueued head is the fold from zero over consumed and pending deposits |
| DepositQueue.AlwaysChained | crates/l1/src/queue.rs:44-169 | after any run the pending blocks have consecutive numbers and linked hashes, all above what was consumed, and the mark is the tail |
| PendingDepositsQueue.PendingDeposits.Push | crates/l1/src/queue.rs:186-205 | appends with the loop over deposits computing the chain |
| PendingDepositsQueue.PendingDeposits.Purge | crates/l1/src/queue.rs:207-216 | cuts the window and restores head and mark |
| PendingDepositsQueue.PendingDeposits.TryEnqueueBlock | crates/l1/src/queue.rs:55-169 | makes the transition in place and keeps the invariant |
| PendingDepositsQueue.PendingDeposits.EnqueueSealed | crates/l1/src/queue.rs:389-402 | panics exactly when a backfill would be needed |
| PendingDepositsQueue.PendingDeposits.Peek | crates/l1/src/queue.rs:222-224 | the front of the window, if any |
| PendingDepositsQueue.PendingDeposits.ConfirmBlock | crates/l1/src/queue.rs:235-251 | makes the confirmation in place and keeps the invariant |
| PendingDepositsQueue.PendingDeposits.DrainAll | crates/l1/src/queue.rs:255-268 | hands over the whole window |
| Backfill.BackfillRecovers | crates/l1/src/subscriber.rs:535-546 | after any request, the hash-linked range up to the offered block is taken without another request, whatever is confirmed in between, and ends at the tail |
| Backfill.OfferKnown | crates/l1/src/queue.rs:65-80 | a block already in the window is a duplicate and changes nothing |
| Backfill.OfferReorg | crates/l1/src/queue.rs:65-167 | a sibling of any pending block drops that block and all after it and takes its place if it descends from the block before; otherwise the outcome and the window are given for the first, the second and every later position |
| Backfill.OrphanIsGone | crates/l1/src/queue.rs:65-167 | after a reorg at any position the orphaned block is no longer pending |
| Backfill.OfferBeyond | crates/l1/src/queue.rs:132-167 | beyond the tail a child is appended, a gap is asked for with its exact range, and a tail that does not fit is dropped or replaced |
| Backfill.OfferToDrained | crates/l1/src/queue.rs:80-122 | with an empty window the outcome follows the high-water mark or, without one, the consumed floor, case by case |
| Backfill.MisfitOutcome | crates/l1/src/queue.rs:143-167 | a first block that does not attach purges the tail and asks again, or becomes the anchor of a window of one |
| Backfill.OnFloorIff | crates/l1/src/queue.rs:143-167 | an offer keeps the window on the block after the floor exactly unless it re-anchors a window of one |
| Backfill.NeverGapsIff | crates/l1/src/queue.rs:55-268 | over any run, the consumed numbers stay consecutive and the window on the floor at every point exactly when no offer of the run re-anchors |
| Backfill.FrontKeptIff | crates/l1/src/queue.rs:55-169 | the front of the window survives an offer exactly unless the block is its sibling, or a child of a sibling not yet in the window |
| Backfill.GapIsReachable | crates/l1/src/queue.rs:143-167 | some run leaves the window off the floor |
| Backfill.GapStaysOpen | crates/l1/src/queue.rs:124-132 | blocks below such a window are refused as duplicates |
| Backfill.FeedNeverPanics | crates/l1/src/subscriber.rs:300-345 | feeding a hash-linked run whose first block attaches or is already consumed never panics, whatever is confirmed in between |
| Backfill.SyncPanicsIff | crates/l1/src/subscriber.rs:300-311 | without confirmations the initial sync panics exactly when its first block is neither of these and does not follow a window of one |
| Subscriber.L1Subscriber.BackfillRange | crates/l1/src/subscriber.rs:345-456 | feeds the fetched blocks in order, with any confirmations in between, and stops at a panic |
| Subscriber.L1Subscriber.SyncRange | crates/l1/src/subscriber.rs:290-325 | the sync starts at the larger of the resolved block and the block after the last enqueued one, exactly when that is not beyond the tip |
| Subscriber.L1Subscriber.OnHeader | crates/l1/src/subscriber.rs:485-566 | a child flushes the buffered tip, anything else discards it; a gap is followed by feeding whatever was fetched; a complete fetch that answers the request recovers, confirmations in between included; a panic or failed fetch ends the run with nothing buffered |
| ZoneProtocol.RunZoneOk | crates/node/src/engine.rs:175-290 | the protocol invariant under every interleaving of offers, peeks, builds and confirmations |
| ZoneProtocol.AbsorbedOnce | crates/payload/src/builder.rs:183-231 | absorbed L1 blocks are consecutive and hash-linked from the anchor on and each absorbed once, and the floor is one of them |
| ZoneProtocol.DepositsProcessedOnceIff | crates/l1/src/queue.rs:235-251 | between builds the consumed blocks are the absorbed ones if and only if no confirmation was lost, and then the processed head is the fold over their deposits |
| ZoneProtocol.ConfirmationLostIff | crates/node/src/engine.rs:266-272 | an offer between build and confirmation loses the confirmation exactly when it displaces the front |
| ZoneProtocol.ConfirmationSurvives | crates/node/src/engine.rs:266-272 | after any number of offers none of which displaces the front, the confirmation counts |
| ZoneProtocol.ConfirmationCanBeLost | crates/node/src/engine.rs:266-272 | a run of five steps loses a confirmation |
| ZoneEngineLoop.ZoneEngine.Advance | crates/node/src/engine.rs:205-290 | one round makes exactly the stated protocol steps, succeeds exactly when the payload is accepted and the block's number and parent continue the zone's record, and then absorbs exactly that block |
| ZoneEngineLoop.ZoneEngine.AdvanceAllAvailable | crates/node/src/engine.rs:175-183 | the loop, with offers before each peek and during each build, makes exactly the stated protocol steps and absorbs one block per round made; without a failed build it ends with an empty queue or at the end of the given rounds |
| PrepareBlock.OpenIsExact | crates/l1/src/block.rs:39-193 | the positions that take a decryption are exactly the non-rejected encrypted deposits, in order |
| PrepareBlock.Prepare | crates/l1/src/block.rs:39-193 | one queued deposit per deposit in order, carrying its data; an encrypted one is rejected exactly when it decrypts to a recipient the policy denies; the k-th decryption belongs to the k-th open position and is the plaintext's proof, a proof of the failure or zeroes; fails exactly on a failed policy lookup |
| PrepareBlock.PreparedMatchesQueue | crates/l1/src/queue.rs:192-196 | folding the chain over the queued data of a pending block leads from its value before to its value after |
| PayloadBuilder.AdmittedUnfitIff | crates/payload/src/builder.rs:351-363 | a transaction that does not fit the rest of the block passes the loop's check exactly when the sum wraps |
| PayloadBuilder.RunsIff | crates/payload/src/builder.rs:351-394 | a transaction runs exactly when its limit fits the rest of the block and it executes |
| PayloadBuilder.KillsIff | crates/payload/src/builder.rs:351-394 | it fails the build exactly when it fits and fails fatally, or when the sum wraps |
| PayloadBuilder.RequestsAreThose | crates/payload/src/builder.rs:351-394 | the block holds the requests of each transaction that fits and executes, in pool order, and no others |
| PayloadBuilder.GasIsThat | crates/payload/src/builder.rs:351-394 | the counter starts at zero and grows by the gas of each transaction that fits and executes |
| PayloadBuilder.PoolFailsIff | crates/payload/src/builder.rs:351-394 | the loop fails exactly when some transaction fails fatally though it fits, or wraps the sum |
| PayloadBuilder.PoolGas | crates/payload/src/builder.rs:351-394 | the gas of the transactions that ran is within the block limit, for every pool |
| PayloadBuilder.GasWithinReach | crates/payload/src/builder.rs:351-394 | the gas of the transactions that ran is within what their limits can reach |
| PayloadBuilder.GasNeverFailsIff | crates/payload/src/builder.rs:351-394 | gas alone never fails a build with given gas limits, whatever the transactions use, if and only if no sum of the loop can wrap |
| PayloadBuilder.CappedPoolNeverFails | crates/node/src/node.rs:998-999 | a cap on gas limits that leaves room for the block limit rules such failures out |
| PayloadBuilder.RunPool | crates/payload/src/builder.rs:351-394 | requests of the transactions that ran, in order; the counter is their gas, within the block limit; fails exactly when an admitted transaction fails fatally or does not fit |
| PayloadBuilder.SealAll | crates/payload/src/builder.rs:411-434 | one seal per request in order: empty if it reveals to nobody, otherwise what the encryptor makes of key, sender and transaction; failure exactly when a seal is wanted and there is no encryptor or it fails |
| PayloadBuilder.FinalizesIff | crates/payload/src/builder.rs:396-401 | a block finalizes exactly when something was pending before it or its number is a multiple of the interval |
| PayloadBuilder.TryBuild | crates/payload/src/builder.rs:296-463 | batches everything pending when something was pending before or at the interval, otherwise leaves exactly this block's requests; the gas is that of the pool, within the limit; fails exactly when a system transaction, the pool or a seal of the batch fails |
| PayloadBuilder.PendingIsFresh | crates/payload/src/builder.rs:301-303 | what is pending after a block was requested in that very block, and leads the next block's batch |
| PayloadBuilder.WithdrawalsArePrompt | crates/payload/src/builder.rs:396-463 | each request is in the batch of its block or, if that has none, of the next, at a stated position and with its own seal |
| PayloadBuilder.EveryRequestBatchedOnce | crates/payload/src/builder.rs:396-463 | over any run of blocks the requests, in order, are the batched ones followed by the pending ones |
| Paging.ReverseInclusiveBlockRanges | crates/node/src/rpc.rs:3325-3341 | ranges newest first that tile the interval, all full except the oldest; none exactly for an empty interval or size |
| Paging.TilesCoverOnce | crates/node/src/rpc.rs:3325-3341 | a tiling covers each block of the interval in exactly one range |
| Prelude.PageLimit | crates/node/src/rpc.rs:1763-1767 | the requested size where it is within 1 and the maximum, otherwise the nearer bound; the default when none is requested |
| Paging.BatchPageIsFull | crates/node/src/rpc.rs:1763-1823 | a page is within its size, the pending batch included, and full when it points on; the pending batch is on the first page alone |
| Paging.BatchPageContents | crates/node/src/rpc.rs:1763-1823 | a page lists the batches from the newest below the cursor on without a gap, and points to the oldest it lists exactly when older ones are left |
| Paging.FollowListsRest | crates/node/src/rpc.rs:1763-1823 | following a cursor lists every older batch once, newest first |
| Paging.ListsEveryBatchOnceIff | crates/node/src/rpc.rs:1763-1823 | from the first page every batch is listed once, with the exact exception |
| ActivityCursor.CursorRoundTrip | crates/node/src/rpc.rs:3101-3158 | a cursor decodes to its key exactly when the id is nonempty and the rank is 0 or 1, colons in the id included |
| ActivityCursor.DecodesIff | crates/node/src/rpc.rs:3128-3157 | a text decodes to a key exactly when it spells the key's five numbers and nonempty id, plus signs and leading zeros aside, with rank 0 or 1 |
| ActivityCursor.LessIff | crates/node/src/rpc.rs:3083-3091 | keys are compared by their first differing field, most significant first, and then by the ids as texts |
| ActivityCursor.SortSorts | crates/node/src/rpc.rs:3019-3021 | the sort is a permutation, newest first |
| ActivityCursor.SortIsStable | crates/node/src/rpc.rs:3019-3021 | entries with equal keys keep their order |
| ActivityCursor.DedupFalls | crates/node/src/rpc.rs:3022 | after dropping repeated ids the keys strictly fall |
| ActivityCursor.DedupKeepsFirsts | crates/node/src/rpc.rs:3022 | an entry is kept exactly when the entry before it has another id |
| ActivityCursor.ListActivity | crates/node/src/rpc.rs:3019-3031 | the page after the cursor of the sorted, deduplicated entries; refused exactly for an undecodable cursor |
| ActivityCursor.PageIsFull | crates/node/src/rpc.rs:3023-3030 | a page is full unless it is the last, and points on, to its last entry, exactly when something is left |
| ActivityCursor.PagesListEveryEntryOnce | crates/node/src/rpc.rs:3019-3031 | following textual cursors lists the feed once, newest first by time, and no id is missing |
| ActivityCursor.FeedIdsDistinctIff | crates/node/src/rpc.rs:3019-3022 | ids are distinct on the feed exactly when no entry with another id falls between two entries of one id |
| ActivityCursor.FeedIdsDistinct | crates/node/src/rpc.rs:3019-3022 | when equal ids have equal keys, no id appears twice on the feed |

## Left out

- Views of the order book (`get_order`, `best_bid`, `pair_at` and the like): they only read.
- ABI dispatch, gas metering, storage-provider errors and delegate-call checks: plumbing.
- 128-bit wrap-around of order ids and 64-bit wrap-around of L1 block numbers: both are unbounded here.
- The four matching loops share one body in the model, `FillBestOrder`; the source repeats it four times.
- The precompile has one arithmetic error. The functions keep its causes apart, and the market-order methods of the object promise some arithmetic error rather than the same cause.
- Reference-price guard, ECIES, genesis patching, header encoding: single-function arithmetic or library code.
- Aggregates.AggregateBatchEvents: pair labels, their sorting and undecodable logs are not modelled, because they only shape the response.
- Subscriber.L1Subscriber.OnHeader: networking, receipt verification, event extraction and caches are not modelled; blocks arrive as values.
- ZoneEngineLoop.ZoneEngine.Advance: heartbeats, timing and what happens after a lost confirmation are not modelled; only safety is stated.
- PayloadBuilder.TryBuild: whether a system transaction succeeds is given, a cancelled build counts as a fatal error, and the gas passed to the read-only outbox call is not modelled.
- OrderHistory.ReconstructOrders: block numbers and transaction hashes of an entry and undecodable logs are not modelled; who may see which logs is the caller's filter.
- Paging.ListsEveryBatchOnceIff: pages are values; the summary cache and the fetch behind a page are not modelled.
- ActivityCursor.ListActivity: sort, dedup and retain are functions on sequences, not updates of a vector in place.
- Test-only queue helpers (`transition`, clearing the high-water mark), the rest of the RPC server, command line and node wiring.
