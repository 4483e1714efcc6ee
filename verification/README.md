# Verified model of walletsforce

walletsforce sends Ethereum transactions from a pool of accounts. Every account has a nonce lane, an
in-flight set in a cache and rows in a durable store; submits, a reconcile tick, nonce seeds and crashes
interleave at every `await`. This project models that protocol in Dafny and proves what it keeps.

## How the model is built

* **Step systems.** `AccountProtocol` is one managed account: its live rows, the lane cursor, the tracked
  records, a program counter for the open submit turn, one for the tick and one for each rebroadcast of
  restore. A step ends wherever the code awaits something that touches shared state, so all
  interleavings and a crash between any two awaits are runs of the system. Send results, receipts, fees,
  gas, clocks and store failures are parameters of the steps. `PoolProtocol` puts any number of accounts
  over one transaction table and adds routing, sticky bindings, the queue of each lane and unfinished
  submits.
  `AccountInvariant`, `AccountWrites`, `AccountSteps`, `PoolViews`, `PoolBindings`, `PoolInvariant` and
  `PoolSteps` show step by step what is kept; `AccountTheorems`, `AccountHistory`, `AccountHashes`, `GiveUp`,
  `PoolTheorems` and `PoolOrder` state the results for all runs. Each account carries a history (what was signed, accepted,
  settled and emitted) that no step reads. `TreasuryProtocol` is the funder in the same way: one open call
  for each recipient, all of them over one set of marks and one lane.
* **Objects.** `InMemoryStore`, `SqliteStore`, `Lane`, `NonceLane`, `InMemoryCache`, `ManagedAccount`,
  `DefaultRouter`, `WalletForcePool`, `InMemoryEventBus` and `TreasuryFunder` are classes with the fields
  and loops of the source. A `ManagedAccount` has a ghost trace, and its invariant says that the cache
  and the store hold exactly what the account protocol reaches by that trace: every method is proved to
  append a fixed script of allowed steps (`AccountScripts`), so the results for all runs hold of the
  objects. `PoolSubmits` does the same for a submit of the facade and the pool protocol. A `TreasuryFunder` is
  tied to its step system in the same way. `Outcomes` says what whole scripts come to.
* **Pure cores.** Fee oracles, the row codec of the SQLite store, the selector.

## Assumptions

* The idempotency keys of live and unfinished transactions are distinct (README.md:285).
* One tick runs per account at a time (README.md:150).
* `restore` finishes before submits and ticks begin (src/pool.ts:49).
* A routed submit joins the queue of its lane in the order of routing (src/pool.ts:95-107: nothing but the
  same chain of promises lies in between).
* A rejected send was not accepted by the node (src/account/managed-account.ts:82).
* The store takes the row that drops a refused intent and the live row of an accepted send
  (src/account/managed-account.ts:83-85 and 91), as the in-memory store does. `LiveRowMustBeWritten` and
  `RefusedRowMustBeDropped` show that the invariant survives exactly if it does, with or without drift, and
  `LostLiveRowReusesNonce` says when the next submit then reuses the nonce. The write-ahead, every write
  of a tick and every write of a rebroadcast may fail.
* `reattach` happens on an idle lane, under an untracked nonce, and for a key that is unbound or bound to
  the same account (`ReattachNeedsIdleLane` says what an open turn does to it, from whatever stage on).
* The treasury has at most one call open for each recipient (src/supervisor.ts:107-121).

Where code and comments disagree the model follows the code. "Store and cache never disagree"
(src/account/managed-account.ts:226) is not true within a submit and within a tick: in a running account the
two agree if and only if no submit has a row that it has still to track and the tick no write that it has
still to bring into the cache (`InSyncExactly`); `StoreAndCacheAgree` says what holds in between, and
`StoreCanBeAhead` is a run that gets there. That a lane's cursor
goes "forward only" (src/cache/interface.ts:24) is true of `seedNonce` but not of the lane: a turn that ends
well assigns its nonce plus one (src/cache/in-memory.cache.ts:23) and forgets a seed beyond it that landed
inside. `CursorFallsExactly` says that nothing else moves a cursor back, `CursorCanFall` is a run that does
it, and `Lanes.SuccessForgetsSeeds` says the same of a whole turn.

## Model

| member | source | states |
|---|---|---|
| AccountSteps.RunKeeps | src/account/managed-account.ts:57-266 | the account invariant holds in every state of every run, in all interleavings of a submit turn, a tick, seeds, crashes and restore |
| AccountTheorems.NoAcceptedTxIsLost | src/account/managed-account.ts:75-92 | in every state a transaction the node accepted has a non-terminal row until its terminal row is written, and a settled one has none |
| AccountTheorems.RestoreIsExact | src/account/managed-account.ts:196-221 | when restore ends the cache holds exactly the account's live rows, one record a row, and the cursor is past all of them |
| AccountTheorems.StoreAndCacheAgree | src/account/managed-account.ts:226-258 | store and cache hold the same records, except the open turn's pending row and at most one write by which the tick is ahead |
| AccountHistory.InSyncExactly | src/account/managed-account.ts:224-258 | in every state of a running account, store and cache hold the same records if and only if the open turn has no untracked row and the tick no uncached write |
| AccountHistory.StoreCanBeAhead | src/account/managed-account.ts:227-230 | a run after which a settled row is gone while its record is still tracked |
| AccountTheorems.LiveNoncesAreDistinct | src/cache/in-memory.cache.ts:19-31 | no two live rows of an account ever share a nonce, across any number of crashes |
| AccountTheorems.CursorDominates | src/cache/in-memory.cache.ts:19-31 | outside open turns the cursor exceeds every live nonce; inside one, the turn's nonce exceeds every other live nonce |
| AccountTheorems.AcceptedNoncesIncrease | src/cache/in-memory.cache.ts:55-58 | within a process the nonces of accepted sends strictly increase even when seeds land inside a turn |
| AccountHistory.AcceptedNoncesFollow | src/cache/in-memory.cache.ts:19-31 | between seeds, drifts, reattaches and crashes accepted submits get consecutive nonces, the first on an idle lane the cursor; failed and refused submits and ticks leave no gap |
| AccountHistory.CursorFallsExactly | src/cache/in-memory.cache.ts:23 | short of a crash a step moves the cursor back if and only if it ends a turn well after a seed went beyond the turn's nonce plus one |
| AccountHistory.CursorCanFall | src/cache/in-memory.cache.ts:19-31 | a run in which ending a turn takes the cursor from 5 back to 1 |
| AccountHistory.RunReportBelow | src/account/managed-account.ts:227-232 | in every state a settled transaction not yet reported is still below the cursor, or below an open turn's nonce |
| AccountHistory.PastTurnLasts | src/account/managed-account.ts:126-232 | a transaction past its turn keeps its nonce and stream as a live row or as the settled one in the tick's hand until, at some moment, it is settled with no row, record or report left |
| AccountTheorems.BackpressureSurvivesCrashes | src/account/managed-account.ts:64-66 | without reattach, live rows and tracked records never exceed maxInflight, in all interleavings and after every restore |
| AccountTheorems.LifecycleIsOrderly | src/account/managed-account.ts:133-161 | per key at most one mined and one terminal event, nothing after the terminal one, fewer than maxAttempts replacements, attempts within 1..max(1, maxAttempts) |
| AccountTheorems.ReplacementPreservesTx | src/account/managed-account.ts:235-257 | every payload signed for a key has the first one's chain, nonce, recipient, data, value and gas, with fees a chain of bumps leads to; a row's fees take one bump an attempt |
| AccountHistory.SignsPersistedRow | src/account/managed-account.ts:203-258 | in every run a step signs for a live transaction nothing but the payload of its persisted row; a replacement pays exactly one bump of the persisted fees, a send or a rebroadcast exactly those fees |
| AccountHashes.WatchedHashIsOwn | src/account/managed-account.ts:77-92 | in every run the hash of a live row is one the node returned for a payload of its key, or one given to reattach, or none; a broadcast row has none if and only if the rebroadcast that marked it met drift, of the node or of a store error that reads as drift |
| AccountHashes.HashCanBeLost | src/account/managed-account.ts:203-221 | a run in which an accepted transaction is live as broadcast without a hash: a crash before its live row, then drift at its resend |
| AccountTheorems.SignedPriceIsBounded | src/account/managed-account.ts:236-237 | with the default legacy oracle no signed price is below the first or above (9/8)^(maxAttempts-1) times it |
| AccountTheorems.LiveRowMustBeWritten | src/account/managed-account.ts:90-92 | after an accepted send the invariant is kept if and only if the live row is written |
| AccountTheorems.LostLiveRowReusesNonce | src/account/managed-account.ts:90-92 | if it is not written, the next submit duplicates the nonce exactly if no seed has moved the cursor |
| AccountTheorems.RefusedRowMustBeDropped | src/account/managed-account.ts:82-88 | after a refused send, drift or not, the invariant is kept if and only if the intent row is dropped |
| AccountTheorems.ReattachNeedsIdleLane | src/cache/in-memory.cache.ts:23 | a transaction reattached at any stage of an open turn: if the turn then succeeds it stays below the cursor exactly if its nonce is at most the turn's, and in the cache exactly if it is not the turn's own; if the turn fails both hold |
| PoolSteps.PoolRunKeeps | src/pool.ts:92-166 | the pool invariant holds in every state of every run of the pool |
| PoolTheorems.AccountsRunAlone | src/pool.ts:92-166 | every account inside a pool run has made a run of its own, so results about one account hold in the pool |
| PoolTheorems.NothingAcceptedIsLost | src/account/managed-account.ts:227-232 | whatever any account's node accepted is in the shared table, on its account, until settled, also while the process is down |
| PoolTheorems.PoolRestoreIsExact | src/pool.ts:142-166 | after any crash restore leaves every owned account with exactly its live rows of the table |
| PoolTheorems.ForeignRowsUntouched | src/pool.ts:155-159 | rows of other owners, chains and accounts are never written |
| PoolTheorems.OneRowPerNonce | src/store/in-memory.store.ts:23-27 | in the table an account and a nonce name at most one live row |
| PoolTheorems.TableRespectsCap | src/account/managed-account.ts:64-66 | the in-flight cap bounds each account's rows in the table and its in-flight set through crashes and restores |
| PoolOrder.QueuesListWaiting | src/cache/in-memory.cache.ts:19-31 | in every state the queue of a lane lists exactly the routed submits that wait for it, each once |
| PoolOrder.FirstInQueueCanOpen | src/pool.ts:105-107 | while a submit waits for a lane, the first in its queue can open its turn as soon as the lane is idle; nothing live holds its key |
| PoolOrder.FirstRoutedOpensFirst | src/cache/in-memory.cache.ts:19-31 | a submit routed to a lane for which another waits does not get its turn before it, short of a crash |
| PoolOrder.StreamIsFifo | src/routing/index.ts:1-3 | of two submits of one ordering key routed one after the other the first gets its turn first, short of a crash |
| PoolOrder.AcceptedInOrder | src/routing/index.ts:1-3 | and if the first was accepted, the second's turn is on the same account under a greater nonce, or the first was settled and released before |
| PoolTheorems.StickyRefsAreConserved | src/cache/in-memory.cache.ts:102-119 | in every state the refs of an ordering key equal its unfinished submits, tracked transactions and settled ones not yet reported, and the key is bound if and only if there are any |
| PoolTheorems.StreamsStayTogether | src/routing/default-router.ts:20-30 | all live rows of an ordering key are on one account, also after crashes, and that is the bound account while the pool is up |
| PoolTheorems.WorkIsPinned | src/cache/in-memory.cache.ts:102-119 | while an ordering key has unfinished submits, tracked transactions or settled ones not yet reported, it is bound, and all of them are on the account it is bound to |
| PoolTheorems.StreamsAreOrdered | src/routing/default-router.ts:5-11 | from the opening of a turn of an ordering key until its transaction is tracked, every live row, every tracked transaction and every settled one not yet reported of the key is on the same account under a smaller nonce, the turn's own row apart |
| PoolTheorems.LaterTurnIsAbove | src/routing/default-router.ts:5-11 | from any transaction of a stream that is past its turn to any later open turn of the stream: same account and greater nonce, or the transaction was settled and had released its ref in between |
| PoolTheorems.TurnsFollow | src/routing/default-router.ts:5-11 | the same for two turns of one stream, from the moment the first has tracked its transaction |
| PoolTheorems.OneTurnPerStream | src/routing/default-router.ts:24-29 | two accounts never both have a turn of one ordering key whose transaction is not tracked yet |
| PoolBindings.EffectKeeps | src/events/in-memory.event-bus.ts:96-100 | each effect of an account step on bindings, unfinished submits and refs keeps the ref equation |
| GiveUp.GivesUpOnTime | src/account/managed-account.ts:154-161 | with no receipt, however else steps interleave, the row of a replaceable transaction is replaced once a write and failed by write max(0, maxAttempts - attempts) + 1 |
| GiveUp.TickGoesOn | src/account/managed-account.ts:126-168 | wherever a tick stands in its pass, and whatever else has moved, its next step is possible and takes it one step further; it ends with its pass |
| GiveUp.StuckTickWritesOnce | src/account/managed-account.ts:126-168 | a tick that finds a tracked transaction stuck writes its row exactly once, with any submits, seeds and reattaches between its awaits |
| GiveUp.StuckTransactionFails | src/account/managed-account.ts:154-161 | after n ticks that find it stuck, anything else between and within them, it is live and in flight at n more attempts if n is at most max(0, maxAttempts - attempts); after one more it is failed: no row, no record, failed its last event |
| Outcomes.SubmitIsAllOrNothing | src/account/managed-account.ts:61-95 | a submit always ends, and has either stored and tracked the broadcast transaction under the lane's nonce and advanced the lane by one, or left rows and in-flight set as they were and the lane too unless the node reported drift |
| Outcomes.RunThenPerform | src/account/managed-account.ts:57-266 | a run followed by an operation's script is a run, ending where the script leads |
| Outcomes.ReportsWhatIsDue | src/account/managed-account.ts:131-161 | a tick reports confirmed, mined, reverted, replaced or failed for a record if and only if that event is due by receipt, depth and time, every depth measured against the head answered at the first included record where it could be read |
| Outcomes.TickRuns | src/account/managed-account.ts:126-168 | a tick always runs to its end, whatever the node, the clock and the store answer |
| Outcomes.OneReportEach | src/account/managed-account.ts:131-161 | a tick reports at most one event of each record, in the order of its visits |
| ManagedAccounts.ManagedAccount.Start | src/account/managed-account.ts:55-57 | a new process over the store of earlier runs is the crashed and rebooted account |
| ManagedAccounts.ManagedAccount.Submit | src/account/managed-account.ts:61-95 | takes exactly the script of its answers, is all or nothing, succeeds if and only if admitted and accepted, returns the lane's nonce, the hash and the estimated fees, touches nothing else |
| ManagedAccounts.ManagedAccount.Send | src/account/managed-account.ts:77-93 | from the write-ahead on: recorded and tracked if the node took it, else dropped and, on drift, the lane reseeded |
| ManagedAccounts.ManagedAccount.ConfirmTick | src/account/managed-account.ts:126-168 | one pass over the in-flight set in nonce order takes exactly the steps and emits exactly the events of its answers, with the head read at most once |
| ManagedAccounts.ManagedAccount.VisitRecord | src/account/managed-account.ts:131-167 | one record: revert, mine, confirm when deep enough, replace, give up, or wait; an error skips it |
| ManagedAccounts.ManagedAccount.Settle | src/account/managed-account.ts:227-232 | terminal row, then cache, then event; if the store throws nothing has happened |
| ManagedAccounts.ManagedAccount.Replace | src/account/managed-account.ts:235-258 | resends the bumped payload under the same nonce and records it store-first |
| ManagedAccounts.ManagedAccount.Rebroadcast | src/account/managed-account.ts:203-221 | resends a pending row; drift of the node, or of the store, marks it broadcast |
| ManagedAccounts.ManagedAccount.RestoreTransaction | src/account/managed-account.ts:197-200 | tracks a row again and seeds the lane past it |
| ManagedAccounts.ManagedAccount.RestoreAccountState | src/account/managed-account.ts:191-194 | seeds the lane from the persisted snapshot, forward only |
| ManagedAccounts.ManagedAccount.Reattach | src/account/managed-account.ts:99-122 | stores, tracks and seeds past a placeholder |
| ManagedAccounts.ManagedAccount.PrimeNonce | src/account/managed-account.ts:171-174 | seeds the lane from the chain at any moment |
| WalletPools.WalletForcePool.Submit | src/pool.ts:92-125 | routes, acquires a ref and submits on the destination; a failed submit leaves the bindings as they were and every other account untouched |
| PoolSubmits.SubmitIsPoolRun | src/pool.ts:92-125 | on a lane nobody waits for, routing, the submit's script and, if it throws, the release are a run of the pool protocol, with the bindings one ref richer exactly if the transaction was accepted |
| WalletPools.WalletForcePool.SubmitFollowsPool | src/pool.ts:92-125 | if the objects are a state of the pool protocol, then what Submit leaves is the state after those steps |
| WalletPools.WalletForcePool.WalletStates | src/pool.ts:187-204 | one candidate for each account, counts and cursors from the cache, healthy until gauged |
| WalletPools.WalletForcePool.Reattach | src/pool.ts:134-140 | reattaches on the named account and acquires a ref |
| WalletPools.WalletForcePool.Restore | src/pool.ts:142-166 | afterwards every account is up and has recovered exactly its live rows, whatever the rebroadcasts met, and the bindings are those of the listed rows |
| WalletPools.RestoredRefs | src/pool.ts:157-163 | restore binds exactly the ordering keys of owned rows, with one ref a row, on the account of the rows |
| WalletPools.ReleaseUndoesBind | src/pool.ts:97-111 | giving a ref back undoes acquiring it |
| Cache.InMemoryCache.ListTxs | src/cache/in-memory.cache.ts:79-82 | lists every tracked record once by ascending nonce |
| Cache.InMemoryCache.WithNonce | src/cache/in-memory.cache.ts:51-53 | a whole turn on an account's lane, seeds inside it included, grants and moves as specified and leaves every other account alone |
| Cache.InMemoryCache.OpenTurn | src/cache/in-memory.cache.ts:51-53 | a turn gets the cursor, or 0 on a lane never seeded, and no other account's lane moves |
| Cache.InMemoryCache.SeedNonce | src/cache/in-memory.cache.ts:55-58 | moves one lane forward only |
| Cache.InMemoryCache.PutTx | src/cache/in-memory.cache.ts:65-73 | files a record under its account and nonce |
| Cache.InMemoryCache.DropTx | src/cache/in-memory.cache.ts:75-77 | removes one record |
| Cache.InMemoryCache.BindOrdering | src/cache/in-memory.cache.ts:102-111 | pins a key on first touch, else adds a ref and answers the pinned account |
| Cache.InMemoryCache.ReleaseOrdering | src/cache/in-memory.cache.ts:113-119 | takes a ref and evicts the key at zero |
| Lanes.Lane.Run | src/cache/in-memory.cache.ts:19-31 | a whole turn with seeds landing inside it grants and moves as specified |
| Lanes.NonceLane.WithNextNonce | src/account/nonce-lane.ts:21-45 | the same for the stand-alone lane, which asks the chain when unseeded and assigns on drift |
| Lanes.LanesAgree | src/account/nonce-lane.ts:21-50 | from one seed both lanes grant the same nonces to every sequence of seeds, successes, failures and drifts in which no seed inside a drifting turn exceeds where the drift puts the lane |
| Lanes.OneOp | src/account/managed-account.ts:260-266 | after one operation the two cursors agree if and only if that condition holds |
| Lanes.LostSeedShows | src/account/nonce-lane.ts:29-36 | and when it fails the next turn already gets a different nonce |
| Lanes.UnseededAgree | src/account/nonce-lane.ts:23-24 | never seeded, they agree exactly if the chain answers 0 |
| Lanes.SuccessesIncrease | src/account/nonce-lane.ts:25-28 | in both lanes the nonces of successful turns strictly increase, whatever comes between |
| Lanes.ConsecutiveNonces | src/cache/in-memory.cache.ts:19-31 | without seeds or drifts each turn gets the start plus the successes before it |
| Lanes.SuccessForgetsSeeds | src/cache/in-memory.cache.ts:19-31 | a successful turn takes the lane back if and only if a seed inside it exceeded the turn's nonce plus one |
| MemoryStore.InMemoryStore.UpsertTransaction | src/store/in-memory.store.ts:23-27 | a terminal write deletes the row, any other replaces it |
| MemoryStore.InMemoryStore.LoadActiveTransactions | src/store/in-memory.store.ts:29-33 | lists each live row of the owner and chain exactly once |
| MemoryStore.MemoryHoldsLastWrites | src/store/in-memory.store.ts:23-33 | after any writes a key is live exactly if its last write was not terminal, and holds that write |
| SqliteStore.IntRoundTrip | src/store/sqlite.store.ts:197-198 | every bigint, negative ones included, survives its decimal text |
| SqliteStore.FeesRoundTrip | src/store/sqlite.store.ts:118-127 | both fee shapes survive their columns |
| SqliteStore.RecordRoundTrip | src/store/sqlite.store.ts:185-237 | a row read back is the record written, with absent values and the three states of replaceable |
| SqliteStore.AccountRoundTrip | src/store/sqlite.store.ts:157-183 | the same for account rows |
| SqliteStore.StoresAgree | src/store/sqlite.store.ts:185-237 | after any writes the SQLite and the in-memory store recover the same transactions, though one keeps terminal rows |
| SqliteStore.SqliteStore.LoadActiveTransactions | src/store/sqlite.store.ts:213-237 | lists each selected row exactly once, decoded |
| Routing.PicksFirstLeast | src/routing/least-inflight.selector.ts:7-12 | the selector picks the first candidate with the fewest transactions in flight |
| Routing.PrefersHealthy | src/routing/default-router.ts:20-28 | with a healthy candidate around, the preferred one is healthy and no healthy one is less loaded |
| Routing.DefaultRouter.Route | src/routing/default-router.ts:20-30 | the pinned account, else the preferred one, which is pinned; an ordering key acquires one ref, and only an empty pool fails |
| Routing.DealtAfter | src/routing/least-inflight.selector.ts:7-12 | from equal counts any run of unordered submits, some refused for other reasons, deals the others round robin up to the cap |
| Routing.SpreadIsFair | src/routing/least-inflight.selector.ts:7-12 | after any such run counts differ by at most one, and a submit meets the cap exactly when every account is at it |
| EventBus.InMemoryEventBus.WaitForConfirmation | src/events/in-memory.event-bus.ts:55-79 | a new waiter joins its key's list; waiters are listed exactly while they wait and no list is empty |
| EventBus.InMemoryEventBus.OnTimeout | src/events/in-memory.event-bus.ts:63-74 | times out a waiter that still waits and leaves a settled one alone |
| EventBus.InMemoryEventBus.Handle | src/events/in-memory.event-bus.ts:83-116 | a terminal event settles exactly the waiters of its key, resolving only on confirmed, and releases the sticky ref; other events settle none |
| Treasury.TreasuryFunder.MaybeTopUp | src/balance/treasury-funder.ts:53-105 | one call takes the steps of its script and no others, and sends exactly when the recipient is below target, unmarked, affordable and accepted |
| Treasury.CallRuns | src/balance/treasury-funder.ts:53-105 | the script of a call is a run of the funder's step system from any state, other recipients' calls open or not, while the lane is free |
| TreasuryProtocol.FunderRunKeeps | src/balance/treasury-funder.ts:53-105 | marks, lane and log agree in every interleaving of calls for different recipients |
| TreasuryProtocol.NeverFundedTwice | src/balance/treasury-funder.ts:57-64 | in every interleaving, between two accepted top-ups of a recipient its balance was seen at the target |
| TreasuryProtocol.TopUpNoncesIncrease | src/balance/treasury-funder.ts:83-98 | in every interleaving the nonces of accepted top-ups strictly increase |
| Treasury.FloorIsKept | src/balance/treasury-funder.ts:68-81 | if sends land before the next check, the treasury holds its floor, gas included, or never held it and was not charged |
| FeeOracles.GeometricBounds | src/fee/legacy.ts:22-33 | k default bumps keep 8^k(g_k - 7) >= 9^k(g0 - 7), 8^k g_k <= 9^k g0 and g_k >= g0 |
| FeeOracles.DefaultBumpRises | src/fee/index.ts:20-22 | a default bump never lowers an amount and raises it exactly from 8 wei on |
| FeeOracles.DefaultBumpBeatsNode | src/fee/index.ts:16-22 | a default bump gives ten per cent more exactly if v % 8 <= 2 (v / 8), so from 32 wei on |
| FeeOracles.LastRefusedAmount | src/fee/index.ts:16-22 | at 31 wei it does not |
| FeeOracles.NodeTakesBump | src/fee/eip1559.ts:33-44 | exactly when a node with a ten per cent rule takes one default replacement, for both fee shapes and the legacy floor |
| FeeOracles.NodeTakesEveryReplacement | src/fee/eip1559.ts:33-44 | from 32 wei on it takes every replacement of a chain of any length |
| FeeOracles.ChainIsValid | src/fee/eip1559.ts:21-44 | estimate and any number of bumps keep maxFeePerGas >= maxPriorityFeePerGas >= 0 |

## Left out

- Signing, RPC and the classification of errors: a send is accepted, refused with drift, or fails otherwise; a signing failure counts as a refused send.
- Zod parsing, address casing, metadata JSON, loggers and user callbacks: identifiers and texts are opaque values.
- SQLite itself: the database is a map by idempotency key; integers are unbounded, so column widths and doubles are not modelled.
- SqliteStore.Parse: reads decimal text with an optional sign, which is all that is ever written; other BigInt syntax is an error here.
- The order in which a store lists its rows: the lists are proved complete and without repetition.
- `orderingCount` over several owners and the concatenated text of a binding's key: bindings are keyed by the ordering key of the one owner.
- Listeners of the event bus and the pool's own `broadcast` event: they change no state of the bus or the pool.
- `Supervisor` timers and back-off, `PoolRegistry`, examples and contracts: of these only "one tick per account" is used.
- ManagedAccounts.ManagedAccount.Submit: no other actor moves inside the method; interleavings are in the step system, whose runs include those of the method.
- WalletPools.WalletForcePool.Restore: rebroadcasts run one after the other; the step system interleaves them freely.
- PoolTheorems.StreamsAreOrdered: reattach is one step on an idle lane, for a key that is unbound or bound to the same account, because elsewhere the source lets a caller break the order.
- ManagedAccounts.ManagedAccount.Reattach: one step, on an idle lane and under an untracked nonce; AccountTheorems.ReattachNeedsIdleLane says what becomes of it inside an open turn.
- WalletPools.WalletForcePool.Reattach: the same, for a key that is unbound or bound to the named account.
- WalletPools.WalletForcePool.Submit: every lane is idle and no other actor moves inside the method; `PoolProtocol` interleaves submits and queues them behind open turns.
- EventBus.InMemoryEventBus.Handle: tied to the binding functions, not to a run of `PoolProtocol`; the same holds of the facade's `Restore` and `Reattach`.
- Cache.InMemoryCache.WithNonce: stands by itself; `ManagedAccount` opens and closes turns, because what it does in between are steps of their own.
- Unconditional liveness: a replacement refused with drift counts no attempt (src/account/managed-account.ts:243), so giving up is proved under its condition only.
- Treasury.TreasuryFunder.MaybeTopUp: no other call moves inside the method; interleavings are in `TreasuryProtocol`, whose runs include those of the method.
- Treasury.FloorIsKept: top-ups that overlap are not covered, since `refreshBalances` runs them in parallel on balances read apart.
- The restored cursor equals no earlier cursor: the persisted one is a snapshot.
