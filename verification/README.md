# LeverX keeper and app: verified model

LeverX lets users take leveraged positions on Predict markets. The keeper relays signed trades, creates Predict
managers, runs maintenance tasks and serves a Telegram bot; the app multiplexes live channels over one socket. This
project models the stateful protocols, the signed-message codec and the sizing arithmetic of the keeper and app, and
proves what they promise over every input, every run and every interleaving.

How the parts are modelled:

- Services whose fields change are classes; their methods are proved against pure step functions, and the theorems are
  about runs of those functions.
- Asynchronous code is a state machine whose events are the stretches between two awaits. A run is any sequence of
  events, so it is any interleaving of any number of calls, with any outcome of stores, chain, indexer and
  authentication. An event that is not due changes nothing.
- Clock readings, random codes, prices, server pages and timers' wake-ups are parameters. `bigint` is `int`, with
  division rounding towards zero. JavaScript numbers in messages are `nat`; above 2^53 - 1 their reading, rounding and
  printing are any functions that obey the laws of ECMAScript stated as `Faithful`.

| file | what it models |
|---|---|
| `JsBasics.dfy`, `JsText.dfy` | the parts of JavaScript used: trim, lower case, split, join, decimals, BigInt division |
| `KeyValueMessage.dfy`, `TradeMessage.dfy`, `ManagerMessage.dfy` | the five signed messages |
| `WireText.dfy` | their very lines as built, and what is made of any text |
| `ChannelRegistry.dfy`, `IndexerSocket.dfy`, `ChannelStream.dfy` | reference-counted channels, the reconnecting socket below them, and the two together |
| `SocketReplacement.dfy` | the sockets that the reconnecting one opens one after another, or at once |
| `ManagerCreation.dfy`, `ManagerLaws.dfy` | double-checked manager creation with in-flight joins; whole lookups and creations, and the authorization before them |
| `ManagerRow.dfy`, `ManagerAgreement.dfy`, `ManagerExecutions.dfy` | when its row is settled, when its replies agree, how many managers it creates on chain |
| `KeeperOrchestrator.dfy`, `LifecycleLock.dfy` | per-kind task locks, per-account lifecycle lock |
| `RateLimit.dfy` | the fixed-window rate limiter |
| `RpcPacing.dfy`, `RpcFailover.dfy` | RPC spacing, retry and fallback |
| `TradeReplay.dfy`, `IntentReplay.dfy` | the replay cache and the check-authenticate-mark sequence, by keys and by intents |
| `TelegramAuth.dfy`, `TelegramLaws.dfy`, `TelegramIndex.dfy` | one-time codes, sessions, how long both can be used, the account index over whole runs |
| `TelegramRedeem.dfy`, `TelegramInterleaving.dfy` | concurrent redemption, and revocation between the awaits of other operations |
| `TradeMath.dfy`, `MintSizing.dfy` | budgets, caps, leverage windows and the mint sizing search |
| `IndexerFetch.dfy`, `ForceClose.dfy`, `PriceSeries.dfy` | paging and merging, the budgeted force-close, the price series |

## Where the code falls short of the plain claim

Each of these is proved with a concrete run or as an exact condition.

- Rate limiter: each bucket's own window holds at most the limit (`EveryWindowHoldsLimit`), but a stretch of the same
  length elsewhere may let 2 * limit - 1 requests through, and no more (`SlidingWindowBound`,
  `SlidingWindowBoundIsTight`). Every stretch keeps the limit exactly for limit 1 or windows below 2 ms
  (`PlainBoundExactly`).
- Replay, by cache key: an accepted key is safe until its expiry exactly when no other request with that key is between
  its check and its mark (`SafeExactlyWithoutOverlap`, `OverlapIsAcceptedTwice`). After the expiry the cache forgets the
  key, but the expiry check still tolerates 30 s of clock skew; the key is accepted again exactly in that interval
  (`ReplayableExactlyInSkew`, `AcceptedTwice`).
- Replay, by intent: a key is the text of the signature field, which is not verified when a session token comes along.
  So a token lets one message pass again and again before its expiry, one request after the other
  (`TokenReplaysAtWill`). With no request under way an intent can be accepted exactly when a token works in time or an
  unmarked signature over it verifies (`AcceptableExactly`, `AcceptedOnceExactly`).
- RPC spacing holds, for any number of callers, exactly when they do not overlap
  (`SpacedExactlyWhenSequential`, `ThreeAtOnce`).
- Manager creation: all replies for an address name one manager exactly when its row is stored at start-up
  (`AgreedExactlyWhenStored`, `RepliesMayDisagree`), and from any later state exactly when nobody who missed the row can
  still replace it and every reply given or due names it (`AgreedExactlyWhenSettled`, `RowStaysExactlyWhenSettled`).
- On chain: all but one of the managers created for an address are lost (`AllButOneLost`), but there is no bound on
  them (`CreationsAreUnbounded`); no further one is created exactly when the row is stored and no work is between its
  recheck and its execution (`NoFurtherCreationExactlyWhenClosed`).
- Telegram: a revoked account stays revoked exactly when the index listed every live session of it and no other
  operation was about to write one (`RevocationHoldsExactly`, `TouchUndoesRevocation`, `LinkOutrunsRevocation`).
- Telegram: revoking one account may end another account's session (`RevokeMayHitAnotherAccount`), exactly when the
  chat was linked to the first account earlier and to the other one later (`RevokeHitsExactly`). A code that two chats
  read before either deletes it opens two sessions (`CodeOpensTwoSessions`, `RedeemedOnceExactly`). The mint cap there
  ignores the borrow, so it refuses a budgeted cost exactly when the budget exceeds the margin
  (`UnborrowedCapRefusesExactly`, `CapRefusesBudgetedCost`).
- Signed messages: a market order that carries limit-only fields is parsed with them and printed without them
  (`AcceptedMintIsCanonical`, `SampleLosesLimitPremium`), and market numbers from 1e21 on are printed with an exponent
  that the parser refuses (`HugeStrikeIsRefused`).
- Channel socket: subscriptions sent before a reconnect are not sent again, so a held channel is streamed exactly when
  no open connection ended while it was held without a break (`HeldIsStreamedExactly`).
- Channel socket: it is one socket at a time exactly when none is opened before the earlier one is closed
  (`TidyExactly`); subscribing while a socket closes, or while the reconnect timer runs, leaves a stray one
  (`SubscribeWhileClosing`,
  `SubscribeBeforeTimer`).
- Mint sizing: the cap of 12 tries loses a quote that the search would find exactly when the search takes more probes;
  some price source does that exactly when the slowest way down takes more (`CapBindsExactly`, `CapCanLoseExactly`).

## Model

| member | source | states |
|---|---|---|
| KeyValueMessage.LastBindingWins | keeper/src/trade/trade-message.ts:90-96 | a field is present exactly when some line binds it, and holds the value of the last such line |
| KeyValueMessage.ParseKeyValueMessage | keeper/src/trade/trade-message.ts:80-97 | the parsing loop collects the last-binding map of the lines after an exact prefix, else rejects |
| KeyValueMessage.ParseRendered | keeper/src/trade/trade-message.ts:80-97 | a rendered message parses to exactly the printed fields with the printed values, nothing more |
| KeyValueMessage.ReadNumber | keeper/src/trade/trade-message.ts:107-140 | a printed bigint reads back in all four numeric parsers, for safe integers in the number parsers |
| KeyValueMessage.ReadJsNumber | keeper/src/trade/trade-message.ts:107-140 | a printed number reads back exactly while it is finite, in a bigint field exactly while it is below 1e21 |
| KeyValueMessage.ReadAddress | keeper/src/trade/trade-message.ts:99-105 | a printed object id reads back normalised |
| WireText.BindsExactly | keeper/src/trade/trade-message.ts:90-94 | a line binds a name to a value exactly when it is the name, an equals sign and the value |
| JsText.JoinSplit | keeper/src/trade/trade-message.ts:84-85 | splitting into lines loses nothing and leaves no line end |
| JsText.TrimTakesEnds | keeper/src/trade/trade-message.ts:99-105 | trimming takes white space off both ends and nothing else |
| JsText.HexIdExactly | keeper/src/trade/trade-message.ts:99-105 | an object id is 0x and 64 lower-case hexadecimal digits |
| JsText.DecimalsAsWritten | keeper/src/trade/trade-message.ts:107-113 | decimals have their most significant digit first |
| WireText.MintText | keeper/src/trade/trade-message.ts:161-193 | the literal lines of a mint message, in order |
| WireText.RedeemText | keeper/src/trade/trade-message.ts:218-237 | the literal lines of a redeem message, in order |
| WireText.SettleText | keeper/src/trade/trade-message.ts:257-273 | the literal lines of a settle message, in order |
| WireText.RecoverManagerText | keeper/src/trade/trade-message.ts:290-308 | the literal lines of a recover-manager message, in order |
| WireText.ManagerCreateText | keeper/src/manager/manager-message.ts:14-62 | the literal lines of a manager request, in order |
| WireText.MintIsRead | keeper/src/trade/trade-message.ts:195-216 | any text is accepted exactly when its prefix is right and each field, by its literal name, is well formed; every value is the one bound to its name, flags are true only for "true", a missing order kind is market; else the error names the first bad field |
| WireText.RedeemIsRead | keeper/src/trade/trade-message.ts:239-255 | the same for redeem |
| WireText.SettleIsRead | keeper/src/trade/trade-message.ts:275-288 | the same for settle |
| WireText.RecoverManagerIsRead | keeper/src/trade/trade-message.ts:310-325 | the same for recover-manager |
| WireText.ManagerCreateIsRead | keeper/src/manager/manager-message.ts:47-62 | the same for the manager request |
| TradeMessage.MintRoundTripExactly | keeper/src/trade/trade-message.ts:161-216 | for all numbers, parsing a built mint message gives the same order, normalised, exactly when its four ids are object ids, its market numbers are below 1e21 and its other numbers finite; market orders lose the limit-only fields |
| TradeMessage.RedeemRoundTrip | keeper/src/trade/trade-message.ts:218-255 | parsing a built redeem message gives the same fields with ids normalised, exactly when the ids are object ids and the numbers can be read |
| TradeMessage.SettleRoundTrip | keeper/src/trade/trade-message.ts:257-288 | the same for settle |
| TradeMessage.RecoverManagerRoundTrip | keeper/src/trade/trade-message.ts:290-325 | the same for recover-manager, with the signed amount |
| TradeMessage.AcceptedMintIsCanonical | keeper/src/trade/trade-message.ts:161-216 | any accepted mint text, rebuilt, means the same exactly when it is a limit order or carries no limit-only values, and its market numbers are below 1e21 |
| TradeMessage.AcceptedRedeemIsCanonical | keeper/src/trade/trade-message.ts:218-255 | any accepted redeem text, rebuilt, means the same exactly when its market numbers are below 1e21 |
| TradeMessage.MintTextBindsFields | keeper/src/trade/trade-message.ts:161-193 | two orders with object ids and the same signed text are the same order up to normalisation, whatever their numbers |
| TradeMessage.MarketOrderLosesLimitPremium | keeper/src/trade/trade-message.ts:182-190 | every market order has an accepted text with a limit premium that is gone when the text is built again |
| TradeMessage.SampleLosesLimitPremium | keeper/src/trade/trade-message.ts:182-190 | such a text in full |
| TradeMessage.HugeStrikeIsRefused | keeper/src/trade/trade-message.ts:150-159 | the text of any settle request with its strike set to 1e21 is accepted with that strike, and refused when built again |
| ManagerMessage.ManagerCreateRoundTrip | keeper/src/manager/manager-message.ts:47-62 | the manager request round-trips exactly when its address is an object id and its expiry finite |
| ManagerMessage.AcceptedByOneKind | keeper/src/trade/trade-message.ts:86-88 | no text whatever is accepted by the parsers of two of the five kinds |
| ChannelRegistry.Registry.SyncSubscriberChannels | app/src/context/AppStreamContext.tsx:61-96 | keeps every stored count equal to the number of holders with no zero counts, and sends exactly the calls for first holders gained and last holders lost |
| ChannelRegistry.Registry.Release | app/src/context/AppStreamContext.tsx:73-82 | the first loop takes one reference from each channel given up and reports those left without a holder |
| ChannelRegistry.Registry.Retain | app/src/context/AppStreamContext.tsx:84-89 | the second loop adds one reference to each new channel and reports those without an earlier holder |
| ChannelRegistry.RunUpdates | app/src/context/AppStreamContext.tsx:125-135 | any sequence of updates on the real registry gives the states and calls of the run functions |
| ChannelRegistry.HeldAfter | app/src/context/AppStreamContext.tsx:67-92 | after any run, a subscriber holds a channel exactly when its latest update asks for it, empty names ignored |
| ChannelRegistry.CallsForUpdate | app/src/context/AppStreamContext.tsx:94-95 | one update's calls move the upstream set from the old union to the new one, none redundant |
| ChannelRegistry.UpstreamIsUnion | app/src/context/AppStreamContext.tsx:61-96 | after any run, folding the calls gives exactly the union of all held channels, and no call was redundant |
| ChannelRegistry.WantedInOrder | app/src/context/AppStreamContext.tsx:67-68 | the wanted channels come in the order first asked for |
| ChannelRegistry.SubscribesFirst | app/src/context/AppStreamContext.tsx:94-95 | an update subscribes before it unsubscribes, each in the order of its list |
| IndexerSocket.LostExactly | app/src/lib/leverx/indexer-ws.ts:52-69 | a channel is unknown to the server, though neither pending nor given up, exactly when an open connection ended after the last event that asked for it |
| IndexerSocket.StreamsExactlyWhenNotLost | app/src/lib/leverx/indexer-ws.ts:52-69 | while connected, the server streams a subscribed channel exactly when that did not happen to it |
| IndexerSocket.StreamsAllExactlyWhenNoneLost | app/src/lib/leverx/indexer-ws.ts:52-69 | while connected, the server streams all subscribed channels exactly when it happened to none |
| IndexerSocket.ReconnectLosesChannels | app/src/lib/leverx/indexer-ws.ts:133-151 | any reconnect of an open connection leaves every channel subscribed by the client and unknown to the server |
| SocketReplacement.TidyExactly | app/src/lib/leverx/indexer-ws.ts:33-40 | over any run, all sockets not yet closed are the current one, or closing without a successor, exactly when none was opened before the earlier was closed |
| SocketReplacement.TidyRunIsSingle | app/src/lib/leverx/indexer-ws.ts:97-151 | such a run of many sockets is a run of the single reconnecting socket, step by step |
| SocketReplacement.TidyStreamsSubscribed | app/src/lib/leverx/indexer-ws.ts:52-69 | in such a run the server streams no channel that the client gave up |
| SocketReplacement.AlwaysPersists | app/src/lib/leverx/indexer-ws.ts:33-50 | from a subscription to the next disconnection the client has a socket or a timer that will open one, from there to the next subscription neither |
| SocketReplacement.SubscribeWhileClosing | app/src/lib/leverx/indexer-ws.ts:122-126 | a run in which the close handler of the old socket drops the new one, whose server goes on streaming a channel that the client gave up |
| SocketReplacement.SubscribeBeforeTimer | app/src/lib/leverx/indexer-ws.ts:141-151 | the same after subscribing while the reconnect timer runs |
| ChannelStream.SocketFollows | app/src/context/AppStreamContext.tsx:94-95 | after any mix of updates, opens and closes, the socket believes itself subscribed to exactly the held channels |
| ChannelStream.HeldIsStreamedExactly | app/src/context/AppStreamContext.tsx:61-96 | while connected, a held channel is streamed exactly when no open connection ended while it was held without a break |
| ChannelStream.StreamsExactlyHeldWhenNoneLost | app/src/context/AppStreamContext.tsx:61-96 | while connected, the server streams exactly the held channels exactly when that happened to none |
| ManagerCreation.OneWorkInFlight | keeper/src/manager/manager.service.ts:72-82 | over every interleaving, at most one creation is in flight for an address |
| ManagerCreation.OneStoredCreation | keeper/src/manager/manager.service.ts:84-126 | over every interleaving, at most one work for an address ends with a created manager that is stored, and the address keeps a row |
| ManagerCreation.JoinersGetLeadersReply | keeper/src/manager/manager.service.ts:72-79 | whoever joins gets the settled result of the leader's work, which is what the leader gets, with the session token issued to the leader |
| ManagerCreation.RunKeepsDone | keeper/src/manager/manager.service.ts:42-82 | a reply, once handed out, is final |
| ManagerCreation.LockedWhileLed | keeper/src/manager/manager.service.ts:75-81 | an address is locked exactly while a call leads for it, so failures release the lock too |
| ManagerCreation.JoinersAreServed | keeper/src/manager/manager.service.ts:72-81 | a waiting call can finish now, or its leader's work is in flight under the lock |
| ManagerLaws.NoWorkWithoutAuthorization | keeper/src/manager/manager.service.ts:50-76 | over every interleaving, no work starts and no call joins one before the authorization of that call succeeded, whose token the work carries |
| ManagerLaws.NoExecutionUnlessReady | keeper/src/manager/manager.service.ts:96-101 | over every interleaving, no transaction is executed unless the keeper was ready after the recheck |
| ManagerLaws.RefusedCallFails | keeper/src/manager/manager.service.ts:60-64 | a failed authorization ends the call and changes nothing else |
| ManagerLaws.AuthorizedCallJoinsOrLeads | keeper/src/manager/manager.service.ts:66-76 | an authorized call joins exactly when its address is locked, else leads and locks |
| ManagerLaws.WholeLookup | keeper/src/manager/manager.service.ts:151-176 | the outcome of store, indexer and save together: the stored id, else the saved hit, else nothing; and the row it leaves |
| ManagerLaws.WholeRecheck | keeper/src/manager/manager.service.ts:84-99 | the same for the recheck of a work |
| ManagerLaws.WholeCreation | keeper/src/manager/manager.service.ts:101-125 | the outcome of execution, inspection and save together, and what stays on chain |
| ManagerLaws.SettledWorkIsHandedOut | keeper/src/manager/manager.service.ts:72-81 | leader and joiners get the settled reply; the leader frees its lock alone |
| ManagerCreation.StepKeepsInv | keeper/src/manager/manager.service.ts:42-176 | every stretch between awaits keeps the lock, reply and creation invariants |
| ManagerCreation.ManagerService.AfterAuthorization | keeper/src/manager/manager.service.ts:66-76 | joins the work in flight for the address, or starts one and locks it, and changes nothing else |
| ManagerCreation.ManagerService.LeaderResumes | keeper/src/manager/manager.service.ts:77-81 | releases the leader's lock and hands out the work's reply, and changes nothing else |
| ManagerCreation.ManagerService.AfterCreationSaved | keeper/src/manager/manager.service.ts:111-121 | stores a normalised object id, drops anything else, and settles the work |
| ManagerCreation.ManagerService.LookupReadsStore | keeper/src/manager/manager.service.ts:151-155 | a stored row answers the call, a missing one sends it to the indexer, a failing read ends it |
| ManagerCreation.ManagerService.LookupAsksIndexer | keeper/src/manager/manager.service.ts:157-163 | an id from the indexer is saved next, none or a failure goes on to authorization |
| ManagerCreation.ManagerService.LookupSavesHit | keeper/src/manager/manager.service.ts:164-175 | the id is stored if it is an object id and answered either way; a failing save goes on to authorization |
| ManagerCreation.ManagerService.JoinerResumes | keeper/src/manager/manager.service.ts:72-73 | a joiner gets the reply of the settled work, and changes nothing else |
| ManagerCreation.ManagerService.RecheckReadsStore | keeper/src/manager/manager.service.ts:84-94 | a stored row settles the work with the leader's token, a missing one goes to the indexer, a failing read fails the work |
| ManagerCreation.ManagerService.RecheckAsksIndexer | keeper/src/manager/manager.service.ts:88-99 | an id is saved next, otherwise the work executes, or fails when the keeper is not ready |
| ManagerCreation.ManagerService.RecheckSavesHit | keeper/src/manager/manager.service.ts:88-99 | the id settles the work; a failing save goes on to create |
| ManagerCreation.ManagerService.AfterExecution | keeper/src/manager/manager.service.ts:101-103 | an executed transaction is inspected next, a failed one fails the work |
| ManagerCreation.ManagerService.AfterInspection | keeper/src/manager/manager.service.ts:103-109 | a created object id is saved next, a missing one fails the work |
| ManagerAgreement.AgreedExactlyWhenStored | keeper/src/manager/manager.service.ts:42-176 | from start-up, the replies for an address agree with its row in every run exactly when the row is stored already |
| ManagerAgreement.AgreedExactlyWhenSettled | keeper/src/manager/manager.service.ts:42-176 | from any state of the service, they agree in every continuation exactly when the row is settled and every reply given or due names it |
| ManagerAgreement.RepliesAgreeWithoutHits | keeper/src/manager/manager.service.ts:151-176 | also without a row at start-up, in a run whose indexer names no manager for the address, all replies name the one stored |
| ManagerAgreement.RepliesMayDisagree | keeper/src/manager/manager.service.ts:157-170 | a run in which two calls for one address get different managers and the second row replaces the first |
| ManagerRow.RowStaysExactlyWhenSettled | keeper/src/manager/manager.service.ts:84-176 | a stored manager survives every continuation exactly when no call or work that missed its row can still write another |
| ManagerExecutions.AllButOneLost | keeper/src/manager/manager.service.ts:101-125 | of two transactions executed for one address, at least one's manager was never stored |
| ManagerExecutions.NoFurtherCreationExactlyWhenClosed | keeper/src/manager/manager.service.ts:84-125 | from any state, no continuation executes another creation for an address exactly when its row is stored and no work is between its recheck and its execution |
| ManagerExecutions.CreationsAreUnbounded | keeper/src/manager/manager.service.ts:101-125 | without a row at start-up, any number of managers can be created for one address |
| KeeperOrchestrator.ServiceRunsAlone | keeper/src/tasks/keeper-orchestrator.service.ts:54-108 | over every interleaving, no task service runs twice at once |
| KeeperOrchestrator.FullRunIsAlone | keeper/src/tasks/keeper-orchestrator.service.ts:48-52 | a run of all kinds is in flight only alone |
| KeeperOrchestrator.SkippedExactlyOnConflict | keeper/src/tasks/keeper-orchestrator.service.ts:48-64 | a new run is skipped exactly when a run in flight conflicts with it, so locks end with their runs, failed or not |
| KeeperOrchestrator.AgendaIsDue | keeper/src/tasks/keeper-orchestrator.service.ts:72-97 | a run visits exactly the due services, once each, in the fixed order; triggers only when not paused |
| KeeperOrchestrator.RunServesPlan | keeper/src/tasks/keeper-orchestrator.service.ts:66-108 | each kind of run visits its literal list of services, told whether trading is paused, and holds its lock until the last is back |
| KeeperOrchestrator.KeeperOrchestratorService.Begin | keeper/src/tasks/keeper-orchestrator.service.ts:54-64 | takes the lock of the kind, or skips exactly when it is locked |
| KeeperOrchestrator.KeeperOrchestratorService.AfterRefresh | keeper/src/tasks/keeper-orchestrator.service.ts:69-97 | moves on to the first due service, or releases |
| KeeperOrchestrator.KeeperOrchestratorService.Advance | keeper/src/tasks/keeper-orchestrator.service.ts:72-108 | moves on to the next due service, or releases |
| KeeperOrchestrator.KeeperOrchestratorService.Release | keeper/src/tasks/keeper-orchestrator.service.ts:106-108 | removes the run's kind from the lock set and ends the run |
| LifecycleLock.OneLifecyclePerAccount | keeper/src/jarvis/jarvis.service.ts:359-374 | at most one lifecycle runs per account however it is spelled; the account is locked while it runs and free once it settles |
| LifecycleLock.RunsExactlyWhenFree | keeper/src/jarvis/jarvis.service.ts:359-372 | a new job runs exactly when no job for the same account is running |
| LifecycleLock.JarvisService.RunLifecycle | keeper/src/jarvis/jarvis.service.ts:359-372 | a duplicate job ends at once, any other locks its normalised account |
| LifecycleLock.JarvisService.Settle | keeper/src/jarvis/jarvis.service.ts:369-371 | the handler removes the lock of the job's account |
| RateLimit.RateLimitService.Allow | keeper/src/auth/rate-limit.service.ts:10-19 | updates the bucket of one key only, and answers as the bucket step does |
| RateLimit.BucketCountsItsWindow | keeper/src/auth/rate-limit.service.ts:10-19 | a bucket's count is exactly the number of requests that passed in its window, and at most the limit |
| RateLimit.EveryWindowHoldsLimit | keeper/src/auth/rate-limit.service.ts:10-19 | the window of every bucket of a trace holds at most the limit, whatever comes later |
| RateLimit.SlidingWindowBound | keeper/src/auth/rate-limit.service.ts:10-19 | under a nondecreasing clock, any stretch of one window length lets at most 2 * max(limit, 1) - 1 requests through |
| RateLimit.SlidingWindowBoundIsTight | keeper/src/auth/rate-limit.service.ts:10-19 | for every limit and every window of at least 2 ms some trace reaches that bound |
| RateLimit.PlainBoundExactly | keeper/src/auth/rate-limit.service.ts:10-19 | every stretch of one window length holds at most the limit exactly for limit 1 or windows below 2 ms |
| RateLimit.RefusedExactlyWhenFull | keeper/src/auth/rate-limit.service.ts:10-19 | a request is refused exactly when its bucket's window is open and the limit has passed in it |
| RateLimit.RefusedOnlyWhenFull | keeper/src/auth/rate-limit.service.ts:16-16 | a refused request has at least the limit of allowed ones in the window length before it |
| RateLimit.AllowedOnceReset | keeper/src/auth/rate-limit.service.ts:12-15 | a request at or after the reset time is always allowed |
| RateLimit.KeysAreIndependent | keeper/src/auth/rate-limit.service.ts:7-13 | in any mixed trace each key's bucket is the one its own requests alone would leave |
| RpcPacing.RpcRateLimiter.Acquire | keeper/src/sui/sui-rpc-failover.ts:27-34 | a lone caller is let through when its sleep ends, as late as its timer is, and no sooner than due |
| RpcPacing.AcquireInTurn | keeper/src/sui/sui-rpc-failover.ts:27-34 | callers one after the other on the real limiter, whatever their pauses and late timers, are sequential |
| RpcPacing.Spaced | keeper/src/sui/sui-rpc-failover.ts:22-35 | k further sequential calls take at least k intervals |
| RpcPacing.IntervalIsSmallest | keeper/src/sui/sui-rpc-failover.ts:79-80 | the interval is the smallest that fills a second when taken m times |
| RpcPacing.AtMostPerSecond | keeper/src/sui/sui-rpc-failover.ts:79-80 | any m + 1 sequential calls span a full second, so no half-open second holds more than m |
| RpcPacing.SpacedExactlyWhenSequential | keeper/src/sui/sui-rpc-failover.ts:27-34 | with exact timers, any number of callers are spaced exactly when each begins after the one before was let through |
| RpcPacing.ThreeAtOnce | keeper/src/sui/sui-rpc-failover.ts:27-34 | of three callers at once on an idle limiter, two are let through together |
| RpcFailover.FallbackExactlyWhileResting | keeper/src/sui/sui-rpc-failover.ts:112-171 | over every interleaving of invocations, a call goes to the fallback exactly while the rest of an earlier switch lasts, so never to the primary then |
| RpcFailover.FallbackModeIsBounded | keeper/src/sui/sui-rpc-failover.ts:153-171 | fallback mode always has a fallback client and a deadline, primary mode has none |
| RpcFailover.RetriesAreBounded | keeper/src/sui/sui-rpc-failover.ts:119-151 | an invocation calls its function at most maxRetries times, gives up on transient errors only after all of them, and its backoff stays within the sum of the capped powers |
| RpcFailover.FailureDecides | keeper/src/sui/sui-rpc-failover.ts:127-147 | a rate limit on the primary switches over for the rest and goes on at once, a fatal failure ends the invocation, any other sleeps min(base * 2^attempt, max) and keeps the mode |
| RpcFailover.DefaultBackoffs | keeper/src/sui/sui-rpc-failover.ts:13-15 | the six sleeps of the default settings |
| RpcFailover.AttemptSucceeds | keeper/src/sui/sui-rpc-failover.ts:122-126 | an attempt is let through when due and no sooner, calls the endpoint of the moment and returns |
| RpcFailover.SleepEnds | keeper/src/sui/sui-rpc-failover.ts:147-151 | a sleep is slept to its end, then the next attempt waits its turn, or the invocation gives up |
| RpcFailover.InvocationBegins | keeper/src/sui/sui-rpc-failover.ts:119-122 | an invocation starts with attempt 0, or gives up at once when none is allowed |
| RpcFailover.SwitchesComeFromRateLimits | keeper/src/sui/sui-rpc-failover.ts:133-136 | over every interleaving, each switch was caused by a rate limit at that moment |
| RpcFailover.StepKeepsInv | keeper/src/sui/sui-rpc-failover.ts:119-171 | every stretch between awaits keeps the log, mode and retry invariants |
| RpcFailover.SuiRpcFailover.MaybeSwitchBackToPrimary | keeper/src/sui/sui-rpc-failover.ts:162-171 | returns to the primary exactly when the deadline has passed |
| RpcFailover.SuiRpcFailover.SwitchToFallback | keeper/src/sui/sui-rpc-failover.ts:153-160 | switches over with a deadline of now plus the rest, only with a fallback client |
| RpcFailover.SuiRpcFailover.GetActiveClient | keeper/src/sui/sui-rpc-failover.ts:112-117 | hands out the client of the mode after a due switch back |
| TradeReplay.TradeReplayStore.IsReplayed | keeper/src/trade/trade-replay.store.ts:8-12 | answers whether a live mark exists for the trimmed key and drops exactly the expired marks |
| TradeReplay.TradeReplayStore.MarkUsed | keeper/src/trade/trade-replay.store.ts:14-16 | sets the mark of the trimmed key only |
| TradeReplay.TradeReplayStore.Prune | keeper/src/trade/trade-replay.store.ts:18-22 | the loop drops exactly the marks that expired before now |
| TradeReplay.PruningIsInvisible | keeper/src/trade/trade-replay.store.ts:8-22 | under a nondecreasing clock the pruned cache answers as an unpruned last-mark log would |
| TradeReplay.VerifyTradeRequest | keeper/src/trade/trade.service.ts:243-282 | one request alone: replay and expiry are checked at its start, and it is accepted and marked when its signature check answers, as the model's two steps say |
| TradeReplay.SafeExactlyWithoutOverlap | keeper/src/trade/trade.service.ts:243-282 | once accepted, a key is accepted by no continuation until its expiry exactly when no other request with that key has passed its checks without finishing, or the expiry is already past |
| TradeReplay.InTimeExactly | keeper/src/trade/trade-message.ts:327-337 | an intent is in time from 330 s before its expiry to 30 s after, with the error of either side |
| TradeReplay.OverlapIsAcceptedTwice | keeper/src/trade/trade.service.ts:243-282 | the run of two overlapping requests, from start-up, that accepts one key twice |
| TradeReplay.ReplayableExactlyInSkew | keeper/src/trade/trade-message.ts:327-337 | a new request with a marked key is accepted exactly in the 30 s after the expiry |
| TradeReplay.AcceptedTwice | keeper/src/trade/trade.service.ts:243-282 | the run of two requests, one after the other, that accepts one key twice |
| IntentReplay.LoneRequest | keeper/src/auth/app-intent-auth.ts:72-118 | a request made alone is accepted exactly when it opens in time, its key is not live, and it has a good token or a signature that verifies |
| IntentReplay.SameKeyExactly | keeper/src/auth/app-intent-auth.ts:21-29 | keys are equal exactly when the trimmed signatures are, or without signatures the address and message |
| IntentReplay.AcceptedWasSent | keeper/src/auth/app-intent-auth.ts:31-118 | over every run, an accepted intent was sent with its own address and expiry, in time, by a good token or a signature that verifies |
| IntentReplay.AcceptableExactly | keeper/src/auth/app-intent-auth.ts:21-29 | with no request under way, some continuation accepts an intent before its expiry exactly when a token works for its address in time, or a signature over it verifies whose text is not marked |
| IntentReplay.AcceptedOnceExactly | keeper/src/auth/app-intent-auth.ts:85-118 | an intent accepted for its signature is accepted no more before its expiry exactly when no token works and every other signature over it is marked |
| IntentReplay.TokenReplaysAtWill | keeper/src/auth/app-intent-auth.ts:85-101 | a run in which a token holder sends one message three times and all are accepted |
| TelegramAuth.TelegramAuthService.CreateOtp | keeper/src/telegram/telegram-auth.service.ts:41-66 | stores the code under the first free draw of eight, or nothing |
| TelegramAuth.TelegramAuthService.VerifyOtpAndCreateSession | keeper/src/telegram/telegram-auth.service.ts:68-95 | consumes a visible code and opens the session, unless expired |
| TelegramAuth.TelegramAuthService.CreateSession | keeper/src/telegram/telegram-auth.service.ts:98-123 | sets the session of the chat and adds the chat to the account's index, nothing else |
| TelegramAuth.TelegramAuthService.GetSession | keeper/src/telegram/telegram-auth.service.ts:125-138 | returns a live session unchanged, revokes an expired one |
| TelegramAuth.TelegramAuthService.RevokeSession | keeper/src/telegram/telegram-auth.service.ts:204-214 | removes the session and its own index entry, nothing else |
| TelegramAuth.TelegramAuthService.SetActiveOracle | keeper/src/telegram/telegram-auth.service.ts:140-157 | sets the oracle and renews the session, nothing else |
| TelegramAuth.TelegramAuthService.RevokeSessionsForAccount | keeper/src/telegram/telegram-auth.service.ts:190-202 | removes the sessions of all indexed chats and the index, and counts the chats |
| TelegramAuth.StepKeepsInv | keeper/src/telegram/telegram-auth.service.ts:41-214 | every operation keeps each session indexed under its account and each code tied to its one issue |
| TelegramLaws.SessionReadsBack | keeper/src/telegram/telegram-auth.service.ts:98-138 | before its expiry a session is given back exactly as created, and a look changes nothing |
| TelegramLaws.SessionExpires | keeper/src/telegram/telegram-auth.service.ts:125-138 | from its expiry on it is gone for good |
| TelegramLaws.PickStoresOracle | keeper/src/telegram/telegram-auth.service.ts:140-157 | picking an oracle stores exactly it and moves the expiry to now plus the time to live |
| TelegramLaws.PickWithoutSession | keeper/src/telegram/telegram-auth.service.ts:151-157 | without a live session it sets nothing |
| TelegramLaws.EndedSession | keeper/src/telegram/telegram-auth.service.ts:204-214 | ending a session takes the chat out of the store and of its own account's index only |
| TelegramLaws.CodeWorksUntilExpiry | keeper/src/telegram/telegram-auth.service.ts:41-95 | a code can be redeemed, whatever happens in between, before its expiry and at no time after, and either way is used up |
| TelegramLaws.OnlySixDigitsRedeem | keeper/src/telegram/telegram-auth.service.ts:73-74 | only six digits redeem anything |
| TelegramLaws.FirstFreeExactly | keeper/src/telegram/telegram-auth.service.ts:47-66 | the code is the first draw that is free, and there is none exactly when all are taken |
| TelegramLaws.GoneAtExactly | keeper/src/telegram/telegram-auth.service.ts:45-45 | an entry lives for the fewest whole seconds that cover its time to live |
| TelegramAuth.RevokeLeavesNoSession | keeper/src/telegram/telegram-auth.service.ts:190-202 | after any run, revoking an account leaves no session for it and alters no other that remains |
| TelegramIndex.MembersExactly | keeper/src/telegram/telegram-auth.service.ts:98-123 | after any run the index lists a chat under an account exactly when they were linked and neither was unlinked since |
| TelegramIndex.RevokeHitsExactly | keeper/src/telegram/telegram-auth.service.ts:190-202 | revoking an account ends a live session of another exactly when the chat was linked to it first, to the other later, and not unlinked in between |
| TelegramInterleaving.StaysRevokedExactlyWhenSettled | keeper/src/telegram/telegram-auth.service.ts:98-214 | with all commands interleaved, no session of an account is ever live again without a new link exactly when none is live and none is about to be written |
| TelegramInterleaving.RevocationHoldsExactly | keeper/src/telegram/telegram-auth.service.ts:190-202 | a revocation holds exactly when the chats it read include every live session of the account and no other operation is about to write one |
| TelegramInterleaving.LoneRevocationHolds | keeper/src/telegram/telegram-auth.service.ts:190-202 | one made alone, with the index right, holds |
| TelegramInterleaving.TouchUndoesRevocation | keeper/src/telegram/telegram-auth.service.ts:140-157 | a run in which setting the oracle brings a revoked session back, and a second revocation misses it |
| TelegramInterleaving.LinkOutrunsRevocation | keeper/src/telegram/telegram-auth.service.ts:98-123 | a run in which a session is written but not indexed yet, and survives the revocation |
| TelegramInterleaving.LinkAlone | keeper/src/telegram/telegram-auth.service.ts:98-123 | with nothing in between, the interleaved link is createSession as a whole |
| TelegramInterleaving.PickAlone | keeper/src/telegram/telegram-auth.service.ts:140-157 | the same for setActiveOracle |
| TelegramInterleaving.PickComesToNothing | keeper/src/telegram/telegram-auth.service.ts:125-157 | setting the oracle does nothing exactly without a live session or with an oracle that is no object id |
| TelegramInterleaving.EndAlone | keeper/src/telegram/telegram-auth.service.ts:204-214 | the same for revokeSession |
| TelegramInterleaving.RevokeAlone | keeper/src/telegram/telegram-auth.service.ts:190-202 | the same for revokeSessionsForAccount |
| TelegramAuth.RevokeMayHitAnotherAccount | keeper/src/telegram/telegram-auth.service.ts:115-121 | a run after which revoking one account ends another account's session |
| TelegramAuth.CodeRedeemedOnceByItsAccount | keeper/src/telegram/telegram-auth.service.ts:68-95 | over any run of operations one at a time, each issued code opens at most one session, for the account and owner it was issued to |
| TelegramRedeem.RedeemedOnceExactly | keeper/src/telegram/telegram-auth.service.ts:76-95 | with redemptions interleaved, an issued code that has opened a session opens no other exactly when no other redemption has read it already |
| TelegramRedeem.CodeOpensTwoSessions | keeper/src/telegram/telegram-auth.service.ts:76-95 | a run in which one code opens two sessions |
| TelegramRedeem.RedeemAlone | keeper/src/telegram/telegram-auth.service.ts:68-95 | with nothing in between, the interleaved redemption is verifyOtpAndCreateSession as a whole |
| TelegramAuth.LiveCodeIsKept | keeper/src/telegram/telegram-auth.service.ts:50-60 | no operation changes a live code except its own redemption, which removes it |
| TradeMath.EstimateIsLargestAffordable | keeper/src/config/trade-math.ts:21-30 | when one contract is affordable the estimate is the largest affordable quantity, else 1 |
| TradeMath.EstimateFitsBudget | keeper/src/config/trade-math.ts:14-35 | the estimate's cost, rounded down or up, is within the budget |
| TradeMath.BudgetWithinPosition | keeper/src/config/trade-math.ts:10-18 | 0 <= budget <= position <= margin times leverage |
| TradeMath.PositionAndBudgetAreLargest | keeper/src/config/trade-math.ts:10-18 | the position is the largest amount within margin times leverage, the budget the largest within 99.5 % of it |
| TradeMath.EstimateIsAtLeastOne | keeper/src/config/trade-math.ts:21-30 | the estimate is at least one contract, and one without a premium |
| TradeMath.CostIsLargest | keeper/src/config/trade-math.ts:32-35 | a cost is the largest that a billion times over fits premium times quantity |
| TradeMath.PremiumIsSmallest | keeper/src/jarvis/jarvis-units.ts:23-26 | a premium is the smallest that covers the cost |
| TradeMath.CapIsLargest | keeper/src/config/trade-math.ts:38-48 | the cap is the largest amount within both the slippage above the quote and the funding |
| TradeMath.CapAdmitsQuoteExactly | keeper/src/config/trade-math.ts:38-48 | the cap is within the funding and admits the quoted cost exactly when the funding covers it |
| TradeMath.UnborrowedCap | keeper/src/telegram/telegram-trade.service.ts:166-171 | without borrow the cap admits a budgeted cost exactly when the margin covers it, always at 1x |
| TradeMath.UnborrowedCapRefusesExactly | keeper/src/telegram/telegram-trade.service.ts:166-171 | some budgeted cost is refused exactly when the budget exceeds the margin |
| TradeMath.CapRefusesBudgetedCost | keeper/src/telegram/telegram-trade.service.ts:166-171 | margin 100 at 2x: a cost of 150 within the budget of 199 is refused |
| TradeMath.PremiumRoundTrip | keeper/src/jarvis/jarvis-units.ts:23-26 | cost to premium and back never loses value, overshoots by at most (q - 1) / 1e9, and is exact up to 1e9 contracts |
| TradeMath.WindowOutputsAgree | keeper/src/config/trade-math.ts:118-155 | the separately computed final-window outputs agree |
| TradeMath.WindowExactly | keeper/src/config/trade-math.ts:60-155 | each output of the final-window context in terms of expiry, now and window, at all values |
| TradeMath.LeverageSteps | keeper/src/config/trade-math.ts:101-115 | leverage k of 2 to 10 is offered exactly while k whole windows remain |
| TradeMath.LeverageOnlyFalls | keeper/src/config/trade-math.ts:82-115 | as the clock advances the cap never rises and a block never clears |
| MintSizing.ResolveMintQuote | keeper/src/sui/predict-quote.service.ts:44-77 | for any price source: the outcome of the search from the estimate on if it takes no more than 12 prices, after a reference read for 1,000,000 contracts; a quote costs more than 0, at most the budget and the leveraged margin, its size is between 1 and the first estimate, and it is a price really read |
| MintSizing.SteadyResolution | keeper/src/sui/predict-quote.service.ts:44-77 | at a steady price the operation returns the outcome told without the loop, at the estimate |
| MintSizing.ProbeExactly | keeper/src/sui/predict-quote.service.ts:57-74 | what each probe decides: a quote within the budget, half the quantity for no cost, else the largest that fits at the same average cost |
| MintSizing.ProbeShrinks | keeper/src/sui/predict-quote.service.ts:62-73 | every retry is with a strictly smaller quantity of at least 1 |
| MintSizing.CappedSearch | keeper/src/sui/predict-quote.service.ts:57-76 | a quote found within the tries fits the budget, and is the one the uncapped search finds |
| MintSizing.CapNeedNotBind | keeper/src/sui/predict-quote.service.ts:57-76 | with as many tries as contracts the cap changes nothing: the search ends by itself |
| MintSizing.CapBindsExactly | keeper/src/sui/predict-quote.service.ts:57-76 | the capped outcome is that of the search exactly while the search takes no more probes than the cap, and nothing otherwise |
| MintSizing.CapCanLoseExactly | keeper/src/sui/predict-quote.service.ts:57-76 | some price source makes the cap lose a quote exactly when repeated costs just above the budget leave one contract after all tries |
| MintSizing.RealCapCanLose | keeper/src/sui/predict-quote.service.ts:57-76 | the cap of 12 can lose a quote for sizes from 13 up to the budget plus one, and for none up to 12 |
| MintSizing.RescaledFits | keeper/src/sui/predict-quote.service.ts:72-73 | at a steady price one rescaling by cost fits the budget, although costs are rounded down |
| MintSizing.SteadySearch | keeper/src/sui/predict-quote.service.ts:55-76 | at a steady price the outcome is the estimate, or its one rescaling, or nothing, exactly as told without the loop |
| MintSizing.LinearPriceIsSteady | keeper/src/config/trade-math.ts:32-35 | a fixed unit premium is a steady price |
| IndexerFetch.FetchAllPages | keeper/src/indexer/indexer.service.ts:102-118 | the loop ends for every server and returns at most maxItems of what it collects |
| IndexerFetch.FetchesPrefix | keeper/src/indexer/indexer.service.ts:102-118 | over any server that cuts honest pages of a list, exactly its first maxItems items come back |
| IndexerFetch.ClampingServerIsListBacked | keeper/src/indexer/indexer.service.ts:111-114 | a server that clamps the page limit cuts honest pages |
| IndexerFetch.MergeCandidates | keeper/src/indexer/indexer.service.ts:212-220 | the merge keeps exactly the first position of each key, in order, and loses no key |
| IndexerFetch.MergeKeyIsInjective | keeper/src/indexer/indexer.service.ts:215-215 | for object ids the merge key tells accounts and position keys apart |
| IndexerFetch.FetchLiquidationCandidates | keeper/src/indexer/indexer.service.ts:188-221 | over honest servers, the merge of the first 5000 of both lists |
| ForceClose.AttemptEach | keeper/src/tasks/force-close.service.ts:62-67 | attempts run in order until the budget or the candidates end, whichever is first, with at most the budget of successes |
| ForceClose.Run | keeper/src/tasks/force-close.service.ts:27-91 | both phases share the budget: the second spends what the first left, and all successes are within the limit |
| ForceClose.InForceWindowKeepsOrder | keeper/src/tasks/force-close.service.ts:58-60 | exactly the candidates with now < expiry <= now + window, in their order |
| ForceClose.PhasesAreDisjoint | keeper/src/tasks/force-close.service.ts:58-81 | no target is attempted in both phases when the second query honours its expiry bound and a target has one expiry |
| PriceSeries.SeriesIsRecentPart | app/src/hooks/useOracleSpotPriceSeries.ts:17-38 | for any polls and clock readings the shown series is the last 720 points of the uncapped one, strictly later each time |
| PriceSeries.PointTime | app/src/hooks/useOracleSpotPriceSeries.ts:17-27 | a point has its poll's price, and the poll's own time, the clock's or a second after the last, whichever comes first after the last |
| PriceSeries.PointOfPoll | app/src/hooks/useOracleSpotPriceSeries.ts:17-38 | every point of a run is that of its poll after the point before |
| PriceSeries.AppendExactly | app/src/hooks/useOracleSpotPriceSeries.ts:29-38 | what is appended for any point, and which point the cap gives up |

## Left out

- Move contracts, the Rust indexer, PTB building, the Sui client, Redis, Postgres, queues and HTTP: I/O; reads and
  transactions are arbitrary results, Redis and the repository are maps.
- Signatures, JWTs and SHA-256: which tokens hold at which time, which signatures verify and the digest are arbitrary
  functions; TradeReplay takes any string as a key, IntentReplay builds the key as the source does.
- TextEncoder and TextDecoder are taken as inverse; messages are modelled as text.
- Number(text) on anything but a plain decimal of a safe integer, Number(bigint) and String(number) above the safe
  integers are arbitrary functions under the stated laws; negative or fractional number fields are not built.
- Each thrown error is a code, a None or an unchanged state; log lines are not modelled.
- RpcFailover.SuiRpcFailover: the retry loop is modelled as interleaved steps, not as one method, since its awaits are where other
  invocations run.
- IndexerSocket.StreamsAllExactlyWhenNoneLost: one socket at a time; SocketReplacement says when that is so. Listeners and
  the length of the back-off are not modelled.
- ForceClose.Run: the checks inside an attempt (oracle state, simulation, execution) are one arbitrary outcome.
- Telegram session listing for an account and unreadable JSON in Redis; the pipeline of a revocation is one step, and the
  revocation inside getSession of an expired session is a step of its own.
- Hours and dollar conversions in floating point, redeem payout, slippage floor and flash-borrow sizing: easy members.
- Price series: reset on a new oracle, and React state.
- KeeperOrchestrator: the results of the tasks, and the result that a paused trigger run reports.
