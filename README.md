# newk NKN core in Dafny

This project models the NKN side of newk, a JavaScript peer-to-peer messaging library, and proves properties of that model. It covers six components:

- **Bootstrap-node ranker** (`Entry`, module `NknEntry`). It keeps one item per candidate RPC node address, with that node's latency samples and the counters derived from them. It merges the stored items with the seed addresses, trims long histories, ranks the items by average latency, then by failures, then by failure ratio, and picks the fastest node.
- **Seed generator** (`Seeder`, module `NknSeeder`). It derives a batch of client seeds from a hash chain of entropy. It connects each seed's multi-client and records which sub-client reached which node as good or bad. It scores every seed as a sum of `numClients - index` and sorts the seeds by that score. `generate` chooses between a batch of 5 seeds and a batch of 10.
- **Connection orchestrator** (`NknConnect`, module `NknConnect`). It resolves its options and buffers handlers until a client exists. Each sub-client races a timer. A quorum gate reports the nodes that connected late. On an aggregate failure it retries with four more sub-clients.
- **NKN transport** (`NknTransport`, module `NknTransport`). It covers option defaults, the bounded send retry, fee and block-count resolution, the decision whether an unsubscribe happened, and the normalisation and flattening of subscriber queries.
- **Subscription keeper** (`PubSubPersist`, module `PubSub`). It keeps a table of topics to stay subscribed to on the ledger, renewed by a heartbeat. A topic goes from absent to active, then to flagged for deletion, then to removed. `lib/modules/nkn-pubsub.js` and `lib/modules/pubsub-persist.js` hold the same class; the second differs in its doc comments, in where its log level and discovery delay come from, and in an extra `getSubsPersist` method whose body is empty. It is modelled once, and the table below cites both files.
- **Loopback bus** (`BusTransport`, module `BusTransport`). It keeps an address-to-instance table and a topic-to-subscriber-to-metadata table. The source keeps both as static class fields; here they are the fields of an explicit `Registry` object.

Shared helper modules:

- `Wrappers` (Option and Result).
- `Dicts`: a JavaScript object as an insertion-ordered dictionary, as a sequence of pairs.
- `Lists`: lodash `uniq` / `uniqBy`, and projections.
- `Sorting`: a stable insertion sort that models lodash `sortBy` and the stable `Array.prototype.sort`.
- `Strings`: decimal and hex spelling, prefixes.
- `Races`: a promise raced against a `setTimeout`, with a `finished` flag. It is the pattern of `getLatency`, `testClient` and `handleNode`.

Everything external is an input:

- the NKN multi-client and its callbacks: a sequence of events, or the event methods of `ConnectRun`;
- the wallet and ledger answers: `Chain`, `TopicLedger`, `Response`;
- `getNodeState` probe results: a function from address to sample;
- crypto, hkdf and mnemonic conversion: uninterpreted functions in `NknSeeder.Crypto`;
- `Date.now`: a `now` parameter;
- the key-value database: the stored values as parameters, the saved ones as fields.

`Promise.all` fan-outs are sequential, in array order.

## Model

| member | source | states |
|---|---|---|
| NknEntry.ProtocolAsWritten | lib/modules/nkn-entry.js:23-28 | `protocol` as written: the result is `http` or `https`, and `https` for the official node. |
| NknEntry.AsWrittenIgnoresSecurePage | lib/modules/nkn-entry.js:24 | As written, a browser page served over https (`"https:"`) still gets `http` for every node other than the official one. |
| NknEntry.Protocol | lib/modules/nkn-entry.js:23-28 | Corrected `protocol`: `https` exactly for the official node or on a secure browser page, else `http`. |
| NknEntry.RpcServerAddr | lib/modules/nkn-entry.js:169 | The probed URL is `<protocol>://<addr>` with `protocol` as written: it is `https://` exactly for the official node or a browser page whose protocol reads `https` (colon-less). |
| NknEntry.RpcServerAddrCorrected | lib/modules/nkn-entry.js:169 | The same URL with the corrected `protocol`: `https://` exactly for the official node or a page served over `https:`. |
| NknEntry.CreateItem | lib/modules/nkn-entry.js:91-93 | A fresh item has no samples, no average, and good, bad and ratio all 0. |
| NknEntry.CountsPartition | lib/modules/nkn-entry.js:101-102 | Every sample is counted exactly once: good + bad = number of samples. |
| NknEntry.CountsAppend | lib/modules/nkn-entry.js:101-102 | Appending one sample bumps good if it is truthy and bad otherwise, so a latency of 0 counts as bad. |
| NknEntry.CeilDiv | lib/modules/nkn-entry.js:103 | `Math.ceil(a / b)` is the least `q` with `a <= b * q`. |
| NknEntry.SetItem | lib/modules/nkn-entry.js:100-107 | After `setItem`: good and bad are the truthy and falsy counts, and num = good + bad = number of samples. avg exists iff good > 0 and is the ceiling of the good-sample mean. ratio is bad/good when both are positive, 1 when only bad is, else 0. |
| NknEntry.FreshItemSettled | lib/modules/nkn-entry.js:92 | Recounting a fresh item only sets its num to 0. |
| NknEntry.SetItemExample | lib/modules/nkn-entry.js:101-105 | `[50, null, 60]` gives good 2, bad 1, avg 55, ratio 0.5, num 3. |
| NknEntry.SumGoodBounds | lib/modules/nkn-entry.js:103 | The sum of the good samples lies between good × smallest and good × largest. |
| NknEntry.AvgWithinSamples | lib/modules/nkn-entry.js:103 | The average lies between the smallest and the largest good sample. |
| NknEntry.LastSamples | lib/modules/nkn-entry.js:126 | `res.slice(-n)` is the last `n` samples in order; `n = 0` or an `n` past the length keeps all of them. |
| NknEntry.Trimmed | lib/modules/nkn-entry.js:125-126 | Only an item with at least `maxResults` samples is trimmed, and only its samples change. |
| NknEntry.TrimmedBelowMax | lib/modules/nkn-entry.js:125-126 | With `0 < numResults < maxResults` (10 and 20 by default), a trimmed history is shorter than `maxResults`. |
| NknEntry.Clean | lib/modules/nkn-entry.js:123-128 | The loop trims every item that reached `maxResults` to its last `numResults` samples and leaves the others untouched. |
| NknEntry.ItemBeforeOrders | lib/modules/nkn-entry.js:115 | The (avg with null last, bad, ratio) order is a strict weak order. |
| NknEntry.TiedItems | lib/modules/nkn-entry.js:115 | Two items tie exactly when their avg, bad and ratio are equal. |
| NknEntry.ItemBefore | lib/modules/nkn-entry.js:115 | An item with an average sorts before one without; one without never sorts before one with; items with equal (avg, bad, ratio) never sort before each other. |
| NknEntry.SortItems | lib/modules/nkn-entry.js:114-116 | `sort` returns a permutation of its input, sorted by (avg with null last, bad, ratio). |
| NknEntry.SortItemsSpec | lib/modules/nkn-entry.js:114-116 | `sort` returns a sorted permutation of its input that keeps tied items in input order. |
| NknEntry.SortedHeadIsBest | lib/modules/nkn-entry.js:114-116 | No item sorts before the head of a sorted non-empty list. |
| NknEntry.SortKeepsItems | lib/modules/nkn-entry.js:115 | Sorting keeps exactly the items, and hence the addresses, it was given. |
| NknEntry.SeedItems | lib/modules/nkn-entry.js:136 | One fresh item per seed, in seed order. |
| NknEntry.Merged | lib/modules/nkn-entry.js:137 | `_.uniqBy(store.concat(seeds), 'addr')` has one item per address, starts with the first stored item when there is one, and holds only stored items and fresh seed items. |
| NknEntry.StoreView | lib/modules/nkn-entry.js:134-138 | `getStore`'s list is sorted by the ranking order. |
| NknEntry.Refresh | lib/modules/nkn-entry.js:137 | Trimming and recounting keep the item's address. |
| NknEntry.RefreshAll | lib/modules/nkn-entry.js:137 | Each item is trimmed and recounted, and the address list is unchanged. |
| NknEntry.StoreViewOrdered | lib/modules/nkn-entry.js:134-138 | `getStore` yields a sorted list with one item per address. |
| NknEntry.ConcatAddrs | lib/modules/nkn-entry.js:137 | `store.concat(seeds)` holds exactly the stored addresses and the seeds. |
| NknEntry.UniqByAddrs | lib/modules/nkn-entry.js:137 | `_.uniqBy(.., 'addr')` keeps every address it meets. |
| NknEntry.StoreViewAddrs | lib/modules/nkn-entry.js:135-137 | `getStore` holds an address iff it is stored or a seed. |
| NknEntry.StoreViewPrefersStored | lib/modules/nkn-entry.js:137 | A stored address is represented by its first stored item, trimmed and recounted, never by a fresh seed item. |
| NknEntry.Probed | lib/modules/nkn-entry.js:145-148 | A probe appends exactly one sample to the item and keeps its address. |
| NknEntry.ProbeAll | lib/modules/nkn-entry.js:145-152 | Every item is probed once at its own address, and the address list is unchanged. |
| NknEntry.LatencyTestSorts | lib/modules/nkn-entry.js:151-153 | On a list with one item per address, `uniqBy(sorted(tested) ++ store)` is just the sorted tested list. |
| NknEntry.LatencyTest | lib/modules/nkn-entry.js:150-153 | The tested store has one item per address, and every item is a probed item of the view. |
| NknEntry.FastestOf | lib/modules/nkn-entry.js:155 | `fastest` is `Entry.official` for an empty store, and otherwise an address of the store. |
| NknEntry.LatencyTestSpec | lib/modules/nkn-entry.js:144-161 | A test keeps the store's size and one item per address, leaves it sorted, and each item is a view item with exactly one more sample. |
| NknEntry.ViewHistoriesBelowMax | lib/modules/nkn-entry.js:134-138 | With `0 < numResults < maxResults`, every item of `getStore` has fewer than `maxResults` samples. |
| NknEntry.TestedHistoriesBounded | lib/modules/nkn-entry.js:144-153 | After a test no history exceeds `maxResults` samples. |
| NknEntry.ProbeStep | lib/modules/nkn-entry.js:172-190 | One probe callback keeps the race consistent: resolved exactly when the timer fired or was cleared. |
| NknEntry.ProbeRun | lib/modules/nkn-entry.js:172-191 | The probe stays consistent over any order of callbacks. |
| NknEntry.FirstCallbackDecides | lib/modules/nkn-entry.js:172-191 | The probe resolves with the first callback's value: the elapsed time for an answer, `null` for a failure or the timeout. A slow answer after the timeout changes nothing. |
| NknEntry.Entry.constructor | lib/modules/nkn-entry.js:34-50 | Absent options take their defaults (5000, 1000, 20, 10, 5, 3). The seeds are the official node first, then the given seeds, without duplicates. |
| NknEntry.Entry.GetStore | lib/modules/nkn-entry.js:134-138 | `getStore` equals the merged, deduplicated, trimmed, recounted and sorted view of the stored list and the seeds. |
| NknEntry.Entry.TestedStore | lib/modules/nkn-entry.js:150-153 | The list `testLatency` ends up with is `LatencyTest` of the `getStore` view, about which `LatencyTestSpec` is proved. |
| NknEntry.Entry.TestLatency | lib/modules/nkn-entry.js:144-161 | Stamps `lastTest`, saves the tested store, makes its head `fastest`, and leaves the seeds alone. |
| NknEntry.Entry.ShouldTest | lib/modules/nkn-entry.js:82-84 | With a fastest node and a nonzero last-test time cached, a test is due exactly when `testInterval` has elapsed since it; otherwise it is always due. |
| NknEntry.Entry.ShouldTestStaysDue | lib/modules/nkn-entry.js:82-84 | Once a test is due it stays due at every later time. |
| NknEntry.Entry.Boot | lib/modules/nkn-entry.js:67-76 | Adopts the saved `lastTest` and `fastest`. It tests exactly when `shouldTest` holds (no fastest, no last test or a zero one, or the interval elapsed); otherwise nothing changes. |
| NknEntry.Entry.Add | lib/modules/nkn-entry.js:199-207 | The seeds become the old seeds plus the new ones without duplicates. Then it tests if due, or else saves the merged store and keeps `lastTest` and `fastest`. |
| NknEntry.FastestIsBest | lib/modules/nkn-entry.js:155 | With the official node among the seeds the tested store is never empty, so `fastest` is the best-ranked tested address and never the fallback. |
| NknSeeder.CreateSeed | lib/modules/nkn-seeder.js:91-98 | Phrase, seed and hex come from the entropy. The id encodes the first `SEED_LENGTH` (8) bytes of the first hkdf output. |
| NknSeeder.SameIdPrefixSameId | lib/modules/nkn-seeder.js:94-95 | Two seeds whose first hkdf outputs share their first 8 bytes get the same id. |
| NknSeeder.PrefixIndexRoundTrip | lib/modules/nkn-seeder.js:119-120 | Stripping the underscores from a sub-client prefix `__i__` and reading the number gives back `i`. |
| NknSeeder.WsErrorAddr | lib/modules/nkn-seeder.js:174 | The URL with a leading `wss://` removed and, when `30004` occurs, its first occurrence replaced by `30005`; otherwise unchanged. |
| NknSeeder.Step | lib/modules/nkn-seeder.js:161-192 | One callback touches only its own sub-client's race, keeps the seed, and keeps every race consistent. |
| NknSeeder.StartRaces | lib/modules/nkn-seeder.js:161-169 | Every sub-client starts with an unresolved race. |
| NknSeeder.Run | lib/modules/nkn-seeder.js:160-194 | After any callback sequence there is one consistent race per sub-client, and the seed is unchanged. |
| NknSeeder.Results | lib/modules/nkn-seeder.js:194 | `Promise.all` yields one result per sub-client. |
| NknSeeder.ItemFor | lib/modules/nkn-seeder.js:150-153 | `testClient` reuses the stored item for the seed id, else starts an empty one. |
| NknSeeder.ClientRun | lib/modules/nkn-seeder.js:144-197 | `testClient` adds the seed id to the store's keys if it is new, keeps the item's seed, and leaves every other id untouched. |
| NknSeeder.WsErrorRecordsBad | lib/modules/nkn-seeder.js:173-177 | A websocket error records the node as bad for that sub-client, removes it from good, and changes no other address. |
| NknSeeder.ConnectRecordsGood | lib/modules/nkn-seeder.js:182-190 | An on-time connect records `rpcAddr` as good for that sub-client and changes nothing else. A connect after the timeout changes nothing. |
| NknSeeder.FirstCallbackSettles | lib/modules/nkn-seeder.js:163-191 | Each sub-client's promise settles with its first callback's value: `rpcAddr` for a connect, false for the timeout or a websocket error. |
| NknSeeder.RunBounded | lib/modules/nkn-seeder.js:176-189 | Only this client's sub-client numbers (below `numSubClients`) are ever recorded. |
| NknSeeder.TotalBounds | lib/modules/nkn-seeder.js:116-125 | Each entry scores between 1 and `numClients`, so a score is positive iff the map is non-empty. |
| NknSeeder.Total | lib/modules/nkn-seeder.js:116-125 | The score of an empty map is 0, and no score exceeds `numClients` per entry. |
| NknSeeder.Score | lib/modules/nkn-seeder.js:113-126 | A scored node keeps its id and its item, `goodn` is Σ(numClients − index) over its good map and `badn` the same over its bad map; with indices below `numClients`, `goodn > 0` exactly when some node was good. |
| NknSeeder.ScoreAll | lib/modules/nkn-seeder.js:113-127 | One node per stored entry, in insertion order. |
| NknSeeder.Compare | lib/modules/nkn-seeder.js:128-134 | The comparator returns -1, 0 or 1. |
| NknSeeder.CompareConsistent | lib/modules/nkn-seeder.js:128-134 | The comparator is antisymmetric. It returns 0 exactly for equal (goodn, badn). "Before" means higher goodn, or equal goodn and lower badn. |
| NknSeeder.NodeBeforeOrders | lib/modules/nkn-seeder.js:128-134 | The comparator's order is a strict weak order. |
| NknSeeder.NodeBefore | lib/modules/nkn-seeder.js:128-134 | A node with higher goodn sorts first, and a node sorts first only if its goodn is not lower. |
| NknSeeder.RunSeedsKeys | lib/modules/nkn-seeder.js:108-113 | The store `testSeeds` builds has exactly the seed ids as keys, each once. |
| NknSeeder.RunSeedsReuse | lib/modules/nkn-seeder.js:150-153 | A repeated id reuses the item of the first seed with that id. |
| NknSeeder.RunSeeds | lib/modules/nkn-seeder.js:108-113 | Testing the seeds in turn stores at most one entry per seed, and the last seed's id is among the keys. |
| NknSeeder.TestSeedsResult | lib/modules/nkn-seeder.js:106-135 | `testSeeds` returns at most one node per seed, sorted by the comparator. |
| NknSeeder.TestSeedsSpec | lib/modules/nkn-seeder.js:106-135 | `testSeeds` yields one node per distinct seed id and no other, sorted by the comparator, with goodn > 0 exactly for seeds that reached a node, and badn >= 0. |
| NknSeeder.ScoreAllCounts | lib/modules/nkn-seeder.js:116-125 | A node has goodn > 0 iff its good map is non-empty, and badn is never negative. |
| NknSeeder.ScoreAllIds | lib/modules/nkn-seeder.js:113-127 | Scoring keeps the stored ids, in order. |
| NknSeeder.GoodAddrsMembers | lib/modules/nkn-seeder.js:64 | The collected address list holds exactly the good addresses of the nodes. |
| NknSeeder.Survivors | lib/modules/nkn-seeder.js:56 | The filter keeps exactly the nodes with nonzero goodn. |
| NknSeeder.SurvivorsCount | lib/modules/nkn-seeder.js:56-57 | Each node with nonzero goodn is kept as often as it occurs and no other node is, so the length tested against 4 is the number of such nodes. |
| NknSeeder.SurvivorsConcat | lib/modules/nkn-seeder.js:56 | The filter keeps input order: filtering a concatenation concatenates the filtered parts. |
| NknSeeder.Batch | lib/modules/nkn-seeder.js:74-84 | A batch of `n` has exactly `n` seeds. |
| NknSeeder.BatchIsChain | lib/modules/nkn-seeder.js:79-82 | The first entropy is the hash of the initial entropy, and each next one is the hash of the one before. |
| NknSeeder.BatchPrefix | lib/modules/nkn-seeder.js:74-84 | A shorter batch from the same pre-image is a prefix of a longer one. |
| Wrappers.OrFallback | lib/modules/nkn-seeder.js:41-43 | `x \|\| fallback` on a number: an absent or zero value falls back; the seeder's options, the subscription's block count and its start height all resolve this way. |
| NknSeeder.Seeder.constructor | lib/modules/nkn-seeder.js:40-44 | numSeeds, numWords and connectTimeout default to 4, 12 and 4000. |
| NknSeeder.Seeder.GetSeeds | lib/modules/nkn-seeder.js:74-84 | The loop returns the batch of `num \|\| numSeeds` seeds, hashing the entropy once per seed. |
| NknSeeder.Seeder.TestClient | lib/modules/nkn-seeder.js:144-197 | Equals `testClient`'s effect on the store, and returns one result per sub-client. |
| NknSeeder.Seeder.TestSeeds | lib/modules/nkn-seeder.js:106-135 | The loops compute the scored and sorted nodes of the store built by testing every seed in turn. |
| NknSeeder.Seeder.Generate | lib/modules/nkn-seeder.js:52-66 | Tests 5 seeds; if fewer than 4 reach a node, tests a new batch of 10. Either way it retests the whole latest batch with 10 sub-clients. It returns the head as winner and every node's good addresses. |
| NknSeeder.ScoreStore | lib/modules/nkn-seeder.js:112-127 | The `for ... in` loop scores every stored item in insertion order. |
| NknSeeder.CollectGoodAddrs | lib/modules/nkn-seeder.js:64 | The `reduce` concatenates every node's good addresses, node after node. |
| NknSeeder.SumScores | lib/modules/nkn-seeder.js:117-124 | The inner loop sums `numClients - index` over a map. |
| NknSeeder.GenerateCoversBatch | lib/modules/nkn-seeder.js:62-63 | The final test has a node for every seed of the batch, including those the first test filtered out, and nothing ranks before the winner. |
| NknConnect.ResolveOptions | lib/modules/nkn-connect.js:41-48 | Defaults are 6 sub-clients, 1200 ms, threshold 0.8 and no log suppression. Every given option wins, even a falsy one. |
| NknConnect.ExplicitZeroKept | lib/modules/nkn-connect.js:43-47 | An explicit `numSubClients: 0` stays 0 after the spread. |
| NknConnect.Connector.constructor | lib/modules/nkn-connect.js:41-56 | A new orchestrator has resolved options, no client and empty handler queues. |
| NknConnect.Connector.OnMessage | lib/modules/nkn-connect.js:62-68 | With a client the handler is attached to it; without one it is queued. Nothing else changes. |
| NknConnect.Connector.OnConnect | lib/modules/nkn-connect.js:74-80 | The handler is called now if the client is ready, else queued. |
| NknConnect.Connector.OnWsError | lib/modules/nkn-connect.js:86-92 | With a client the handler is attached to it; without one it is queued. |
| NknConnect.Connector.Init | lib/modules/nkn-connect.js:109-121 | The queued message and websocket handlers are attached after the client's own, in order. The queued connect handlers run now if the client is ready, or on its connect otherwise. |
| NknConnect.Connector.ClientConnected | lib/modules/nkn-connect.js:116-118 | On the client's connect, every queued connect handler runs once, in order. |
| NknConnect.MessageHandlersInOrder | lib/modules/nkn-connect.js:111 | Message handlers registered before and after `init` are each attached exactly once, in registration order. |
| NknConnect.ConnectHandlersInOrder | lib/modules/nkn-connect.js:113-119 | Connect handlers registered before `init`, while waiting, and after readiness are each called exactly once, in registration order. |
| NknConnect.Notify | lib/modules/nkn-connect.js:181-183 | Every user `onNode` callback is called with the late node. A gate calls `onNodes(nodes)` only if the quorum is reached and it has not fired yet, and then it fires. |
| NknConnect.StartRaces | lib/modules/nkn-connect.js:148-152 | Every sub-client starts with an unresolved race. |
| NknConnect.WithGate | lib/modules/nkn-connect.js:130-141 | Each `connect()` with `onNodes` adds one unfired gate. |
| NknConnect.AppendGate | lib/modules/nkn-connect.js:140 | The gate is pushed at the end of `opts.onNode`. |
| NknConnect.ConnectRun.constructor | lib/modules/nkn-connect.js:127-152 | The first attempt starts with one list of unresolved races, an empty list of late nodes, and the user callbacks plus one gate if `onNodes` is set. |
| NknConnect.ConnectRun.Complete | lib/modules/nkn-connect.js:153-157 | The outer promise resolves, once, when every race of the current attempt settled and its client is ready. |
| NknConnect.ConnectRun.SubTimer | lib/modules/nkn-connect.js:169-172 | A timer of any attempt, current or failed, resolves its node's race with false unless it was already settled; nothing else changes. |
| NknConnect.ConnectRun.SubConnectFailed | lib/modules/nkn-connect.js:173-177 | A connect failure of any attempt's sub-client before the timeout settles its race with false; after it, nothing changes. |
| NknConnect.ConnectRun.SubConnect | lib/modules/nkn-connect.js:178-188 | An on-time connect settles with the node. A late one, of the current or of a failed attempt, is appended to that attempt's `nodes` and passed with that list to every `onNode` callback, later attempts' gates included, against the current `numSubClients`. |
| NknConnect.ConnectRun.ClientReady | lib/modules/nkn-connect.js:154-155 | The multi-client's readiness lets the outer promise resolve. |
| NknConnect.ConnectRun.ConnectFailed | lib/modules/nkn-connect.js:144-147 | An aggregate failure raises `numSubClients` by exactly 4 and starts a new attempt with fresh races and one more gate; the failed attempt's races and nodes stay live. |
| NknConnect.ConnectRun.OnNodesBounded | lib/modules/nkn-connect.js:130-140 | `onNodes` is called at most once per `connect()` call so far, and never without `onNodes`. |
| NknConnect.UserCallbacks | lib/modules/nkn-connect.js:139 | `_.toArr(opts.onNode)`: the user's callbacks, in order. |
| NknConnect.RetryCallsOnNodesTwice | lib/modules/nkn-connect.js:139-146 | After one retry the two gates both fire on the first quorum: `onNodes` is called twice. |
| NknConnect.QuorumReached | lib/modules/nkn-connect.js:133-134 | The gate opens once every sub-client has connected (threshold at most 1). With no node connected it stays shut, unless the threshold is 0 or below and there are sub-clients. |
| NknConnect.FiredGateStaysQuiet | lib/modules/nkn-connect.js:134 | A fired gate never calls `onNodes` again. |
| NknTransport.Configure | lib/transports/nkn-transport.js:43-45 | An absent or zero fee, numBlocks or maxRetries falls back to 0, 2 or 3. |
| NknTransport.SendFrom | lib/transports/nkn-transport.js:64-73 | The recursive `send()` makes at least one client call. |
| NknTransport.Send | lib/transports/nkn-transport.js:62-75 | The retry loop returns what the recursive `send()` returns, after as many client calls. |
| NknTransport.SendAttemptsBounded | lib/transports/nkn-transport.js:63-68 | At most `maxRetries` client calls are made, or one when `maxRetries` is 0. |
| NknTransport.SendResult | lib/transports/nkn-transport.js:62-75 | `_send` makes between 1 and `maxRetries` client calls (1 when `maxRetries <= 1`), and a success is the answer the last call delivered. |
| NknTransport.Exhausted | lib/transports/nkn-transport.js:67-68 | The "Send failed after n tries" error never counts as a timeout, so it is never retried. |
| NknTransport.IsTimeout | lib/transports/nkn-transport.js:69 | A message is retried exactly when it starts with `failed to send with any client: Error: Message timeout`. |
| NknTransport.AlwaysTimingOut | lib/transports/nkn-transport.js:64-70 | A send that always times out is tried exactly `maxRetries` times, then fails with "Send failed after N tries". |
| NknTransport.FirstDecisiveCall | lib/transports/nkn-transport.js:64-72 | After timeouts only, the first call that delivers returns the response unchanged (the last allowed call included); a rejection on the call that spends the budget becomes the exhausted error whatever its kind, and an earlier non-timeout error is rethrown unchanged. |
| NknTransport.OneTryTimeout | test/newk.test.js:150-168 | With `maxRetries = 1` a timing-out send fails with "Send failed after 1 tries" after one call. |
| NknTransport.ResolveFee | lib/transports/nkn-transport.js:115 | Uses the explicit fee if not nil, else the transport fee if not nil, else 0. |
| NknTransport.SubscribeRequest | lib/transports/nkn-transport.js:113-126 | The submitted transaction has the topic, identifier and metadata, `num \|\| numBlocks` blocks, and the resolved fee. |
| NknTransport.ExplicitZeroFeeKept | lib/transports/nkn-transport.js:115 | An explicit fee of 0 is kept. |
| NknTransport.UnsubscribeDecision | lib/transports/nkn-transport.js:135-148 | `true` iff the address is a subscriber, `expiresAt != 0`, and the ledger accepts. The subscription is queried only for a subscriber. The unsubscribe is sent only if `expiresAt != 0`. |
| NknTransport.Normalize | lib/transports/nkn-transport.js:157-166 | A boolean option means `{meta}`. Defaults are txPool true, offset 0, limit 1000. The wallet is always asked for metadata. |
| NknTransport.Flatten | lib/transports/nkn-transport.js:170-173 | The nested loop lists the confirmed entries, then the pending ones, each in key order. |
| NknTransport.GetSubscribers | lib/transports/nkn-transport.js:157-177 | Without txPool the raw answer is returned. Otherwise the result is the confirmed then the pending subscribers, as addresses or as address/metadata pairs. |
| NknTransport.MemberListComplete | lib/transports/nkn-transport.js:136-137 | The list `unsubscribe` checks holds every confirmed and pending subscriber, confirmed first. |
| NknTransport.Unsubscribe | lib/transports/nkn-transport.js:135-148 | From the raw ledger answers, `unsubscribe` succeeds iff the address is a confirmed or pending subscriber, `expiresAt != 0`, and the ledger accepts. |
| PubSub.SubscribeStateFields | lib/modules/nkn-pubsub.js:121-149 | `subscribe` writes the topic's entry once, with `next` set. It submits a transaction only for a non-member, and leaves the heart running. |
| PubSub.SubscriptionExpiry | lib/modules/nkn-pubsub.js:157-165 | A nonzero `expiresAt` gives the blocks left until it; a zero passes through. |
| PubSub.DiscoverDelay | lib/modules/nkn-pubsub.js:207 | The caller's delay when given, else the default `'3s'`. |
| PubSub.StartHeartOnce | lib/modules/nkn-pubsub.js:51-57 | `startHeart` starts the interval only if there are topics and none runs. Running it again changes nothing, so at most one interval exists. |
| PubSub.StartHeartState | lib/modules/nkn-pubsub.js:51-57 | The topics and calls are unchanged. The interval runs afterwards iff it ran before or there are topics, and a beat starts exactly when it was off and there are topics. |
| PubSub.SubscribeState | lib/modules/nkn-pubsub.js:121-149 | The topic's entry exists with `next` set. Every other topic is unchanged. The heart runs, and at most one ledger call is appended. |
| PubSub.RenewState | lib/modules/nkn-pubsub.js:121-149 | The entry is the cached one with only `next` recomputed. Other topics and the timer are unchanged. Exactly one call is appended for a non-member and none for a member. |
| PubSub.UnsubscribeState | lib/modules/nkn-pubsub.js:192-198 | The topic is flagged for deletion, other topics are unchanged, no call is sent, and the heart runs. |
| PubSub.BeatOne | lib/modules/nkn-pubsub.js:80-91 | A heartbeat turn for a missing topic changes nothing. Otherwise only that topic's entry changes, and at most one call is appended. |
| PubSub.BeatKeysAppends | lib/modules/nkn-pubsub.js:79-92 | A heartbeat pass only appends ledger calls. |
| PubSub.BeatState | lib/modules/nkn-pubsub.js:71-92 | With no topics the interval stops and nothing else changes; otherwise calls are only appended. |
| PubSub.SubscribeKeepsKeys | lib/modules/nkn-pubsub.js:121-149 | A subscription caches its topic and keeps every cached topic. |
| PubSub.StartState | lib/modules/nkn-pubsub.js:30-46 | After `start` with a non-empty list the heart runs, and calls are only appended. |
| PubSub.StartStateCaches | lib/modules/nkn-pubsub.js:30-46 | `start` keeps every cached topic and caches every listed one. |
| PubSub.SubscribeCachesOnce | lib/modules/pubsub-persist.js:82-85 | A cached topic keeps its metadata, fee, num and flag; a new one takes the resolved values. No other topic changes, keys stay distinct, and the heart runs. |
| PubSub.SubscribeSubmitsOnlyForNonMembers | lib/modules/nkn-pubsub.js:133-148 | A transaction is submitted exactly when the address is not a subscriber. `next` is a member's nonzero `expiresAt`, else `height + num + 1`. |
| PubSub.UnsubscribeOnlyFlags | lib/modules/pubsub-persist.js:123-129 | `unsubscribe` flags the topic, adding a placeholder (`''`, fee 0, `numBlocks`, next null) if absent. It removes nothing and sends nothing. |
| PubSub.SubscribeKeepsDeleteFlag | lib/modules/nkn-pubsub.js:125-127 | Subscribing never clears a delete flag. |
| PubSub.EmptyBeatStopsTimer | lib/modules/pubsub-persist.js:45-49 | A heartbeat with no topics only stops the interval. |
| PubSub.BeatOneEntries | lib/modules/nkn-pubsub.js:80-91 | One heartbeat turn changes only its own topic's entry, and keeps keys distinct. |
| PubSub.BeatKeysEntries | lib/modules/pubsub-persist.js:52-65 | A pass over distinct keys renews or drops each visited topic and leaves every other topic as it was. |
| PubSub.BeatOneCalls | lib/modules/nkn-pubsub.js:80-91 | One heartbeat turn appends exactly its topic's `BeatCall` to the ledger calls. |
| PubSub.BeatKeysCalls | lib/modules/pubsub-persist.js:52-65 | A pass over distinct keys appends the per-topic calls, each computed from the table as it was before the pass. |
| PubSub.BeatCallsPerTopic | lib/modules/nkn-pubsub.js:80-91 | Per topic: one subscription for a visited unflagged topic this node is not yet subscribed to, none for a member; one unsubscribe exactly for a visited flagged topic with a confirmed subscription. |
| PubSub.BeatOutcome | lib/modules/nkn-pubsub.js:71-92 | A heartbeat drops a flagged topic only if the ledger unsubscribe returned `true`, and keeps every other topic. Non-flagged topics get `next` recomputed at the one height fetched for the pass. The calls it submits are the per-topic calls: no duplicate subscription for a topic, none for a member, one unsubscribe per confirmed flagged topic. |
| PubSub.PubSubPersist.constructor | lib/modules/nkn-pubsub.js:16-24 | No topics, no timer, and `beatInterval \|\| '5s'`. |
| PubSub.PubSubPersist.HasTopics | lib/modules/pubsub-persist.js:41-43 | True iff the topic table has a key. |
| PubSub.PubSubPersist.StartHeart | lib/modules/pubsub-persist.js:34-40 | The state moves as `startHeart` specifies. |
| PubSub.PubSubPersist.Subscribe | lib/modules/pubsub-persist.js:78-106 | The state moves as `subscribe` specifies. |
| PubSub.PubSubPersist.Renew | lib/modules/nkn-pubsub.js:133-148 | Sets `next` and submits the transaction for a non-member, as specified. |
| PubSub.PubSubPersist.Unsubscribe | lib/modules/nkn-pubsub.js:192-198 | The state moves as `unsubscribe` specifies. |
| PubSub.PubSubPersist.Heartbeat | lib/modules/pubsub-persist.js:44-66 | The loop over the topics moves the state as one heartbeat pass specifies. |
| PubSub.PubSubPersist.BeatTopic | lib/modules/nkn-pubsub.js:79-92 | One loop turn: a flagged topic is unsubscribed and dropped on success; any other is renewed. |
| PubSub.PubSubPersist.Start | lib/modules/pubsub-persist.js:17-33 | Subscribes each listed topic (names, or name → metadata) in order, then starts the heart. |
| BusTransport.AddressInjective | lib/transports/bus-transport.js:22 | Different identifiers or keys give different addresses, since the hex spelling has no `.`. |
| BusTransport.Address | lib/transports/bus-transport.js:22 | The address is the identifier, one separator and two hex digits per key byte, with the identifier in front. |
| BusTransport.NotFound | lib/transports/bus-transport.js:35-36 | The error for a missing node quotes the destination address after `Node with address "`. |
| BusTransport.SubscribeTo | lib/transports/bus-transport.js:47-49 | The topic gets this address with the given metadata; other addresses of the topic and other topics keep theirs. |
| BusTransport.UnsubscribeFrom | lib/transports/bus-transport.js:57-59 | No topic is created or removed; this address leaves the topic, and every other address and topic is kept. |
| BusTransport.Listing | lib/transports/bus-transport.js:68-73 | With `meta` the topic's address → metadata object; without, exactly its subscribed addresses; an unknown topic gives an empty result. |
| BusTransport.ConnectKeepsOthers | lib/transports/bus-transport.js:23 | Registering a second instance with another identifier or key keeps the route to the first. |
| BusTransport.SubscribeListed | lib/transports/bus-transport.js:47-49 | After `subscribe` the address is listed for the topic with its metadata, at the end if it is new. Other subscribers and topics are unchanged. |
| BusTransport.ResubscribeOverwrites | lib/transports/bus-transport.js:48 | Subscribing again only overwrites the metadata. |
| BusTransport.UnsubscribeOnlyOwn | lib/transports/bus-transport.js:57-59 | `unsubscribe` removes only this address from this topic, and repeating it changes nothing. |
| BusTransport.SubscribeThenUnsubscribe | lib/transports/bus-transport.js:47-59 | Subscribing then unsubscribing leaves the other subscribers as they were. |
| BusTransport.UnknownTopicEmpty | lib/transports/bus-transport.js:69-72 | An unknown topic gives an empty list, or an empty object with `meta`. |
| BusTransport.UpdatesKeepWellFormed | lib/transports/bus-transport.js:48-58 | Subscribe and unsubscribe keep every subscriber table free of repeated addresses. |
| BusTransport.Registry.constructor | lib/transports/bus-transport.js:23 | Both shared tables start empty. |
| BusTransport.Registry.Connect | lib/transports/bus-transport.js:19-24 | Registers the instance under `identifier.hex(publicKey)`, replacing any previous one, and leaves the pub table alone. |
| BusTransport.Registry.Send | lib/transports/bus-transport.js:33-37 | Succeeds iff the destination is registered, with the receiver's `receive({payload, src})` result; otherwise fails with `Node with address "…" could not be found`. |
| BusTransport.Registry.Subscribe | lib/transports/bus-transport.js:47-49 | Sets this address's metadata (default `''`) for the topic and keeps tables well formed. |
| BusTransport.Registry.Unsubscribe | lib/transports/bus-transport.js:57-59 | Deletes this address from the topic, if the topic exists, and keeps tables well formed. |
| BusTransport.Registry.GetSubscribers | lib/transports/bus-transport.js:68-73 | The topic's addresses, one per subscriber, or its whole address → metadata object, agreeing with it on every address; no address is listed twice. |
| Races.Expire | lib/modules/nkn-entry.js:173-176 | A timer resolves an unresolved race with the timeout value and marks it finished; a resolved race is unchanged. |
| Races.Settle | lib/modules/nkn-entry.js:183-184 | An on-time callback clears the timer and resolves, unless it is already resolved; a promise keeps its first value. |
| Races.Late | lib/modules/nkn-entry.js:179-182 | A callback arriving after the timer fired finds the race already resolved and the timer not cleared, so it only logs. |
| Sorting.Sort | lib/modules/nkn-entry.js:115 | The sort returns a permutation of its input. |
| Sorting.SortStable | lib/modules/nkn-entry.js:115 | The sort is stable: items tied with any `y` keep their relative order. |
| Sorting.SortSorted | lib/modules/nkn-seeder.js:128-134 | Under a strict weak order the result is sorted. |
| Lists.UniqBy | lib/modules/nkn-entry.js:153 | `_.uniqBy` keeps, for each key, the first item of the input with that key and nothing else, with distinct keys, every input key represented and the head in front. The kept items are ordered as their keys first occur in the input. |
| Lists.Uniq | lib/modules/nkn-entry.js:48 | `_.uniq` keeps each value once and drops none, with the first value in front. Kept values are in the order of their first occurrences in the input. |
| Dicts.Set | lib/modules/nkn-seeder.js:189 | Assigning a key keeps an existing key's position, appends a new key, and changes no other key. |
| Dicts.Delete | lib/modules/nkn-seeder.js:177 | `delete` removes the key, keeps every other key's value, and keeps the remaining entries in their relative order. |
| Dicts.SetTwice | lib/transports/bus-transport.js:48 | Assigning twice is assigning the second value. |
| Dicts.DeleteIdempotent | lib/transports/bus-transport.js:58 | Deleting twice is deleting once. |
| Strings.IndexOf | lib/modules/nkn-seeder.js:174 | A found index leaves room for the whole pattern after it. |
| Strings.IndexOfSpec | lib/modules/nkn-seeder.js:174 | The found index is the first where the pattern occurs, and none is found only when it occurs nowhere. |
| Strings.ReplaceFirst | lib/modules/nkn-seeder.js:174 | A non-global `replace`: the first occurrence of the pattern is replaced and the rest kept; without one the string is unchanged. |
| Strings.ToHex | lib/transports/bus-transport.js:22 | Two characters per byte, none of them `.`. |
| Strings.ToHexInjective | lib/transports/bus-transport.js:22 | Different keys have different hex spellings. |
| Strings.ParsePrinted | lib/modules/nkn-seeder.js:120 | Reading back a printed number gives the number. |

## Left out

- Real I/O is not modelled. The NKN SDK, the wallet and ledger RPCs, `nkn.rpc.getNodeState`, the key-value database, `Date.now`, `setTimeout` and the `Timely` timer all become inputs or fields, as described above.
- Concurrency is not modelled. Every `Promise.all` fan-out runs in array order, and interleavings of `async` methods are not considered.
- Logging, `console` output, `NknConnect.suppressLogs` and the `subscribe` event the keeper emits are left out. They do not change state.
- Floating point is not modelled. `ratio`, fees and the 0.8 threshold are Dafny reals.
- NknEntry.Entry.Boot: `lastTest` and `fastest` as the database returns them are parameters.
- NknEntry.Entry.Add: a single address is passed as a one-element list; the `_.isArray` wrapping is not modelled.
- NknEntry.FirstCallbackDecides: the elapsed time of an answer is an input. The `testTimeout` option is not compared with it.
- `protocol`, `numTest`, `numTestMin` and `testTimeout` options of `Entry` are kept but not used by any modelled logic, as in the source.
- `static boot` and `static init` only construct an object and call its `boot` or `init`; they are not modelled separately.
- NknSeeder.Run: sub-client `i` of a multi-client is numbered `i`, assuming the SDK names its sub-clients `__i__` (`client.clients` is external). PrefixIndexRoundTrip proves the score reads that number back.
- NknSeeder.Seeder.TestClient: `client.close()` and the no-op `onConnectFailed` / `onWsError` handlers are not modelled.
- The crypto primitives (mnemonic conversion, `Crypto.getEntropy`, `Crypto.hash`, hkdf, nacl key derivation) are uninterpreted functions or inputs.
- NknConnect.ConnectRun.OnNodesBounded: states at most one `onNodes` call per `connect()` call, not one overall. After a retry every accumulated gate fires on its own (RetryCallsOnNodesTwice), so "at most once overall" does not hold for the source.
- Dicts: a JavaScript object enumerates integer-like keys (such as `"42"`) first, in ascending numeric order, before the other keys in insertion order. The model keeps every key in insertion order, so for integer-like topic names the order of the heartbeat's ledger calls and of `Object.entries` may differ from the source.
- NknConnect.ConnectRun.ConnectFailed: only the current attempt's multi-client may fail as a whole; an earlier, already failed multi-client failing again (which would start yet another `connect()`) is not modelled.
- NknConnect.ConnectRun.Complete: the client a retry resolves with is recorded as an attempt number. The chain of nested promises from `resolve(this.connect())` is not modelled.
- The `MultiClient` options `connect` passes on (identifier, seed, `onNode`) are not modelled beyond `opts.onNode` and `numSubClients`.
- NknTransport `_connect`: key derivation, `NknConnect.init`, waiting for readiness and binding `receive` are external. Only the option defaults (Configure) are modelled, and the transport's address is a parameter of the keeper and the unsubscribe decision.
- NknTransport `getWallet`, the `wallet` getter and `publish` are left out. They only create or look up the wallet and fan out sends through the SDK.
- NknTransport.UnsubscribeDecision: a non-`true` outcome is the logger's message. What the logger returns is assumed falsy, as the keeper's heartbeat relies on.
- PubSub: a failed `getBlockHeight` (`false` or `undefined`) is not modelled. The ledger always reports a numeric height.
- PubSub.BeatOutcome: the ledger always answers. In the source, `rpc.unsubscribe` reads the subscriber list and the subscription (lib/transports/nkn-transport.js:136, 139) and nothing catches a rejection at lib/modules/nkn-pubsub.js:82 or lib/modules/pubsub-persist.js:55. Such a rejection ends the heartbeat pass there, so later topics are neither renewed nor dropped in that pass. The model always completes the pass.
- PubSub.SubscribeState: a rejected `getSubscribers` or `getSubscription` (lib/modules/nkn-pubsub.js:134-136) makes `subscribe` reject. By then the topic is cached, the heart started and `next` set to `height + num + 1`, and no transaction is sent. The model's ledger always answers, so this path is not modelled.
- PubSub.PubSubPersist.StartHeart: the immediate beat `startHeart` fires is counted, not run inline. The environment calls `Heartbeat`.
- PubSub.DiscoverDelay: only the choice of the delay string is modelled. `_.str2ms` and the transport's `discover` polling loop are outside this model. In nkn-pubsub.js the default comes from `lib/core/const.js`, which is not part of this model; the value is taken from pubsub-persist.js (`'3s'`).
- PubSub `getSubscription`, `getSubscribers` and `getSubsPersist` only forward to the wallet or transport, or are empty. Their answers are the `TopicLedger` of a topic: the subscriber list as `getSubscribers(topic, false)` returns it, plus `expiresAt`.
- PubSub.PubSubPersist.Start: the keeper's address, client and wallet that `start` copies from the transport are constructor parameters.
- BusTransport.Registry.GetSubscribers: with `meta`, the source returns the live shared `pub[topic]` object (lib/transports/bus-transport.js:70-71). A caller that changes it changes the registry, and later subscriptions show up in it. The model returns a snapshot taken at the call.
- BusTransport.Registry.Send: the receiver's `receive` handler, defined in `lib/core/transport.js`, is a function parameter. `lib/core/transport.js` is not part of this model.

## Findings

| source | as written | input that shows it | evidently intended | confidence | as-written member | corrected member |
|---|---|---|---|---|---|---|
| lib/modules/nkn-entry.js:24 | `detect()` compares `window.location.protocol` with `'https'`, but browsers report the scheme with its colon (`'https:'`) | a browser page served over https and a node other than the official one: `protocol` answers `http` | `https` on a secure page, matching the page's own scheme | not executed | NknEntry.AsWrittenIgnoresSecurePage | NknEntry.Protocol |
