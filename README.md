# Cache-warmer coordinator — a Dafny model

This project models the cache-warmer middleware `withCacheWarmer` of the
external-adapters bootstrap package
(`packages/core/bootstrap/src/lib/middleware/cache-warmer/index.ts`). The
middleware runs once per adapter request. It decides whether the request's
data should be kept fresh by pull-based warming, or whether a live WebSocket
subscription already covers it and the warmer should stand aside.

For one request the handler does the following:

1. It reads `CACHE_ENABLED` and `WARMUP_ENABLED`. Each is on when unset. If
   either is off, it calls the wrapped `execute` and returns its outcome. The
   warmer store is not touched.
2. If WS is enabled for the endpoint and a WS handler factory was supplied, it
   walks the atomic members of the (possibly batched) request. For each member
   with an active WS subscription, it looks up the warmer entry for the
   request's warmer key. If there is one, it dispatches `warmupLeaveGroup`
   (only for an entry with both a parent and a batchable path) and then
   `warmupUnsubscribed`. Any covered member makes the whole batch bypass the
   warmer: `execute` runs once and its outcome is returned.
3. Otherwise `execute` runs once. If it returned a result, one `warmupExecute`
   carrying the input, the replay closure and that result is dispatched. The
   outcome is returned unchanged either way.

The warmer key is computed from the whole input, not from the member, so
every member of a batch looks up the same key. The model keeps this.

The WS store is a live object (`WsStore`). The WS middleware changes its
subscriptions between requests, and the handler reads them afresh for every
batch member. So a key that was warmed on one request is handed over to WS on
the next request after its subscription becomes active.

Files and modules:

- `wrappers.dfy` (`Wrappers`): `Option`, with `GetOr` standing for `??`.
- `adapter.dfy` (`Adapter`): requests, responses, the outcome of an awaited
  call (returned or threw), the replay-closure token, and `Executor`, a
  class for the wrapped `execute` that records every call it receives.
- `warmer_store.dfy` (`CacheWarmerStore`): warmer entries, the three actions,
  the reducer as an arbitrary function, `ApplyAll` (replaying a log of actions),
  and `WarmerStore`, a class holding the subscriptions and the log of
  dispatched actions.
- `cache_warmer.dfy` (`CacheWarmer`): the enable check, the specification of
  one request (`Teardown` → `CoverMember` → `CoverBatch` → `HandleSpec`), and
  `WsStore`, the live WS subscriptions, and `CacheWarmerMiddleware`, the
  imperative handler. `Handle`,
  `CheckBatchCoverage` (the loop over members) and `CheckMember` (the
  per-member callback) are proved to dispatch exactly the actions
  `HandleSpec` lists and to leave the store in exactly the state it gives.
- `cache_warmer_properties.dfy` (`CacheWarmerProperties`): the properties of
  one request, stated over `HandleSpec` and `CoverBatch`.

The reducer is not part of this model. The store applies actions with an
arbitrary function `reduce`. Most properties hold for every reducer. The
lemmas that need more assume only `UnsubscribeRemovesKey`: after
`Unsubscribed` for a key, the table has no entry for it. Each of those lemmas
says so in its `requires`.

## Model

| member | source | states |
|---|---|---|
| CacheWarmer.IsWarmerActive | packages/core/bootstrap/src/lib/middleware/cache-warmer/index.ts:31-34 | the warmer is active if and only if neither flag is explicitly false; both unset means active (each defaults to true) |
| CacheWarmer.Teardown | packages/core/bootstrap/src/lib/middleware/cache-warmer/index.ts:68-90 | for a covered member that found an entry: a leave-group is dispatched if and only if the entry has both parent and batchable path, it comes first and carries that parent, that path and `{key: now}`; exactly one unsubscribe follows, last, with the key, the WS takeover reason and `isBatched` read from the state after the earlier dispatch; the new state is the dispatches replayed |
| CacheWarmer.CoverMember | packages/core/bootstrap/src/lib/middleware/cache-warmer/index.ts:59-93 | a member sets the bypass flag exactly when its WS subscription is active; it dispatches something if and only if it is covered and an entry exists, so a covered member with no entry dispatches nothing; every dispatch tears down the request's key |
| CacheWarmer.CoverBatchFlag | packages/core/bootstrap/src/lib/middleware/cache-warmer/index.ts:58-94 | after the walk the bypass flag is set if and only if some member has an active WS subscription; if none has, nothing was dispatched and the store is unchanged |
| CacheWarmer.CoverBatchReplays | packages/core/bootstrap/src/lib/middleware/cache-warmer/index.ts:59-94 | the walk changes the store only by its dispatches: the new state is its log replayed through the reducer |
| CacheWarmer.CoverBatchTeardowns | packages/core/bootstrap/src/lib/middleware/cache-warmer/index.ts:61-90 | every dispatch of the walk is a leave-group for `{key: now}` or an unsubscribe of the key derived from the whole input, whichever member caused it; each leave-group is followed at once by an unsubscribe; no `warmupExecute` |
| CacheWarmer.CacheWarmerMiddleware.constructor | packages/core/bootstrap/src/lib/middleware/cache-warmer/index.ts:26-28 | the middleware keeps the warmer store, middleware list, WS store, handler factory, raw executor and collaborators it is built from |
| CacheWarmer.CacheWarmerMiddleware.CheckMember | packages/core/bootstrap/src/lib/middleware/cache-warmer/index.ts:59-93 | the per-member callback dispatches exactly `CoverMember`'s actions, leaves its state and returns its flag |
| CacheWarmer.CacheWarmerMiddleware.CheckBatchCoverage | packages/core/bootstrap/src/lib/middleware/cache-warmer/index.ts:56-94 | the loop over `separateBatches(input)` dispatches exactly `CoverBatch`'s actions, in order, leaves its state and returns its bypass flag |
| CacheWarmer.CacheWarmerMiddleware.Handle | packages/core/bootstrap/src/lib/middleware/cache-warmer/index.ts:29-115 | `execute` is called exactly once, on the whole input, on every path; the handler returns its outcome unchanged; the store receives exactly `HandleSpec`'s dispatches, computed with the WS subscriptions current at the call, and ends in that state (collaborators and reducer assumed not to throw, see below) |
| CacheWarmerStore.WarmerStore.Dispatch | packages/core/bootstrap/src/lib/middleware/cache-warmer/index.ts:84-90 | a dispatch appends the action to the log and applies the reducer to the subscriptions |
| Adapter.Executor.Execute | packages/core/bootstrap/src/lib/middleware/cache-warmer/index.ts:102 | a call of the wrapped executor is recorded once and yields the executor's outcome for that input |
| CacheWarmerProperties.DisabledPassthrough | packages/core/bootstrap/src/lib/middleware/cache-warmer/index.ts:31-34 | with the warmer disabled nothing is dispatched and the store is unchanged |
| CacheWarmerProperties.WsUnavailableGoesStraightToWarm | packages/core/bootstrap/src/lib/middleware/cache-warmer/index.ts:100-114 | without WS for the endpoint or without a handler factory, the only dispatch is one `warmupExecute` with the result, or none when execute threw |
| CacheWarmerProperties.BatchBypass | packages/core/bootstrap/src/lib/middleware/cache-warmer/index.ts:95-97 | when some member is WS-covered, no `warmupExecute` is dispatched; only teardowns of the request's key are |
| CacheWarmerProperties.WarmPathDispatchesOneExecute | packages/core/bootstrap/src/lib/middleware/cache-warmer/index.ts:102-114 | when no member is covered and execute returned `r`, the dispatch log is exactly one `warmupExecute(input, replay closure, r)` |
| CacheWarmerProperties.FailedExecuteIsNotWarmed | packages/core/bootstrap/src/lib/middleware/cache-warmer/index.ts:101-112 | when execute threw, no `warmupExecute` is dispatched; off the bypass path nothing is dispatched at all |
| CacheWarmerProperties.TeardownsUseRequestKey | packages/core/bootstrap/src/lib/middleware/cache-warmer/index.ts:59-90 | every leave-group and unsubscribe of a request names the warmer key of the whole input; each leave-group is followed at once by an unsubscribe |
| CacheWarmerProperties.StoreFollowsDispatches | packages/core/bootstrap/src/lib/middleware/cache-warmer/index.ts:67-112 | the store state a request leaves is its dispatch log replayed through the reducer from the state it found |
| CacheWarmerProperties.NoEntryNoDispatch | packages/core/bootstrap/src/lib/middleware/cache-warmer/index.ts:64-69 | with no warmer entry for the request's key, the walk dispatches nothing and leaves the store unchanged |
| CacheWarmerProperties.TeardownAtMostOnce | packages/core/bootstrap/src/lib/middleware/cache-warmer/index.ts:59-94 | with a reducer that drops an unsubscribed key, a batch tears down its entry at most once: the first covered member's teardown, or nothing |
| CacheWarmerProperties.WsTakesOverOnLaterRequest | packages/core/bootstrap/src/lib/middleware/cache-warmer/index.ts:63-97 | once the WS store shows an active subscription for a batch member, the next request on the same middleware leaves no warmer entry for the request's key (reducer that drops an unsubscribed key); `execute` ran once per request |
| CacheWarmerProperties.WsCoverageClearsWarmerEntry | packages/core/bootstrap/src/lib/middleware/cache-warmer/index.ts:63-97 | with that reducer, a bypassed request leaves no warmer entry for its key, and its log is the teardown of the entry it found (empty if none) |

## Left out

- Environment reading: `util.getEnv` and `util.parseBool` are not modelled. Each flag is given already parsed, as `None` when unset.
- `DEFAULT_CACHE_ENABLED` is defined in the cache middleware, which is not part of this model. It is taken as `true`.
- `getWSConfig(endpoint).enabled` is given as a boolean (`Environment.wsEnabled`). `ws.makeWSHandler` is an optional handler value, and awaiting it is not modelled.
- `separateBatches`, `getSubsId`, `wsHandler.subscribe` and `getSubscriptionKey` are arbitrary functions (`Collaborators`, `WSHandler`). Their sources are not part of this model. `separateBatches` is taken to call its callback once per member, in order, with no interleaving.
- The warmer reducer, actions module and epics (the scheduler, TTL sweep) are not part of this model. No lemma depends on reducer behaviour beyond `UnsubscribeRemovesKey`, and each lemma that uses it says so.
- Exceptions from the collaborators and the store are not modelled. `ws.makeWSHandler()`, `wsHandler.subscribe`, `getSubsId`, `getSubscriptionKey`, `separateBatches` and the reducer behind `warmerStore.dispatch` are total functions that never throw. In the source, a throw from any of them rejects the handler. A throw during the WS-coverage walk (lines 56-94) happens before `execute` is called. A throw from the final dispatch (line 112) happens after `execute` succeeded, and its result is lost. `Handle`'s "`execute` runs exactly once and its outcome is returned" holds only under this assumption.
- How the WS store's subscriptions change is not modelled. The WS middleware and its reducer are not part of this model. `WsStore.SetSubscriptions` stands for any such change between requests.
- Promises, async and concurrency: the handler is modelled as running without interleaving. No other dispatch can happen between its reads and its dispatches.
- The `executeFn` closure built with `withMiddleware` (lines 41-44, 106-109) is an opaque token naming the raw executor and its middleware. It is never called here. The `context` argument is not modelled.
- The dummy `result` in `warmupSubscribedPayload` (lines 46-51) is not modelled. The payload holds only the input and the closure.
- `logger.info` and `getFeedId` are logging only.
- `Date.now()` is one `now` parameter per request. If two leave-groups were dispatched in one request, the model gives both the same timestamp.
- JavaScript truthiness of `parent` and `batchablePropertyPath` is modelled as presence (`Some`). An empty-string parent, which JavaScript treats as absent, is not modelled.
- A thrown exception is the `Threw` outcome returned by the handler. The exception value is carried as a string.
- The wrapped executor's answer is a fixed function of the request (`Executor.respond`). Upstream variation over time is not modelled.
