/**
 * What one request to the cache-warmer middleware dispatches, stated over
 * `HandleSpec` (which `CacheWarmerMiddleware.Handle` is proved to follow).
 */
module CacheWarmerProperties {
  import opened Wrappers
  import opened Adapter
  import opened CacheWarmerStore
  import opened CacheWarmer

  /** Warming disabled: the store sees no dispatch and is left as it was. */
  lemma DisabledPassthrough(s: Setup, reduce: Reducer, env: Environment, now: Timestamp,
                            input: AdapterRequest, subs: Subscriptions, outcome: Outcome)
    requires !IsWarmerActive(env.cacheEnabled, env.warmupEnabled)
    ensures HandleSpec(s, reduce, env, now, input, subs, outcome) == Handled(subs, [])
  {
  }

  /** No WS for this endpoint, or no handler factory: straight to execute-and-warm. */
  lemma WsUnavailableGoesStraightToWarm(s: Setup, reduce: Reducer, env: Environment, now: Timestamp,
                                        input: AdapterRequest, subs: Subscriptions, outcome: Outcome)
    requires IsWarmerActive(env.cacheEnabled, env.warmupEnabled) && !WsAvailable(s, env)
    ensures var h := HandleSpec(s, reduce, env, now, input, subs, outcome);
      match outcome
      case Returned(r) => h.actions == [Execute(input, s.executeFn, r)] && h.subs == reduce(subs, h.actions[0])
      case Threw(_) => h == Handled(subs, [])
  {
  }

  /**
   * Batch bypass: when some member has an active WS subscription, nothing but
   * the teardown of the request's warmer key is dispatched; no `warmupExecute`.
   */
  lemma BatchBypass(s: Setup, reduce: Reducer, env: Environment, now: Timestamp,
                    input: AdapterRequest, subs: Subscriptions, outcome: Outcome)
    requires IsWarmerActive(env.cacheEnabled, env.warmupEnabled) && Bypassed(s, env, input)
    ensures var h := HandleSpec(s, reduce, env, now, input, subs, outcome);
      forall i :: 0 <= i < |h.actions| ==>
        !h.actions[i].Execute? && IsTakeoverAction(h.actions[i], WarmerKey(s, input), now)
  {
    var members := s.lib.separateBatches(input);
    CoverBatchFlag(s, s.ws.makeWSHandler.value, reduce, subs, input, members, now);
    CoverBatchTeardowns(s, s.ws.makeWSHandler.value, reduce, subs, input, members, now);
  }

  /**
   * Warm path: no member WS-covered and `execute` returned `r`, so the only
   * dispatch is one `warmupExecute` carrying the input, the replay closure and `r`.
   */
  lemma WarmPathDispatchesOneExecute(s: Setup, reduce: Reducer, env: Environment, now: Timestamp,
                                     input: AdapterRequest, subs: Subscriptions, r: AdapterResponse)
    requires IsWarmerActive(env.cacheEnabled, env.warmupEnabled) && !Bypassed(s, env, input)
    ensures var h := HandleSpec(s, reduce, env, now, input, subs, Returned(r));
      h.actions == [Execute(input, s.executeFn, r)] && h.subs == reduce(subs, h.actions[0])
  {
    if WsAvailable(s, env) {
      CoverBatchFlag(s, s.ws.makeWSHandler.value, reduce, subs, input, s.lib.separateBatches(input), now);
    }
  }

  /** A failed `execute` is never warmed; off the bypass path nothing at all is dispatched. */
  lemma FailedExecuteIsNotWarmed(s: Setup, reduce: Reducer, env: Environment, now: Timestamp,
                                 input: AdapterRequest, subs: Subscriptions, error: string)
    ensures var h := HandleSpec(s, reduce, env, now, input, subs, Threw(error));
      (forall i :: 0 <= i < |h.actions| ==> !h.actions[i].Execute?) &&
      (!Bypassed(s, env, input) ==> h == Handled(subs, []))
  {
    if WsAvailable(s, env) {
      CoverBatchFlag(s, s.ws.makeWSHandler.value, reduce, subs, input, s.lib.separateBatches(input), now);
      CoverBatchTeardowns(s, s.ws.makeWSHandler.value, reduce, subs, input, s.lib.separateBatches(input), now);
    }
  }

  /**
   * Every leave-group and unsubscribe a request dispatches names the warmer key
   * of the whole input, whichever member triggered it, and every leave-group is
   * followed at once by an unsubscribe.
   */
  lemma TeardownsUseRequestKey(s: Setup, reduce: Reducer, env: Environment, now: Timestamp,
                               input: AdapterRequest, subs: Subscriptions, outcome: Outcome)
    ensures var h := HandleSpec(s, reduce, env, now, input, subs, outcome);
      (forall i :: 0 <= i < |h.actions| && !h.actions[i].Execute? ==>
        IsTakeoverAction(h.actions[i], WarmerKey(s, input), now)) &&
      (forall i :: 0 <= i < |h.actions| && h.actions[i].LeaveGroup? ==>
        i + 1 < |h.actions| && h.actions[i + 1].Unsubscribed?)
  {
    if WsAvailable(s, env) {
      var members := s.lib.separateBatches(input);
      CoverBatchFlag(s, s.ws.makeWSHandler.value, reduce, subs, input, members, now);
      CoverBatchTeardowns(s, s.ws.makeWSHandler.value, reduce, subs, input, members, now);
    }
  }

  /** The handler changes the store only by dispatching: the new state is the log replayed. */
  lemma StoreFollowsDispatches(s: Setup, reduce: Reducer, env: Environment, now: Timestamp,
                               input: AdapterRequest, subs: Subscriptions, outcome: Outcome)
    ensures var h := HandleSpec(s, reduce, env, now, input, subs, outcome);
      h.subs == ApplyAll(reduce, subs, h.actions)
  {
    var h := HandleSpec(s, reduce, env, now, input, subs, outcome);
    if !IsWarmerActive(env.cacheEnabled, env.warmupEnabled) {
      assert h == Handled(subs, []);
    } else if Bypassed(s, env, input) {
      var members := s.lib.separateBatches(input);
      CoverBatchFlag(s, s.ws.makeWSHandler.value, reduce, subs, input, members, now);
      CoverBatchReplays(s, s.ws.makeWSHandler.value, reduce, subs, input, members, now);
      assert h == Handled(CoverBatch(s, s.ws.makeWSHandler.value, reduce, subs, input, members, now).subs,
                          CoverBatch(s, s.ws.makeWSHandler.value, reduce, subs, input, members, now).actions);
    } else {
      if WsAvailable(s, env) {
        CoverBatchFlag(s, s.ws.makeWSHandler.value, reduce, subs, input, s.lib.separateBatches(input), now);
      }
      match outcome
      case Threw(_) =>
        assert h == Handled(subs, []);
      case Returned(r) =>
        var a := Execute(input, s.executeFn, r);
        assert h == Handled(reduce(subs, a), [a]);
        assert [a][..0] == [];
    }
  }

  /** With no warmer entry for the request's key, the coverage walk dispatches nothing. */
  lemma {:induction false} NoEntryNoDispatch(s: Setup, h: WSHandler, reduce: Reducer, subs: Subscriptions,
                                             input: AdapterRequest, members: seq<AdapterRequest>, now: Timestamp)
    requires WarmerKey(s, input) !in subs
    ensures var c := CoverBatch(s, h, reduce, subs, input, members, now);
      c.actions == [] && c.subs == subs
    decreases |members|
  {
    if members != [] {
      NoEntryNoDispatch(s, h, reduce, subs, input, members[..|members| - 1], now);
    }
  }

  /**
   * With a reducer that drops a key on `Unsubscribed`, the walk tears the
   * entry down at most once: the first covered member tears down the entry it
   * finds, and later covered members find none.
   */
  lemma {:induction false} TeardownAtMostOnce(s: Setup, h: WSHandler, reduce: Reducer, subs: Subscriptions,
                                              input: AdapterRequest, members: seq<AdapterRequest>, now: Timestamp)
    requires UnsubscribeRemovesKey(reduce)
    ensures var c := CoverBatch(s, h, reduce, subs, input, members, now);
      var key := WarmerKey(s, input);
      if c.covered && key in subs then c == Teardown(reduce, subs, key, now)
      else c == Coverage(subs, [], c.covered)
    decreases |members|
  {
    if members != [] {
      var key := WarmerKey(s, input);
      var init := members[..|members| - 1];
      TeardownAtMostOnce(s, h, reduce, subs, input, init, now);
      var prev := CoverBatch(s, h, reduce, subs, input, init, now);
      assert members == init + [members[|members| - 1]];
      CoverBatchSnoc(s, h, reduce, subs, input, init, members[|members| - 1], now);
      CoverBatchFlag(s, h, reduce, subs, input, init, now);
      CoverBatchFlag(s, h, reduce, subs, input, members, now);
      if prev.covered && key in subs {
        var t := Teardown(reduce, subs, key, now);
        assert key !in t.subs;
      }
    }
  }

  /**
   * Live coverage pre-empts warming: with a reducer that drops a key on
   * `Unsubscribed`, a bypassed request leaves no warmer entry for its key, and
   * it dispatched the teardown of the entry it found (if any) exactly once.
   */
  lemma WsCoverageClearsWarmerEntry(s: Setup, reduce: Reducer, env: Environment, now: Timestamp,
                                    input: AdapterRequest, subs: Subscriptions, outcome: Outcome)
    requires UnsubscribeRemovesKey(reduce)
    requires IsWarmerActive(env.cacheEnabled, env.warmupEnabled) && Bypassed(s, env, input)
    ensures var h := HandleSpec(s, reduce, env, now, input, subs, outcome);
      var key := WarmerKey(s, input);
      key !in h.subs &&
      h.actions == (if key in subs then Teardown(reduce, subs, key, now).actions else [])
  {
    CoverBatchFlag(s, s.ws.makeWSHandler.value, reduce, subs, input, s.lib.separateBatches(input), now);
    TeardownAtMostOnce(s, s.ws.makeWSHandler.value, reduce, subs, input, s.lib.separateBatches(input), now);
    var key := WarmerKey(s, input);
    if key in subs {
      var t := Teardown(reduce, subs, key, now);
      assert key !in reduce(ApplyAll(reduce, subs, t.actions[..|t.actions| - 1]), t.actions[|t.actions| - 1]);
    }
  }

  /**
   * WS takes over on a later request: whatever the first request did, once the
   * WS store shows an active subscription for a member, the next request on
   * the same middleware finds it and leaves no warmer entry for its key.
   */
  method WsTakesOverOnLaterRequest(m: CacheWarmerMiddleware, execute: Executor, env: Environment,
                                   now1: Timestamp, now2: Timestamp, input: AdapterRequest,
                                   all: map<WsKey, WsSubscription>)
    returns (first: Outcome, second: Outcome)
    requires UnsubscribeRemovesKey(m.warmerStore.reduce)
    requires IsWarmerActive(env.cacheEnabled, env.warmupEnabled)
    requires Bypassed(Setup(m.lib, WSInput(all, m.makeWSHandler), m.ExecuteFnToken()), env, input)
    modifies m.warmerStore, m.wsStore, execute
    ensures m.wsStore.subscriptions == all
    ensures WarmerKey(m.Wiring(), input) !in m.warmerStore.subscriptions
    ensures execute.calls == old(execute.calls) + [input, input]
  {
    first := m.Handle(execute, env, now1, input);
    m.wsStore.SetSubscriptions(all);
    ghost var mid := m.warmerStore.subscriptions;
    second := m.Handle(execute, env, now2, input);
    WsCoverageClearsWarmerEntry(m.Wiring(), m.warmerStore.reduce, env, now2, input, mid, second);
  }
}
