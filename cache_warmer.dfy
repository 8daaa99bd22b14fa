/**
 * The cache-warmer coordinator middleware `withCacheWarmer`: per request it
 * either stands aside (warming disabled, or a live WebSocket subscription
 * already covers a batch member) or executes once and registers/renews a
 * warming subscription with `warmupExecute`.
 *
 * The pure functions below specify one request; the class at the end is the
 * handler itself, proved to dispatch exactly what they say.
 */
module CacheWarmer {
  import opened Wrappers
  import opened Adapter
  import opened CacheWarmerStore

  /** Defined by the cache middleware, which is not part of this model; it defaults to on. */
  const DEFAULT_CACHE_ENABLED: bool := true
  const DEFAULT_WARMUP_ENABLED: bool := true
  /** The reason carried by the `warmupUnsubscribed` a live WS subscription triggers. */
  const WS_TAKEOVER_REASON: string := "Turning off Cache Warmer to use WS."

  /**
   * The configuration read for one request. `cacheEnabled` and `warmupEnabled`
   * are CACHE_ENABLED and WARMUP_ENABLED after parsing (`None` when unset);
   * `wsEnabled` is `getWSConfig(endpoint).enabled`.
   */
  datatype Environment = Environment(cacheEnabled: Option<bool>, warmupEnabled: Option<bool>, wsEnabled: bool)

  /** Whether the warmer takes part in this request: both flags on, each on by default. */
  function IsWarmerActive(cacheEnabled: Option<bool>, warmupEnabled: Option<bool>): (active: bool)
    ensures active <==> cacheEnabled != Some(false) && warmupEnabled != Some(false)
    ensures cacheEnabled == None && warmupEnabled == None ==> active
  {
    cacheEnabled.GetOr(DEFAULT_CACHE_ENABLED) && warmupEnabled.GetOr(DEFAULT_WARMUP_ENABLED)
  }

  /** A WS subscription key (`getSubsId` of a subscribe message). */
  type WsKey = string
  /** The subscribe message `wsHandler.subscribe` builds for a request. */
  type SubscribeMessage = string

  /** An entry of the WS store's `subscriptions.all`; only `active` is read. */
  datatype WsSubscription = WsSubscription(active: bool)

  /** The handler `ws.makeWSHandler()` yields; only `subscribe` is used. */
  datatype WSHandler = WSHandler(subscribe: AdapterRequest -> SubscribeMessage)

  /**
   * The WS store `ws.store`: its `subscriptions.all` changes as the WS
   * middleware subscribes and unsubscribes, and the cache warmer reads it
   * afresh (`ws.store.getState()`) for every batch member.
   */
  class WsStore {
    var subscriptions: map<WsKey, WsSubscription>

    constructor (subscriptions: map<WsKey, WsSubscription>)
      ensures this.subscriptions == subscriptions
    {
      this.subscriptions := subscriptions;
    }

    /** A state change made by the WS middleware, whose reducer is not part of this model. */
    method SetSubscriptions(all: map<WsKey, WsSubscription>)
      modifies this
      ensures subscriptions == all
    {
      subscriptions := all;
    }
  }

  /** What the handler sees of the `ws` argument during one request: the WS subscriptions and the optional handler factory. */
  datatype WSInput = WSInput(subscriptions: map<WsKey, WsSubscription>, makeWSHandler: Option<WSHandler>)

  /** Helpers imported by the middleware whose sources are not part of this model. */
  datatype Collaborators = Collaborators(
    separateBatches: AdapterRequest -> seq<AdapterRequest>,
    getSubsId: SubscribeMessage -> WsKey,
    getSubscriptionKey: WarmupSubscribedPayload -> Key)

  /** `warmupSubscribedPayload`: the whole input plus the replay closure. */
  datatype WarmupSubscribedPayload = WarmupSubscribedPayload(request: AdapterRequest, executeFn: ExecuteFn)

  /** Everything the closure `withCacheWarmer(warmerStore, middleware, ws)(rawExecute)` fixes, except the store. */
  datatype Setup = Setup(lib: Collaborators, ws: WSInput, executeFn: ExecuteFn)

  /** `ws.store.getState().subscriptions.all[k]?.active`, read as a truth value. */
  predicate WsActive(all: map<WsKey, WsSubscription>, k: WsKey) {
    k in all && all[k].active
  }

  /** The warmer key every batch member looks up: derived from the whole input, not from the member. */
  function WarmerKey(s: Setup, input: AdapterRequest): Key {
    s.lib.getSubscriptionKey(WarmupSubscribedPayload(input, s.executeFn))
  }

  /** Whether a batch member has an active WS subscription. */
  predicate MemberCovered(s: Setup, h: WSHandler, member: AdapterRequest) {
    WsActive(s.ws.subscriptions, s.lib.getSubsId(h.subscribe(member)))
  }

  /** The result of walking some batch members: the store state, what was dispatched, and the bypass flag. */
  datatype Coverage = Coverage(subs: Subscriptions, actions: seq<Action>, covered: bool)

  /** An action that tears down warming for `key` because WS has taken it over. */
  predicate IsTakeoverAction(a: Action, key: Key, now: Timestamp) {
    match a
    case LeaveGroup(_, children, _) => children == map[key := now]
    case Unsubscribed(k, _, reason) => k == key && reason == WS_TAKEOVER_REASON
    case Execute(_, _, _) => false
  }

  /**
   * Every action in `actions` tears down warming for `key`, and each
   * leave-group is followed at once by an unsubscribe.
   */
  predicate TeardownsOnly(actions: seq<Action>, key: Key, now: Timestamp) {
    && (forall i :: 0 <= i < |actions| ==> IsTakeoverAction(actions[i], key, now))
    && (forall i :: 0 <= i < |actions| && actions[i].LeaveGroup? ==> i + 1 < |actions| && actions[i + 1].Unsubscribed?)
  }

  /**
   * Tearing down the warmer entry for `key` that a WS-covered member found:
   * leave the group when the entry is grouped, then unsubscribe.
   */
  function Teardown(reduce: Reducer, subs: Subscriptions, key: Key, now: Timestamp): (t: Coverage)
    requires key in subs
    ensures t.covered
    ensures |t.actions| == (if IsGrouped(subs[key]) then 2 else 1)
    // a leave-group is dispatched exactly when the entry is grouped, first, with the entry's group
    ensures (exists i :: 0 <= i < |t.actions| && t.actions[i].LeaveGroup?) <==> IsGrouped(subs[key])
    ensures IsGrouped(subs[key]) ==>
      t.actions[0] == LeaveGroup(subs[key].parent.value, map[key := now], subs[key].batchablePropertyPath.value)
    // exactly one unsubscribe, last, whose isBatched is read from the state after the earlier dispatch
    ensures forall i :: 0 <= i < |t.actions| - 1 ==> !t.actions[i].Unsubscribed?
    ensures t.actions[|t.actions| - 1] ==
      Unsubscribed(key, HasChildTimestamps(ApplyAll(reduce, subs, t.actions[..|t.actions| - 1]), key), WS_TAKEOVER_REASON)
    ensures forall i :: 0 <= i < |t.actions| ==> IsTakeoverAction(t.actions[i], key, now)
    ensures t.subs == ApplyAll(reduce, subs, t.actions)
  {
    var e := subs[key];
    if IsGrouped(e) then
      var leave := LeaveGroup(e.parent.value, map[key := now], e.batchablePropertyPath.value);
      var afterLeave := reduce(subs, leave);
      var unsubscribe := Unsubscribed(key, HasChildTimestamps(afterLeave, key), WS_TAKEOVER_REASON);
      assert [leave, unsubscribe][..1] == [leave] && [leave][..0] == [];
      assert ApplyAll(reduce, subs, [leave]) == afterLeave;
      Coverage(reduce(afterLeave, unsubscribe), [leave, unsubscribe], true)
    else
      var unsubscribe := Unsubscribed(key, HasChildTimestamps(subs, key), WS_TAKEOVER_REASON);
      assert [unsubscribe][..0] == [];
      Coverage(reduce(subs, unsubscribe), [unsubscribe], true)
  }

  /**
   * One iteration of the WS-coverage loop, for `member`, from store state
   * `subs`: what it dispatches, the state after, and whether it sets the flag.
   */
  function CoverMember(s: Setup, h: WSHandler, reduce: Reducer, subs: Subscriptions,
                       input: AdapterRequest, member: AdapterRequest, now: Timestamp): (c: Coverage)
    ensures c.covered == MemberCovered(s, h, member)
    // a covered member with no warmer entry dispatches nothing but still sets the flag
    ensures c.actions == [] <==> !MemberCovered(s, h, member) || WarmerKey(s, input) !in subs
    ensures c.actions == [] ==> c.subs == subs
    ensures c.subs == ApplyAll(reduce, subs, c.actions)
    ensures forall i :: 0 <= i < |c.actions| ==> IsTakeoverAction(c.actions[i], WarmerKey(s, input), now)
    ensures forall i :: 0 <= i < |c.actions| && c.actions[i].LeaveGroup? ==>
      i + 1 < |c.actions| && c.actions[i + 1].Unsubscribed?
  {
    var key := WarmerKey(s, input);
    if !MemberCovered(s, h, member) then Coverage(subs, [], false)
    else if key !in subs then Coverage(subs, [], true)
    else Teardown(reduce, subs, key, now)
  }

  /**
   * The WS-coverage loop over `members` (a prefix of `separateBatches(input)`),
   * one member after another, starting from the store state `subs`.
   */
  function CoverBatch(s: Setup, h: WSHandler, reduce: Reducer, subs: Subscriptions,
                      input: AdapterRequest, members: seq<AdapterRequest>, now: Timestamp): Coverage
    decreases |members|
  {
    if members == [] then Coverage(subs, [], false)
    else
      var prev := CoverBatch(s, h, reduce, subs, input, members[..|members| - 1], now);
      var step := CoverMember(s, h, reduce, prev.subs, input, members[|members| - 1], now);
      Coverage(step.subs, prev.actions + step.actions, prev.covered || step.covered)
  }

  /** The walk sets the bypass flag exactly when some member is WS-covered; otherwise it dispatches nothing. */
  lemma {:induction false} CoverBatchFlag(s: Setup, h: WSHandler, reduce: Reducer, subs: Subscriptions,
                                          input: AdapterRequest, members: seq<AdapterRequest>, now: Timestamp)
    ensures var c := CoverBatch(s, h, reduce, subs, input, members, now);
      && (c.covered <==> exists j :: 0 <= j < |members| && MemberCovered(s, h, members[j]))
      && (!c.covered ==> c == Coverage(subs, [], false))
    decreases |members|
  {
    if members != [] {
      var init := members[..|members| - 1];
      CoverBatchFlag(s, h, reduce, subs, input, init, now);
      assert forall j :: 0 <= j < |members| - 1 ==> init[j] == members[j];
    }
  }

  /** The walk changes the store only by what it dispatches. */
  lemma {:induction false} CoverBatchReplays(s: Setup, h: WSHandler, reduce: Reducer, subs: Subscriptions,
                                             input: AdapterRequest, members: seq<AdapterRequest>, now: Timestamp)
    ensures var c := CoverBatch(s, h, reduce, subs, input, members, now);
      c.subs == ApplyAll(reduce, subs, c.actions)
    decreases |members|
  {
    if members != [] {
      var init := members[..|members| - 1];
      CoverBatchReplays(s, h, reduce, subs, input, init, now);
      var prev := CoverBatch(s, h, reduce, subs, input, init, now);
      var step := CoverMember(s, h, reduce, prev.subs, input, members[|members| - 1], now);
      ApplyAllAppend(reduce, subs, prev.actions, step.actions);
    }
  }

  /**
   * Every dispatch of the walk tears down the request's warmer key, whichever
   * member caused it, and a leave-group is always followed at once by an unsubscribe.
   */
  lemma {:induction false} CoverBatchTeardowns(s: Setup, h: WSHandler, reduce: Reducer, subs: Subscriptions,
                                               input: AdapterRequest, members: seq<AdapterRequest>, now: Timestamp)
    ensures TeardownsOnly(CoverBatch(s, h, reduce, subs, input, members, now).actions, WarmerKey(s, input), now)
    decreases |members|
  {
    if members != [] {
      var init := members[..|members| - 1];
      CoverBatchTeardowns(s, h, reduce, subs, input, init, now);
      var prev := CoverBatch(s, h, reduce, subs, input, init, now);
      var step := CoverMember(s, h, reduce, prev.subs, input, members[|members| - 1], now);
      var c := CoverBatch(s, h, reduce, subs, input, members, now);
      var key := WarmerKey(s, input);
      assert c.actions == prev.actions + step.actions;
      forall i | 0 <= i < |c.actions|
        ensures IsTakeoverAction(c.actions[i], key, now)
        ensures c.actions[i].LeaveGroup? ==> i + 1 < |c.actions| && c.actions[i + 1].Unsubscribed?
      {
        if i < |prev.actions| {
          assert c.actions[i] == prev.actions[i];
          if c.actions[i].LeaveGroup? {
            assert c.actions[i + 1] == prev.actions[i + 1];
          }
        } else {
          var k := i - |prev.actions|;
          assert c.actions[i] == step.actions[k];
          if c.actions[i].LeaveGroup? {
            assert c.actions[i + 1] == step.actions[k + 1];
          }
        }
      }
    }
  }

  /** Walking one more member extends the walk so far by that member's step. */
  lemma CoverBatchSnoc(s: Setup, h: WSHandler, reduce: Reducer, subs: Subscriptions,
                       input: AdapterRequest, members: seq<AdapterRequest>, member: AdapterRequest, now: Timestamp)
    ensures var prev := CoverBatch(s, h, reduce, subs, input, members, now);
      var step := CoverMember(s, h, reduce, prev.subs, input, member, now);
      CoverBatch(s, h, reduce, subs, input, members + [member], now) ==
        Coverage(step.subs, prev.actions + step.actions, prev.covered || step.covered)
  {
  }

  /** The same, for the prefixes the handler's loop walks. */
  lemma CoverBatchPrefixStep(s: Setup, h: WSHandler, reduce: Reducer, subs: Subscriptions,
                             input: AdapterRequest, members: seq<AdapterRequest>, i: nat, now: Timestamp)
    requires i < |members|
    ensures var prev := CoverBatch(s, h, reduce, subs, input, members[..i], now);
      var step := CoverMember(s, h, reduce, prev.subs, input, members[i], now);
      CoverBatch(s, h, reduce, subs, input, members[..i + 1], now) ==
        Coverage(step.subs, prev.actions + step.actions, prev.covered || step.covered)
  {
    assert members[..i + 1] == members[..i] + [members[i]];
    CoverBatchSnoc(s, h, reduce, subs, input, members[..i], members[i], now);
  }

  /** What one request leaves in the store, and what it dispatched, in order. */
  datatype Handled = Handled(subs: Subscriptions, actions: seq<Action>)

  /** Whether the WS-coverage loop runs at all: WS enabled for the endpoint and a handler factory given. */
  predicate WsAvailable(s: Setup, env: Environment) {
    env.wsEnabled && s.ws.makeWSHandler.Some?
  }

  /** Whether the whole batch bypasses the warmer: the loop runs and some member is WS-covered. */
  predicate Bypassed(s: Setup, env: Environment, input: AdapterRequest) {
    WsAvailable(s, env) &&
    exists j :: 0 <= j < |s.lib.separateBatches(input)| &&
      MemberCovered(s, s.ws.makeWSHandler.value, s.lib.separateBatches(input)[j])
  }

  /**
   * One request to the middleware, from store state `subs`, when the wrapped
   * `execute` answers `outcome`.
   */
  function HandleSpec(s: Setup, reduce: Reducer, env: Environment, now: Timestamp,
                      input: AdapterRequest, subs: Subscriptions, outcome: Outcome): Handled
  {
    if !IsWarmerActive(env.cacheEnabled, env.warmupEnabled) then Handled(subs, [])
    else
      var loop :=
        if WsAvailable(s, env)
        then CoverBatch(s, s.ws.makeWSHandler.value, reduce, subs, input, s.lib.separateBatches(input), now)
        else Coverage(subs, [], false);
      if loop.covered then Handled(loop.subs, loop.actions)
      else match outcome
        case Threw(_) => Handled(loop.subs, loop.actions)
        case Returned(result) =>
          var a := Execute(input, s.executeFn, result);
          Handled(reduce(loop.subs, a), loop.actions + [a])
  }

  /**
   * The middleware `withCacheWarmer(warmerStore, middleware, ws)(rawExecute)`
   * with the helpers it imports.
   */
  class CacheWarmerMiddleware {
    const warmerStore: WarmerStore
    const middleware: seq<string>
    const wsStore: WsStore
    const makeWSHandler: Option<WSHandler>
    const rawExecute: string
    const lib: Collaborators

    constructor (warmerStore: WarmerStore, middleware: seq<string>, wsStore: WsStore, makeWSHandler: Option<WSHandler>,
                 rawExecute: string, lib: Collaborators)
      ensures this.warmerStore == warmerStore && this.middleware == middleware
      ensures this.wsStore == wsStore && this.makeWSHandler == makeWSHandler
      ensures this.rawExecute == rawExecute && this.lib == lib
    {
      this.warmerStore := warmerStore;
      this.middleware := middleware;
      this.wsStore := wsStore;
      this.makeWSHandler := makeWSHandler;
      this.rawExecute := rawExecute;
      this.lib := lib;
    }

    /** The replay closure both payloads carry. */
    function ExecuteFnToken(): ExecuteFn {
      WithMiddleware(rawExecute, middleware)
    }

    /** The setup as the handler sees it now, with the WS store's current subscriptions. */
    function Wiring(): Setup
      reads wsStore
    {
      Setup(lib, WSInput(wsStore.subscriptions, makeWSHandler), ExecuteFnToken())
    }

    /**
     * The `separateBatches` callback for one member `singleInput`: when it has an
     * active WS subscription and the warmer has an entry for the request's key,
     * leave the group (for a grouped entry) and unsubscribe. Reports whether the
     * member is WS-covered.
     */
    method CheckMember(wsHandler: WSHandler, warmupSubscribedPayload: WarmupSubscribedPayload,
                       singleInput: AdapterRequest, now: Timestamp) returns (isActiveWSSubscription: bool)
      requires warmupSubscribedPayload.executeFn == ExecuteFnToken()
      modifies warmerStore
      ensures var c := CoverMember(Wiring(), wsHandler, warmerStore.reduce, old(warmerStore.subscriptions),
                                   warmupSubscribedPayload.request, singleInput, now);
        warmerStore.subscriptions == c.subs && warmerStore.dispatched == old(warmerStore.dispatched) + c.actions &&
        isActiveWSSubscription == c.covered
    {
      var wsSubscriptionKey := lib.getSubsId(wsHandler.subscribe(singleInput));
      var cacheWarmerKey := lib.getSubscriptionKey(warmupSubscribedPayload);
      isActiveWSSubscription := WsActive(wsStore.subscriptions, wsSubscriptionKey);
      var state := warmerStore.subscriptions;
      if isActiveWSSubscription && cacheWarmerKey in state {
        var entry := state[cacheWarmerKey];
        if entry.parent.Some? && entry.batchablePropertyPath.Some? {
          warmerStore.Dispatch(LeaveGroup(entry.parent.value, map[cacheWarmerKey := now], entry.batchablePropertyPath.value));
        }
        var isBatched := HasChildTimestamps(warmerStore.subscriptions, cacheWarmerKey);
        warmerStore.Dispatch(Unsubscribed(cacheWarmerKey, isBatched, WS_TAKEOVER_REASON));
      }
    }

    /**
     * The `separateBatches` walk: for each member with an active WS
     * subscription, tear down the warmer entry (if any) for the request's key;
     * report whether any member was covered.
     */
    method CheckBatchCoverage(wsHandler: WSHandler, input: AdapterRequest, now: Timestamp)
      returns (batchMemberHasActiveWSSubscription: bool)
      modifies warmerStore
      ensures var c := CoverBatch(Wiring(), wsHandler, warmerStore.reduce, old(warmerStore.subscriptions),
                                  input, lib.separateBatches(input), now);
        warmerStore.subscriptions == c.subs && warmerStore.dispatched == old(warmerStore.dispatched) + c.actions &&
        batchMemberHasActiveWSSubscription == c.covered
    {
      var warmupSubscribedPayload := WarmupSubscribedPayload(input, ExecuteFnToken());
      batchMemberHasActiveWSSubscription := false;
      var members := lib.separateBatches(input);
      ghost var subs0, log0 := warmerStore.subscriptions, warmerStore.dispatched;
      ghost var cov := Coverage(subs0, [], false);
      ghost var wiring, reduce := Wiring(), warmerStore.reduce;
      assert members[..0] == [];
      var i := 0;
      while i < |members|
        invariant 0 <= i <= |members|
        invariant cov == CoverBatch(wiring, wsHandler, reduce, subs0, input, members[..i], now)
        invariant warmerStore.subscriptions == cov.subs && warmerStore.dispatched == log0 + cov.actions
        invariant batchMemberHasActiveWSSubscription == cov.covered
      {
        ghost var step := CoverMember(wiring, wsHandler, reduce, cov.subs, input, members[i], now);
        CoverBatchPrefixStep(wiring, wsHandler, reduce, subs0, input, members, i, now);
        var covered := CheckMember(wsHandler, warmupSubscribedPayload, members[i], now);
        batchMemberHasActiveWSSubscription := batchMemberHasActiveWSSubscription || covered;
        cov := Coverage(step.subs, cov.actions + step.actions, cov.covered || step.covered);
        i := i + 1;
      }
      assert members[..i] == members;
    }

    /**
     * Handle one request with the wrapped `execute`: `execute` runs exactly once
     * on the whole input and its outcome is returned unchanged; the store
     * receives exactly the dispatches `HandleSpec` lists.
     */
    method Handle(execute: Executor, env: Environment, now: Timestamp, input: AdapterRequest) returns (out: Outcome)
      modifies warmerStore, execute
      ensures execute.calls == old(execute.calls) + [input]
      ensures out == execute.respond(input)
      ensures var h := HandleSpec(Wiring(), warmerStore.reduce, env, now, input, old(warmerStore.subscriptions), out);
        warmerStore.subscriptions == h.subs && warmerStore.dispatched == old(warmerStore.dispatched) + h.actions
    {
      var isWarmerActive := IsWarmerActive(env.cacheEnabled, env.warmupEnabled);
      if !isWarmerActive {
        out := execute.Execute(input);
        return;
      }

      if env.wsEnabled && makeWSHandler.Some? {
        var batchMemberHasActiveWSSubscription := CheckBatchCoverage(makeWSHandler.value, input, now);
        if batchMemberHasActiveWSSubscription {
          out := execute.Execute(input);
          return;
        }
      }

      var result := execute.Execute(input);
      if result.Returned? {
        warmerStore.Dispatch(Execute(input, ExecuteFnToken(), result.response));
      }
      out := result;
    }
  }
}
