/**
 * The warmer's redux store: the table of warming subscriptions and the three
 * actions the coordinator dispatches to it. The reducer that applies an action
 * is not part of this model; the store holds it as an arbitrary function.
 */
module CacheWarmerStore {
  import opened Wrappers
  import opened Adapter

  /** A warmer subscription key, as `getSubscriptionKey` derives it. */
  type Key = string
  /** A batchable property path (the names of the fields that hold batched items). */
  type Path = seq<string>
  /** Milliseconds since the epoch, as `Date.now()` returns. */
  type Timestamp = int

  /**
   * The parts of a warmer subscription the coordinator reads: the group it
   * belongs to, the batchable path, and (on a group row) its children's
   * last-seen times. An absent property is `None`.
   */
  datatype WarmerEntry = WarmerEntry(
    parent: Option<Key>,
    batchablePropertyPath: Option<Path>,
    childLastSeenById: Option<map<Key, Timestamp>>)

  /** `warmerStore.getState().subscriptions`. */
  type Subscriptions = map<Key, WarmerEntry>

  /** The actions the coordinator dispatches, with the payloads it builds. */
  datatype Action =
    | LeaveGroup(parent: Key, childLastSeenById: map<Key, Timestamp>, batchablePropertyPath: Path)
    | Unsubscribed(key: Key, isBatched: bool, reason: string)
    | Execute(request: AdapterRequest, executeFn: ExecuteFn, result: AdapterResponse)

  /** A reducer: the subscriptions after one action has been applied. */
  type Reducer = (Subscriptions, Action) -> Subscriptions

  /** An entry that belongs to a batch group: it has both a parent and a batchable path. */
  predicate IsGrouped(e: WarmerEntry) {
    e.parent.Some? && e.batchablePropertyPath.Some?
  }

  /** Whether the entry for `key`, if any, has a `childLastSeenById` (the `!!...?.childLastSeenById` read). */
  predicate HasChildTimestamps(subs: Subscriptions, key: Key) {
    key in subs && subs[key].childLastSeenById.Some?
  }

  /** The state reached by dispatching `actions` one after another from `subs`. */
  function ApplyAll(reduce: Reducer, subs: Subscriptions, actions: seq<Action>): Subscriptions
    decreases |actions|
  {
    if actions == [] then subs
    else reduce(ApplyAll(reduce, subs, actions[..|actions| - 1]), actions[|actions| - 1])
  }

  /** Dispatching two logs in turn is dispatching their concatenation. */
  lemma {:induction false} ApplyAllAppend(reduce: Reducer, subs: Subscriptions, xs: seq<Action>, ys: seq<Action>)
    ensures ApplyAll(reduce, subs, xs + ys) == ApplyAll(reduce, ApplyAll(reduce, subs, xs), ys)
    decreases |ys|
  {
    if ys == [] {
      assert xs + ys == xs;
    } else {
      var ys' := ys[..|ys| - 1];
      assert (xs + ys)[..|xs + ys| - 1] == xs + ys';
      assert (xs + ys)[|xs + ys| - 1] == ys[|ys| - 1];
      ApplyAllAppend(reduce, subs, xs, ys');
    }
  }

  /**
   * The one assumption made about the reducer, which is not part of this model:
   * after `Unsubscribed` for a key, the table has no entry for that key.
   */
  ghost predicate UnsubscribeRemovesKey(reduce: Reducer) {
    forall s, k, b, r :: k !in reduce(s, Unsubscribed(k, b, r))
  }

  /**
   * The store: its current subscriptions, the log of every action
   * dispatched to it, and the reducer that applies them.
   */
  class WarmerStore {
    var subscriptions: Subscriptions
    var dispatched: seq<Action>
    const reduce: Reducer

    constructor (reduce: Reducer, initial: Subscriptions)
      ensures this.reduce == reduce && subscriptions == initial && dispatched == []
    {
      this.reduce := reduce;
      subscriptions := initial;
      dispatched := [];
    }

    /** `warmerStore.dispatch(a)`: record the action and apply it. */
    method Dispatch(a: Action)
      modifies this
      ensures dispatched == old(dispatched) + [a]
      ensures subscriptions == reduce(old(subscriptions), a)
    {
      dispatched := dispatched + [a];
      subscriptions := reduce(subscriptions, a);
    }
  }
}
