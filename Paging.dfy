/**
 * The generic cursor-based loader `Paginator` (paging/Paginator.kt) and the
 * scroll trigger of `LaunchPaginatorListener`.
 *
 * The Kotlin class is built from a refresh key and five closures: three
 * hooks the loader calls for their effect (`onLoadUpdated`, `onError`,
 * `onSuccess`) and two it calls for a value (`getAppendKey`, `onRequest`).
 * Here the value-producing closures and whatever `onSuccess` throws are
 * parameters of each operation, and each operation returns the hook calls it
 * made, in order, so that a consumer can apply them (see module Profile).
 */
module Paging {
  import opened Wrappers

  /** `LoadState`; `Refresh` and `Append` mean that operation is in flight. */
  datatype LoadState = Refresh | Append | Error | NotLoading

  /** A `Throwable`: an `Exception`, which the loader's `catch (e: Exception)`
      catches, or a JVM `Error`, which that clause lets through. */
  datatype Fault = Exception(message: string) | JvmError(message: string)

  /** What a value-producing closure did: returned a value or threw. */
  datatype Attempt<T> = Returned(value: T) | Threw(fault: Fault)

  /** What `onRequest(key)` did: returned a successful `Result` holding a
      batch, returned a failed `Result`, or threw. */
  datatype Response<Item> =
    | Fetched(items: seq<Item>)
    | Failed(fault: Fault)
    | Raised(fault: Fault)

  /** One call the loader makes into its consumer. */
  datatype HookCall<Key, Item> =
    | OnLoadUpdated(state: LoadState)
    | OnRequest(key: Key)
    | OnSuccess(state: LoadState, items: seq<Item>)
    | OnError(fault: Fault)

  /** The state one operation leaves behind, the hook calls it made, and the
      throwable it passed on to its caller, if any. */
  datatype Outcome<Key, Item> =
    Outcome(loadState: LoadState, endReached: bool, calls: seq<HookCall<Key, Item>>, escaped: Option<Fault>)

  /** True when `onRequest` answered `key` with a batch. */
  predicate FetchesBatch<Key, Item>(key: Attempt<Key>, onRequest: Key -> Response<Item>)
  {
    key.Returned? && onRequest(key.value).Fetched?
  }

  /** The first thing that went wrong in an operation, if anything did:
      resolving the key threw, the request failed or threw, or `onSuccess`
      threw after a batch arrived. */
  function Failure<Key, Item>(key: Attempt<Key>, onRequest: Key -> Response<Item>,
                              successThrows: Option<Fault>): Option<Fault>
  {
    if key.Threw? then Some(key.fault)
    else match onRequest(key.value)
      case Failed(f) => Some(f)
      case Raised(f) => Some(f)
      case Fetched(_) => successThrows
  }

  /** The failure was thrown rather than returned in a failed `Result`, and
      it is not an `Exception`, so the catch clause does not stop it. */
  predicate Escapes<Key, Item>(key: Attempt<Key>, onRequest: Key -> Response<Item>,
                               successThrows: Option<Fault>)
  {
    var f := Failure(key, onRequest, successThrows);
    f.Some? && f.value.JvmError? && !(key.Returned? && onRequest(key.value).Failed?)
  }

  /**
   * What one unguarded `append()` or `refresh()` does (Paginator.kt:47-66 and
   * 71-89), given the key it requests with, the answer of `onRequest`, and
   * whether `onSuccess` throws. Its contract is the loader's promise to its
   * consumer.
   */
  function Transition<Key, Item>(op: LoadState, key: Attempt<Key>, onRequest: Key -> Response<Item>,
                                 successThrows: Option<Fault>, endReached: bool): (r: Outcome<Key, Item>)
    requires op == Append || op == Refresh
    // a JVM Error thrown inside the try block leaves the operation, and the state stays active
    ensures r.escaped == (if Escapes(key, onRequest, successThrows) then Failure(key, onRequest, successThrows) else None)
    ensures r.escaped.Some? ==> r.loadState == op
    ensures r.loadState == NotLoading <==> Failure(key, onRequest, successThrows).None?
    ensures r.loadState == NotLoading <==> FetchesBatch(key, onRequest) && successThrows.None?
    ensures r.loadState == Error <==> Failure(key, onRequest, successThrows).Some? && !Escapes(key, onRequest, successThrows)
    // endReached becomes true on an empty batch and is never cleared
    ensures r.endReached <==> endReached || (FetchesBatch(key, onRequest) && onRequest(key.value).items == [])
  {
    match key
    case Threw(f) =>
      if f.Exception? then Outcome(Error, endReached, [OnLoadUpdated(op), OnError(f), OnLoadUpdated(Error)], None)
      else Outcome(op, endReached, [OnLoadUpdated(op)], Some(f))
    case Returned(k) =>
      match onRequest(k)
      case Failed(f) =>
        Outcome(Error, endReached, [OnLoadUpdated(op), OnRequest(k), OnError(f), OnLoadUpdated(Error)], None)
      case Raised(f) =>
        if f.Exception? then
          Outcome(Error, endReached, [OnLoadUpdated(op), OnRequest(k), OnError(f), OnLoadUpdated(Error)], None)
        else Outcome(op, endReached, [OnLoadUpdated(op), OnRequest(k)], Some(f))
      case Fetched(items) =>
        var end := endReached || items == [];
        match successThrows
        case None =>
          Outcome(NotLoading, end, [OnLoadUpdated(op), OnRequest(k), OnSuccess(op, items), OnLoadUpdated(NotLoading)], None)
        case Some(f) =>
          if f.Exception? then
            Outcome(Error, end, [OnLoadUpdated(op), OnRequest(k), OnSuccess(op, items), OnError(f), OnLoadUpdated(Error)], None)
          else Outcome(op, end, [OnLoadUpdated(op), OnRequest(k), OnSuccess(op, items)], Some(f))
  }

  /** The hook calls of one unguarded operation, call by call. */
  lemma TransitionCalls<Key, Item>(op: LoadState, key: Attempt<Key>, onRequest: Key -> Response<Item>,
                                   successThrows: Option<Fault>, endReached: bool, r: Outcome<Key, Item>)
    requires op == Append || op == Refresh
    requires r == Transition(op, key, onRequest, successThrows, endReached)
    // onLoadUpdated is called first with the active state and, unless a throwable escaped, last with the final one
    ensures |r.calls| >= 1 && r.calls[0] == OnLoadUpdated(op)
    ensures r.escaped.None? ==> |r.calls| >= 3 && r.calls[|r.calls| - 1] == OnLoadUpdated(r.loadState)
    ensures forall i :: 0 < i < |r.calls| && r.calls[i].OnLoadUpdated? ==> r.escaped.None? && i == |r.calls| - 1
    // a caught failure reaches onError exactly once, with that failure, just before the final Error notification
    ensures r.loadState == Error ==>
              Failure(key, onRequest, successThrows).Some? &&
              r.calls[|r.calls| - 2] == OnError(Failure(key, onRequest, successThrows).value)
    ensures forall i :: 0 <= i < |r.calls| && r.calls[i].OnError? ==> r.loadState == Error && i == |r.calls| - 2
    // the request goes out once, with the given key, unless resolving the key threw
    ensures key.Returned? ==> |r.calls| >= 2 && r.calls[1] == OnRequest(key.value)
    ensures forall i :: 0 <= i < |r.calls| && r.calls[i].OnRequest? ==> i == 1 && key.Returned?
    // onSuccess is called once on a fetched batch, with the operation's own tag and the batch unchanged
    ensures FetchesBatch(key, onRequest) ==> |r.calls| >= 3 && r.calls[2] == OnSuccess(op, onRequest(key.value).items)
    ensures forall i :: 0 <= i < |r.calls| && r.calls[i].OnSuccess? ==> i == 2 && FetchesBatch(key, onRequest)
  {
  }

  /** `Paginator<Key, Item>`: the loader's own mutable state. */
  class Paginator<Key, Item> {
    const refreshKey: Key
    var loadState: LoadState
    var endReached: bool

    constructor (refreshKey: Key)
      ensures this.refreshKey == refreshKey
      ensures loadState == NotLoading && !endReached
    {
      this.refreshKey := refreshKey;
      loadState := NotLoading;
      endReached := false;
    }

    /**
     * `append()`: ignored while an append is in flight; otherwise requests
     * with the key `getAppendKey` gives at call time (`appendKey`). A
     * throwable that escapes is returned in `escaped`.
     */
    method Append(appendKey: Attempt<Key>, onRequest: Key -> Response<Item>, successThrows: Option<Fault>)
      returns (calls: seq<HookCall<Key, Item>>, escaped: Option<Fault>)
      modifies this
      ensures old(loadState) == LoadState.Append ==>
                calls == [] && escaped.None? && loadState == old(loadState) && endReached == old(endReached)
      ensures old(loadState) != LoadState.Append ==>
                Outcome(loadState, endReached, calls, escaped) ==
                Transition(LoadState.Append, appendKey, onRequest, successThrows, old(endReached))
    {
      calls, escaped := [], None;
      if loadState == LoadState.Append { return; }
      calls, escaped := Load(LoadState.Append, appendKey, onRequest, successThrows);
    }

    /**
     * `refresh()`: ignored while a refresh is in flight; otherwise requests
     * with the fixed `refreshKey`.
     */
    method Refresh(onRequest: Key -> Response<Item>, successThrows: Option<Fault>)
      returns (calls: seq<HookCall<Key, Item>>, escaped: Option<Fault>)
      modifies this
      ensures old(loadState) == LoadState.Refresh ==>
                calls == [] && escaped.None? && loadState == old(loadState) && endReached == old(endReached)
      ensures old(loadState) != LoadState.Refresh ==>
                Outcome(loadState, endReached, calls, escaped) ==
                Transition(LoadState.Refresh, Returned(refreshKey), onRequest, successThrows, old(endReached))
    {
      calls, escaped := [], None;
      if loadState == LoadState.Refresh { return; }
      calls, escaped := Load(LoadState.Refresh, Returned(refreshKey), onRequest, successThrows);
    }

    /** The body the two operations share once past their guard. */
    method Load(op: LoadState, key: Attempt<Key>, onRequest: Key -> Response<Item>, successThrows: Option<Fault>)
      returns (calls: seq<HookCall<Key, Item>>, escaped: Option<Fault>)
      requires op == LoadState.Append || op == LoadState.Refresh
      modifies this
      ensures Outcome(loadState, endReached, calls, escaped) == Transition(op, key, onRequest, successThrows, old(endReached))
    {
      loadState := op;
      calls, escaped := [OnLoadUpdated(loadState)], None;
      // the throwable leaving the try block, if any
      var thrown: Option<Fault> := None;
      match key {
        case Threw(f) =>
          thrown := Some(f);
        case Returned(k) =>
          calls := calls + [OnRequest(k)];
          match onRequest(k) {
            case Failed(f) =>
              // the getOrElse branch: report, mark the error and return
              calls := calls + [OnError(f)];
              loadState := Error;
              calls := calls + [OnLoadUpdated(loadState)];
              return;
            case Raised(f) =>
              thrown := Some(f);
            case Fetched(items) =>
              if items == [] { endReached := true; }
              calls := calls + [OnSuccess(loadState, items)];
              match successThrows {
                case Some(f) =>
                  thrown := Some(f);
                case None =>
                  loadState := NotLoading;
                  calls := calls + [OnLoadUpdated(loadState)];
              }
          }
      }
      if thrown.Some? {
        if thrown.value.Exception? {
          // catch (e: Exception)
          calls := calls + [OnError(thrown.value)];
          loadState := Error;
          calls := calls + [OnLoadUpdated(loadState)];
        } else {
          escaped := thrown;
        }
      }
    }
  }

  /** Once a JVM `Error` has escaped an `append()`, the loader is left in
      `Append`, so every later `append()` is dropped by its guard: no hook
      call, no change of state, nothing thrown. */
  method AppendAfterEscape<Key, Item>(p: Paginator<Key, Item>,
                                      key: Attempt<Key>, onRequest: Key -> Response<Item>, successThrows: Option<Fault>,
                                      laterKey: Attempt<Key>, laterRequest: Key -> Response<Item>,
                                      laterThrows: Option<Fault>)
    returns (later: seq<HookCall<Key, Item>>, laterEscaped: Option<Fault>)
    requires p.loadState != Append && Escapes(key, onRequest, successThrows)
    modifies p
    ensures p.loadState == Append && later == [] && laterEscaped.None?
  {
    var first, escaped := p.Append(key, onRequest, successThrows);
    later, laterEscaped := p.Append(laterKey, laterRequest, laterThrows);
  }

  /** A failed `Result` and a thrown `Exception` from `onRequest` are
      indistinguishable to the consumer. */
  lemma FailureKindsAgree<Key, Item>(op: LoadState, key: Attempt<Key>, failing: Key -> Response<Item>,
                                     throwing: Key -> Response<Item>, f: Fault,
                                     successThrows: Option<Fault>, endReached: bool)
    requires op == Append || op == Refresh
    requires key.Returned? && failing(key.value) == Failed(f) && throwing(key.value) == Raised(f)
    requires f.Exception?
    ensures Transition(op, key, failing, successThrows, endReached)
         == Transition(op, key, throwing, successThrows, endReached)
  {
  }

  /**
   * The scroll trigger of `LaunchPaginatorListener`: `append()` is launched
   * when the list is non-empty, the loader is idle and has not reached the
   * end, and the first visible index is within `(size / fetchNumber) *
   * threshold` items of the end. For a non-negative size Dafny's `/` agrees
   * with Kotlin's truncating `Int` division. The division is only reached
   * once the three earlier conditions hold; there a zero `fetchNumber` would
   * throw.
   */
  function ShouldAppend(listSize: nat, endReached: bool, loadState: LoadState,
                        firstVisibleItemIndex: int, fetchNumber: int, threshold: int): (fire: bool)
    requires listSize > 0 && !endReached && loadState == NotLoading ==> fetchNumber != 0
    // the trigger never fires on an empty list, a finished loader or a busy one
    ensures fire ==> listSize > 0 && !endReached && loadState == NotLoading
  {
    listSize > 0 && !endReached && loadState == NotLoading &&
    firstVisibleItemIndex >= listSize - (listSize / fetchNumber) * threshold
  }

  /** Scrolling further down never switches the trigger off. */
  lemma TriggerMonotone(listSize: nat, endReached: bool, loadState: LoadState,
                        i: int, j: int, fetchNumber: int, threshold: int)
    requires listSize > 0 && !endReached && loadState == NotLoading ==> fetchNumber != 0
    requires i <= j
    ensures ShouldAppend(listSize, endReached, loadState, i, fetchNumber, threshold) ==>
              ShouldAppend(listSize, endReached, loadState, j, fetchNumber, threshold)
  {
  }

  /** A list shorter than one batch never triggers an append from a valid
      visible index: `size / fetchNumber` is 0, so the window is empty. */
  lemma NoTriggerBelowOneBatch(listSize: nat, endReached: bool, loadState: LoadState,
                               firstVisibleItemIndex: int, fetchNumber: int, threshold: int)
    requires 0 <= firstVisibleItemIndex < listSize < fetchNumber
    ensures !ShouldAppend(listSize, endReached, loadState, firstVisibleItemIndex, fetchNumber, threshold)
  {
  }

  /** With at least one full batch loaded and a positive threshold, an idle
      loader that has not reached the end fires once the last item is the
      first visible one. */
  lemma TriggerAtLastItem(listSize: nat, fetchNumber: int, threshold: int)
    requires 0 < fetchNumber <= listSize && threshold >= 1
    ensures ShouldAppend(listSize, false, NotLoading, listSize - 1, fetchNumber, threshold)
  {
  }

  /** Once an empty batch has set `endReached`, no later operation clears
      it, so the scroll trigger stays off for the loader's lifetime. */
  lemma EndReachedIsFinal<Key, Item>(op: LoadState, key: Attempt<Key>, onRequest: Key -> Response<Item>,
                                     successThrows: Option<Fault>, listSize: nat,
                                     firstVisibleItemIndex: int, fetchNumber: int, threshold: int)
    requires op == Append || op == Refresh
    ensures var r := Transition(op, key, onRequest, successThrows, true);
            r.endReached &&
            !ShouldAppend(listSize, r.endReached, r.loadState, firstVisibleItemIndex, fetchNumber, threshold)
  {
  }
}
