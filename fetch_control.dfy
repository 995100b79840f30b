/**
 * The fetch controller of src/useData.ts: the `fnStartTime` token, the
 * staleness guard of `fetchData`, and `setData`. The asynchronous
 * interleaving is made explicit: a fetch starting, a fetch resolving, a
 * fetch rejecting and a call of `setData` are events, applied one at a time
 * in whatever order the host's event loop delivers them.
 */
module FetchControl {
  import opened DataFetch

  /**
   * One step of the interleaving. `token` is the start time a fetch read
   * from the clock when it started; `Succeed` and `Fail` carry the token of
   * the fetch that settled.
   */
  datatype Event<!D, E> =
    | Start(token: int)
    | Succeed(token: int, value: D)
    | Fail(token: int, reason: E)
    | SetData(update: Update<D>)

  /** Everything the controller holds: the reducer's state and the latest start token. */
  datatype Ctl<D, E> = Ctl(state: State<D, E>, lastToken: Option<int>)

  /**
   * The controller's transition on one event; `takeEvery` is fixed for the
   * hook's lifetime. Only a start moves the token; a resolution that changes
   * anything passed the guard; a rejection always ends loading.
   */
  function Step<D, E>(takeEvery: bool, c: Ctl<D, E>, e: Event<D, E>): (r: Ctl<D, E>)
    ensures e.Start? ==> r.lastToken == Some(e.token) && r.state.loading
    ensures !e.Start? ==> r.lastToken == c.lastToken
    ensures e.Succeed? && r != c ==> takeEvery || c.lastToken == Some(e.token)
    ensures e.Fail? ==> !r.state.loading && r.state.error == Some(e.reason) && r.state.data == c.state.data
  {
    match e
    case Start(t) => Ctl(Reduce(c.state, FetchInit), Some(t))
    case Succeed(t, v) =>
      if takeEvery || c.lastToken == Some(t) then c.(state := Reduce(c.state, FetchSuccess(v))) else c
    case Fail(_, err) => c.(state := Reduce(c.state, FetchFailure(err)))
    case SetData(u) => c.(state := Reduce(c.state, ChangeData(Payload(u, c.state.data))))
  }

  /** The controller after the events `es`, applied in order from `c`. */
  function Run<D, E>(takeEvery: bool, c: Ctl<D, E>, es: seq<Event<D, E>>): Ctl<D, E>
    decreases |es|
  {
    if es == [] then c else Step(takeEvery, Run(takeEvery, c, es[..|es| - 1]), es[|es| - 1])
  }

  /** The token of the last `Start` in `es`, if there is one. */
  function LatestStart<D, E>(es: seq<Event<D, E>>): Option<int>
    decreases |es|
  {
    if es == [] then None
    else if es[|es| - 1].Start? then Some(es[|es| - 1].token)
    else LatestStart(es[..|es| - 1])
  }

  /**
   * One mounted use-data hook. `state` is what the reducer holds, `lastToken`
   * is the `fnStartTime` ref (`None` until the first fetch starts).
   */
  class Controller<D, E> {
    var state: State<D, E>
    var lastToken: Option<int>
    const takeEvery: bool

    function Snapshot(): Ctl<D, E>
      reads this
    {
      Ctl(state, lastToken)
    }

    /**
     * Mounting the hook: options resolved to their defaults, the initial
     * state built from `initialData`, and, when `fireOnMount` holds, the
     * first fetch started with the clock reading `mountToken`.
     */
    constructor (initialData: Option<D>, truthy: D -> bool, options: Options, mountToken: int)
      ensures takeEvery == TakeEvery(options)
      ensures state == InitialState(initialData, truthy)
      ensures lastToken == if FireOnMount(options) then Some(mountToken) else None
    {
      takeEvery := TakeEvery(options);
      state := InitialState(initialData, truthy);
      lastToken := None;
      new;
      if FireOnMount(options) {
        Start(mountToken);
      }
    }

    /** A fetch starts (on mount or through `fireFetch`): it records its token and dispatches FETCH_INIT. */
    method Start(token: int)
      modifies this
      ensures Snapshot() == Step(takeEvery, old(Snapshot()), Event.Start(token))
      ensures lastToken == Some(token)
      ensures state == State(true, old(state).error, old(state).data)
    {
      lastToken := Some(token);
      state := Reduce(state, FetchInit);
    }

    /** The fetch started with `token` resolves to `value`: committed only if it is not stale. */
    method Succeed(token: int, value: D)
      modifies this
      ensures Snapshot() == Step(takeEvery, old(Snapshot()), Event.Succeed(token, value))
      ensures lastToken == old(lastToken)
      ensures takeEvery || old(lastToken) == Some(token) ==> state == State(false, None, Some(value))
      ensures !takeEvery && old(lastToken) != Some(token) ==> state == old(state)
    {
      if takeEvery || lastToken == Some(token) {
        state := Reduce(state, FetchSuccess(value));
      }
    }

    /** The fetch started with `token` rejects with `reason`: committed whatever the token. */
    method Fail(token: int, reason: E)
      modifies this
      ensures Snapshot() == Step(takeEvery, old(Snapshot()), Event.Fail(token, reason))
      ensures lastToken == old(lastToken)
      ensures state == State(false, Some(reason), old(state).data)
    {
      state := Reduce(state, FetchFailure(reason));
    }

    /** `setData`: the payload is computed from the current data and dispatched as CHANGE_DATA. */
    method SetData(update: Update<D>)
      modifies this
      ensures Snapshot() == Step(takeEvery, old(Snapshot()), Event.SetData(update))
      ensures lastToken == old(lastToken)
      ensures state == State(old(state).loading, old(state).error, Some(Payload(update, old(state).data)))
    {
      var payload := Payload(update, state.data);
      state := Reduce(state, ChangeData(payload));
    }
  }
}
