/**
 * The state record of the use-data hook and its reducer: the pure part of
 * src/useData.ts. Everything here is a value; the mutable controller that
 * dispatches these actions lives in module FetchControl.
 */
module DataFetch {

  /** A value that may be absent: JavaScript's `null` / `undefined`. */
  datatype Option<T> = None | Some(value: T)

  /** The hook's options as a caller passes them; `None` is an option left undefined. */
  datatype Options = Options(fireOnMount: Option<bool>, takeEvery: Option<bool>)

  /** Whether a fetch is started on mount: on unless explicitly switched off. */
  function FireOnMount(o: Options): (r: bool)
    ensures r <==> o.fireOnMount != Some(false)
  {
    match o.fireOnMount
    case None => true
    case Some(b) => b
  }

  /** Whether every resolved fetch commits: off unless explicitly switched on. */
  function TakeEvery(o: Options): (r: bool)
    ensures r <==> o.takeEvery == Some(true)
  {
    match o.takeEvery
    case None => false
    case Some(b) => b
  }

  /**
   * The state exposed to the rendering component. `error` holds whatever
   * value the failing fetch rejected with; `data` is `None` for `null`.
   */
  datatype State<D, E> = State(loading: bool, error: Option<E>, data: Option<D>)

  /** The four actions the reducer accepts; the set is closed, so there is no invalid one. */
  datatype Action<D, E> =
    | FetchInit
    | FetchSuccess(payload: D)
    | FetchFailure(reason: E)
    | ChangeData(payload: D)

  /**
   * The reducer. Its contract states the invariants every transition keeps:
   * loading only rises on FetchInit, data never returns to None, and an error
   * only appears through a FetchFailure.
   */
  function Reduce<D, E>(s: State<D, E>, a: Action<D, E>): (r: State<D, E>)
    ensures r.loading && !s.loading ==> a.FetchInit?
    ensures s.data.Some? ==> r.data.Some?
    ensures r.data != s.data ==> a.FetchSuccess? || a.ChangeData?
    ensures r.error.Some? ==> r.error == s.error || a == FetchFailure(r.error.value)
  {
    match a
    case FetchInit => if s.loading then s else s.(loading := true)
    case FetchSuccess(v) => s.(loading := false, error := None, data := Some(v))
    case FetchFailure(e) => s.(loading := false, error := Some(e))
    case ChangeData(v) => s.(data := Some(v))
  }

  /**
   * The state the hook starts from. `initialData || null` keeps the initial
   * data only when it is present and truthy; `truthy` is JavaScript's notion
   * of truthiness on D.
   */
  function InitialState<D, E>(initialData: Option<D>, truthy: D -> bool): (s: State<D, E>)
    ensures s.loading && s.error.None?
    ensures s.data.Some? <==> initialData.Some? && truthy(initialData.value)
    ensures s.data.Some? ==> s.data == initialData
  {
    match initialData
    case Some(d) => State(true, None, if truthy(d) then Some(d) else None)
    case None => State(true, None, None)
  }

  /** The argument of `setData`: new data, or a function from the current data to new data. */
  datatype Update<!D> = Replace(newData: D) | Transform(f: Option<D> -> D)

  /** The CHANGE_DATA payload `setData` computes from its argument and the current data. */
  function Payload<D>(u: Update<D>, current: Option<D>): (p: D)
    ensures u.Replace? ==> p == u.newData
    ensures u.Transform? ==> p == u.f(current)
  {
    match u
    case Replace(d) => d
    case Transform(f) => f(current)
  }

  lemma FetchInitIdempotent<D, E>(s: State<D, E>)
    ensures Reduce(s, FetchInit) == State(true, s.error, s.data)
    ensures s.loading ==> Reduce(s, FetchInit) == s
    ensures Reduce(Reduce(s, FetchInit), FetchInit) == Reduce(s, FetchInit)
  {
  }

  lemma FetchSuccessOverwrites<D, E>(s: State<D, E>, s': State<D, E>, v: D)
    ensures Reduce(s, FetchSuccess(v)) == State(false, None, Some(v))
    ensures Reduce(s, FetchSuccess(v)) == Reduce(s', FetchSuccess(v))
  {
  }

  lemma FetchFailureKeepsData<D, E>(s: State<D, E>, e: E)
    ensures Reduce(s, FetchFailure(e)) == State(false, Some(e), s.data)
  {
  }

  lemma ChangeDataOnlyData<D, E>(s: State<D, E>, u: Update<D>)
    ensures Reduce(s, ChangeData(Payload(u, s.data))).loading == s.loading
    ensures Reduce(s, ChangeData(Payload(u, s.data))).error == s.error
    ensures u.Replace? ==> Reduce(s, ChangeData(Payload(u, s.data))).data == Some(u.newData)
    ensures u.Transform? ==> Reduce(s, ChangeData(Payload(u, s.data))).data == Some(u.f(s.data))
  {
  }
}
