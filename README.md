# use-data: the fetch state machine

A model of the `useData` React hook: a hook that runs a caller-supplied
asynchronous fetch, exposes its lifecycle as a record `{loading, error, data}`,
lets the caller start the fetch again (`fireFetch`) or overwrite the data
(`setData`), and discards the result of a fetch that a later fetch has
superseded, unless the `takeEvery` option is set.

The model has three modules.

- `DataFetch` (`data_fetch.dfy`) holds the values. It defines the state record and the four reducer actions (`FETCH_INIT`, `FETCH_SUCCESS`, `FETCH_FAILURE`, `CHANGE_DATA`). It also holds the reducer `Reduce`, the option defaults, the initial state and the payload that `setData` computes. The action type is closed, so the reducer's `default: throw` branch has no counterpart.
- `FetchControl` (`fetch_control.dfy`) holds the controller. The class `Controller` has the reducer's `state`, the `fnStartTime` ref as `lastToken`, and the constant `takeEvery`. Its methods are `Start`, `Succeed`, `Fail` and `SetData`. The asynchronous interleaving is made explicit: each method is one event in the order the event loop delivers them. Each method is proved against `Step`, the pure transition on one `Event`. `Run` applies a sequence of events.
- `FetchProperties` (`fetch_properties.dfy`) holds what the controller guarantees over any interleaving:
  - the latest-wins guard;
  - the take-every policy;
  - loading staying on until the latest fetch settles;
  - data never returning to `None`;
  - where held data and errors come from;
  - the scenario of the supersession test.

A fetch's start token is the clock reading `new Date().getTime()`. It enters
the model as an integer carried by `Start`, so two starts may carry equal tokens.
`SameMillisecondStartsDefeatGuard` shows what happens then: two fetches started
in the same millisecond share a token, and the older one's late result
overwrites the newer one's. `SupersededFetchNeverCommits` proves that the guard
works whenever the start tokens are distinct.

In these places the code may surprise a reader; the model follows the code:

- `loading` starts true even when `fireOnMount` is false (src/useData.ts:92-96).
- `CHANGE_DATA` keeps `error` (src/useData.ts:59).
- `setData` has no stop-loading flag (src/useData.ts:120-131).
- `fireFetch` takes no argument (src/useData.ts:116-118). The supersession test (src/useData.test.tsx:33) passes an override fetch, and the code ignores it. `SupersededMountFetchNeverSeen` models the scenario the test describes, with distinct tokens t1 != t2: the second fetch resolves first with `pass`. The test's two starts happen in one flush of effects, the hook's mount effect (src/useData.ts:112-114) and then the component's (src/useData.test.tsx:32-36), so the two clock readings are likely equal; `SameMillisecondStartsDefeatGuard` covers that case, where even a second fetch resolving to `pass` ends with `fail`. `SupersessionTestAsWritten` models what the code does instead: both fetches run the hook's own function, which resolves to `fail` after 50 ms (src/useData.test.tsx:26-29). The run ends holding `fail`, so the test's "First call still went through" branch is taken and the test, read against the code, cannot pass.

## Model

| member | source | states |
|---|---|---|
| `DataFetch.FireOnMount` | src/useData.ts:81 | a fetch starts on mount unless `fireOnMount` is explicitly false |
| `DataFetch.TakeEvery` | src/useData.ts:82 | take-every is on only when `takeEvery` is explicitly true |
| `DataFetch.Reduce` | src/useData.ts:48-65 | every transition keeps these rules: loading rises only on FETCH_INIT; data never returns to None; data changes only on FETCH_SUCCESS or CHANGE_DATA; a new error is only the payload of FETCH_FAILURE |
| `DataFetch.Payload` | src/useData.ts:122-127 | the CHANGE_DATA payload is the given value itself, or the given function applied to the current data (which may be None) |
| `DataFetch.InitialState` | src/useData.ts:92-96 | the initial state is loading, has no error, and holds the initial data exactly when it is given and truthy |
| `DataFetch.FetchInitIdempotent` | src/useData.ts:51-53 | FETCH_INIT sets loading and keeps error and data; on a loading state it returns the state itself; applying it twice equals applying it once |
| `DataFetch.FetchSuccessOverwrites` | src/useData.ts:54-55 | FETCH_SUCCESS(v) yields not loading, no error and data v, whatever the prior state |
| `DataFetch.FetchFailureKeepsData` | src/useData.ts:56-57 | FETCH_FAILURE(e) yields not loading and error e, and keeps the prior data |
| `DataFetch.ChangeDataOnlyData` | src/useData.ts:120-131 | setData's CHANGE_DATA keeps loading and error; the new data is the given value, or the given function applied to the current data |
| `FetchControl.Step` | src/useData.ts:99-108 | the transition on one event: a start records its token and leaves loading on; nothing else moves the token; a resolution changes the controller only if take-every is on or its token is the recorded one; a rejection ends loading, sets the error and keeps the data. The Controller methods' `Snapshot() == Step(...)` ensures tie each method to it; setData's case is pinned by `ChangeDataOnlyData` |
| `FetchControl.Controller.constructor` | src/useData.ts:81-114 | mounting resolves the option defaults and builds the initial state; it records the mount token exactly when `fireOnMount` holds |
| `FetchControl.Controller.Start` | src/useData.ts:98-101 | a start records its token and leaves the state loading with error and data kept, as one Step |
| `FetchControl.Controller.Succeed` | src/useData.ts:102-106 | a resolution commits (not loading, no error, data = value) iff take-every is on or its token is the recorded one; otherwise nothing changes; the token is kept |
| `FetchControl.Controller.Fail` | src/useData.ts:107-109 | a rejection commits (not loading, error = reason, data kept) whatever its token; the token is kept |
| `FetchControl.Controller.SetData` | src/useData.ts:120-131 | setData replaces only the data, with the payload computed from the current data; loading, error and the token are kept |
| `FetchProperties.StartSupersedes` | src/useData.ts:99-101 | every start records its token and marks loading, also when already loading (then the state is unchanged) |
| `FetchProperties.LatestWinsGuard` | src/useData.ts:104-106 | under latest-wins a resolution commits when its token is the recorded one, and leaves the controller unchanged otherwise |
| `FetchProperties.TakeEveryCommits` | src/useData.ts:104-106 | under take-every every resolution commits, whatever its token |
| `FetchProperties.FailCommitsUnconditionally` | src/useData.ts:107-108 | a rejection commits under both policies and for any token, keeping the data |
| `FetchProperties.RunRecordsLatestStart` | src/useData.ts:98-101 | after any run the recorded token is that of the last start in the run, or the earlier token when nothing started |
| `FetchProperties.StaleSuccessIgnored` | src/useData.ts:104-106 | under latest-wins, a resolution whose token is not the recorded one (the last start's in the run, else the earlier one) leaves the controller unchanged |
| `FetchProperties.LatestSuccessCommits` | src/useData.ts:104-105 | under latest-wins, the resolution of the fetch whose token is recorded commits its value and keeps the token |
| `FetchProperties.SupersededFetchNeverCommits` | src/useData.ts:98-106 | with distinct start tokens, a fetch followed by another start never commits under latest-wins |
| `FetchProperties.LoadingUntilLatestSettles` | src/useData.ts:98-108 | under latest-wins, after a start, loading stays true and the token stays recorded while no new start, no rejection and no resolution of that fetch arrives |
| `FetchProperties.StaleFailureEndsLoading` | src/useData.ts:107-108 | a superseded fetch's rejection still ends loading and sets the error, while the newer token stays recorded |
| `FetchProperties.HeldDataNeverErased` | src/useData.ts:48-65 | once data is `Some`, no run of events brings it back to `None` |
| `FetchProperties.DataComesFromLatestFetch` | src/useData.ts:98-131 | under latest-wins the held data is the initial data, a value of a fetch that was the latest started when it resolved, or a setData payload |
| `FetchProperties.ErrorComesFromFailure` | src/useData.ts:48-65 | a held error was held before the run or is the reason of a rejection in the run |
| `FetchProperties.TakeEveryLastResolutionWins` | src/useData.ts:104-105 | under take-every the data after a run is the value of the last resolution, in resolution order, when only starts and rejections follow it |
| `FetchProperties.SupersededMountFetchNeverSeen` | src/useData.test.tsx:24-44 | with t1 != t2: mount fetch t1, second fetch t2 resolving first with `pass`, then t1 resolving with `fail`: `fail` is never held at any point and the run ends with `pass`, not loading |
| `FetchProperties.SupersessionTestAsWritten` | src/useData.test.tsx:24-44 | the test as the code runs it: mount fetch t1 and second fetch t2 both resolve to `fail` in start order; whatever t1 and t2 are, the run ends with `fail`, not loading, no error |
| `FetchProperties.SameMillisecondStartsDefeatGuard` | src/useData.ts:99-104 | two starts with the same clock reading: the first fetch's late result overwrites the second's |

## Left out

- `DataFetch.Reduce`: data never returns to `None`, but this assumes every payload is a non-null value of D. The source stores `action.payload` as it is (src/useData.ts:55, 59), so a fetch that resolves to `null` or `undefined`, or a `setData` that returns `null`, makes `data` null again; the model wraps every payload as `Some`.
- `FetchProperties.HeldDataNeverErased`: for the same reason, it holds only when fetch results and `setData` payloads are non-null values of D.
- The options are fixed for the hook's lifetime. In the source, a change of `takeEvery` between renders re-creates `fetchData` (src/useData.ts:110), and a change of `fireOnMount` or of `fetchData` re-runs the mount effect, which starts a new fetch when `fireOnMount` is then true (src/useData.ts:112-114). The model has neither.
- A rejection's reason is held as `Some(reason)` whatever it is. In the source, `Promise.reject()` or a rejection with `null` stores `undefined` or `null` (src/useData.ts:57, 107-108), so `error` stays falsy; "sets the error" in the rows above means the model's `Some`, not a truthy JavaScript value.
- React wiring (`useEffect`, `useCallback`, `useMemo`, `useRef`, `useReducer`, src/useData.ts:84-133) is not modelled: the model keeps the state and transitions that wiring carries, and takes the state the hook returns to be the controller's `state`.
- Promises and `await` are not modelled: a fetch's resolution or rejection is an event, and any interleaving is allowed. The model does not force each started fetch to settle exactly once.
- The fetch functions themselves and the refreshing of `savedAsyncFunc` (src/useData.ts:87-90) are not modelled: they only choose which opaque function runs, and its result enters as the payload of an event.
- The clock read `new Date().getTime()` (src/useData.ts:99) is not modelled: the token is an input of `Start`.
- JavaScript truthiness of `initialData` is a parameter `truthy`, not computed.
- `setData` reads `state.data` through a closure refreshed on each render (src/useData.ts:130). The model reads the current data, so it does not capture a stale closure between a dispatch and the next render.
- `setData` tells a function argument from a value with `typeof` (src/useData.ts:123). The model separates them by constructor, so data that is itself a function is not modelled.
- The unreachable `default: throw` of the reducer (src/useData.ts:60-61) has no counterpart, because the action type is closed.
