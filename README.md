# redux-thunk-actions: `createActionThunk` in Dafny

`createActionThunk(type, fn, suppressException)` wraps a function `fn` in a
redux action creator. Calling the creator with arguments gives a thunk
`(dispatch, getState, extra) => …`. When it runs, the thunk dispatches
`<TYPE>_STARTED` with the arguments and then calls `fn`. What comes next
depends on `fn`:

- `fn` returns a value: the thunk dispatches `<TYPE>_SUCCEEDED` and
  `<TYPE>_ENDED` (with `{elapsed}`) and returns the value.
- `fn` throws: the thunk dispatches `<TYPE>_FAILED` and `<TYPE>_ENDED` and
  re-throws the error.
- `fn` returns a promise: the thunk returns the chained promise at once, and
  the same actions follow when the promise settles.

The creator also carries `NAME`, `START`, `STARTED`, `SUCCEEDED`, `FAILED`
and `ENDED` properties, and iterating it yields these values.

The model has these modules:

- `JsValues` (values.dfy) covers the JavaScript values that the code
  inspects: truthiness, property reads and `isPromise`.
- `ReduxActions` (redux_actions.dfy) holds the action record and the
  behaviour of redux-actions' `createAction` that the code relies on.
- `ActionTypes` (action_types.dfy) derives the four action types and maps
  a type back to its phase.
- `Lifecycle` (lifecycle.dfy) gives the reference definition of one
  invocation. `SyncRun` is what runs before the thunk returns. `SettleRun` is
  the promise continuation. `FullLog` is both together.
- `LifecycleProofs` (lifecycle_proofs.dfy) holds the properties of that
  definition.
- `PropertyList` (property_list.dfy) models the factory's own enumerable
  properties in insertion order, which is the order `Object.values` lists
  them in as long as no key is an array index.
- `Thunk` (factory.dfy) holds the imperative part. `Store` appends every
  dispatched action to its log. `Clock` hands out successive `getTime()`
  readings. `ActionThunk` is the factory object: the constructor attaches
  the properties, `Iterate` is the iterator, `Invoke` is the thunk body,
  and `Succeeded`/`Failed` are its two callbacks. `Resume` is the promise
  continuation. The thunk methods (`Invoke`, `Succeeded`, `Failed`,
  `Resume`) are proved against the `Lifecycle` functions; the property
  methods (the constructor, `Attach`, `Get`, `Iterate`) are proved against
  `PropertyList` and `FactoryProperties`.
- `Scenarios` (scenarios.dfy) replays the situations of the test suite.
  These client methods use only the contracts of the methods above.

`fn` is modelled as a function from the argument list to an `Outcome`: it
either `Returns(v)` or `Throws(e)`. A returned promise is the value
`Promise(Fulfilled(v))` or `Promise(Rejected(e))`.

An object's `props` stand for every string-keyed property a read sees on
it, whether the object owns it or inherits it.

Three consequences of the code as written are kept in the model:

- The designed order of actions is STARTED, exactly one of SUCCEEDED and
  FAILED, then ENDED. The code departs from it in two cases.
  - A synchronous throw with `suppressException` set
    (src/index.js:47-60). `failed` returns normally, `result` stays
    `undefined`, and control reaches `succeeded(undefined)`. The log is
    STARTED, FAILED, ENDED, SUCCEEDED, ENDED, and the thunk returns
    `undefined`.
  - A returned non-promise object whose `then` and `catch` properties are
    truthy (src/index.js:57-58). It passes `isPromise`, but calling its
    `then` throws a TypeError, so only STARTED is dispatched.

  `LifecycleProofs.LifecycleUnlessIrregular` proves that these are the only
  two departures.
- The payload and meta are taken out of the data only when `data.payload`
  is truthy (src/index.js:30). A payload of `0`, `""` or `false` leaves the
  whole object as the payload.
- `elapsed` is the difference of two clock readings (src/index.js:27, 35,
  42). It is non-negative only when the clock never runs backwards, which
  `ElapsedNonNegative` takes as its hypothesis.

## Model

| member | source | states |
|---|---|---|
| JsValues.Truthy | src/index.js:30 | exactly `undefined`, `null`, `false`, `0` and the empty string are falsy, as the tests `data && data.payload` and `p && p.then && p.catch` use it |
| JsValues.Prop | src/index.js:30 | a property read gives the object's property when there is one and `undefined` otherwise |
| JsValues.IsPromise | src/index.js:76-78 | `isPromise` accepts exactly native promises and objects whose `then` and `catch` are both truthy |
| JsValues.ElapsedRecord | src/index.js:36-38 | the ENDED payload is a plain object (not an Error) whose `elapsed` property is the given duration |
| ReduxActions.CreateAction | src/index.js:16-21 | an action has the given type and no meta; the payload field is absent exactly when the payload is `undefined`; `error` is set exactly when the payload is an Error |
| ReduxActions.CreateActionWithMeta | src/index.js:22-23 | the payload is `data.payload` (absent when undefined), `meta` is always present as `data.meta`, and `error` flags an Error payload |
| ActionTypes.TypeOf | src/index.js:12-15 | an action type is the factory name followed by the phase suffix |
| ActionTypes.PhaseOf | src/index.js:12-15 | a recognised type is exactly the type built for the phase it reports |
| ActionTypes.TypeOfInjective | src/index.js:12-21 | two (name, phase) pairs give the same type only when both agree, so the four action-creator keys never collide |
| ActionTypes.PhaseOfRoundTrip | src/index.js:12-15 | matching one of a factory's four types gives back the phase it was made for |
| ActionTypes.PhaseOfMatches | src/index.js:12-15 | a type matches a phase if and only if it is that phase's type |
| Lifecycle.StartedAction | src/index.js:28 | STARTED carries the argument array as payload, no meta and no error flag |
| Lifecycle.SucceededAction | src/index.js:29-34 | SUCCEEDED carries `data.payload` and `data.meta` (flagging an Error payload) when `data` and `data.payload` are truthy, and otherwise `data` as its payload (absent for `undefined`) with no meta and the error flag of an Error |
| Lifecycle.FailedAction | src/index.js:41-43 | FAILED carries the error as payload (no payload field for `undefined`) and sets `error` exactly when it is an Error |
| Lifecycle.EndedAction | src/index.js:35-46 | ENDED reports `elapsed` as the end reading minus the start reading, with no meta and no error flag |
| Lifecycle.SyncRun | src/index.js:25-61 | the synchronous run starts with STARTED; each `succeeded`/`failed` call adds two actions and one clock reading; the thunk hands back a pending promise exactly when `fn` returned one, and throws exactly for an unsuppressed exception or a fake thenable |
| Lifecycle.SettleRun | src/index.js:29-58 | the continuation dispatches SUCCEEDED or FAILED, then ENDED; the chained promise fulfils like the source and is rejected only for a rejection with suppression off |
| LifecycleProofs.FullPhases | src/index.js:25-61 | the sequence of phases an invocation announces, for every outcome of `fn`, the suppression flag and the promise settlement |
| LifecycleProofs.StartedFirst | src/index.js:27-28 | the first action is STARTED with the argument array, whatever `fn` does; no later action is STARTED; every action has one of the factory's four types |
| LifecycleProofs.LifecycleUnlessIrregular | src/index.js:41-60 | the log is STARTED, exactly one of SUCCEEDED/FAILED, ENDED, if and only if it is neither a suppressed synchronous throw nor a fake thenable |
| LifecycleProofs.EndedLast | src/index.js:51-60 | the last action is ENDED if and only if `fn` did not return a fake thenable |
| LifecycleProofs.CallerSeesOutcome | src/index.js:39-60 | the caller gets the value unchanged, the exception re-thrown (or `undefined` when suppressed), the TypeError of a fake thenable, or a chained promise that settles like the source promise, with a suppressed rejection fulfilling with `undefined` |
| LifecycleProofs.SynchronousLog | src/index.js:28-40 | for a non-promise value the synchronous log is exactly STARTED, SUCCEEDED, ENDED; for a promise it is STARTED alone |
| LifecycleProofs.ThrowLog | src/index.js:41-55 | after a synchronous throw the log is STARTED, FAILED carrying the error, ENDED with the first end reading; with suppression on, SUCCEEDED with no payload and a second ENDED follow, and otherwise nothing does |
| LifecycleProofs.ElapsedNonNegative | src/index.js:27-45 | with a clock that never runs backwards, every ENDED action reports a non-negative `elapsed` |
| PropertyList.Assign | src/index.js:63-68 | assignment either keeps the length (exactly when the key is already there) or appends the new property at the end |
| PropertyList.ValueAt | src/index.js:65 | a read finds a property with that key and value, and finds nothing only when no property has the key |
| PropertyList.Values | src/index.js:70 | `Object.values` lists every property's value, position by position |
| PropertyList.AssignThenRead | src/index.js:63-68 | reading a property after assigning it gives the new value, and other properties are unchanged |
| PropertyList.AssignKeepsOrder | src/index.js:63-70 | for keys that are not array indices, assignment keeps the key order, and a new key goes last |
| Thunk.FactoryProperties | src/index.js:63-68 | the factory gets six properties with distinct keys; NAME holds the type name, and START and STARTED hold the same STARTED type |
| Thunk.Store.Dispatch | src/index.js:28 | dispatching appends the action to the log |
| Thunk.Clock.Now | src/index.js:27 | each `getTime()` takes the next clock reading |
| Thunk.ActionThunk.constructor | src/index.js:63-68 | the new factory's properties are NAME, START, STARTED, SUCCEEDED, FAILED, ENDED, in that order, with START equal to STARTED |
| Thunk.ActionThunk.Attach | src/index.js:63-69 | property assignment on the factory, as `PropertyList.Assign` describes it |
| Thunk.ActionThunk.Get | src/index.js:65 | a property read returns the value of the first entry with that key, or nothing |
| Thunk.ActionThunk.Iterate | src/index.js:69-71 | the iterator yields the values of the own enumerable properties, in order |
| Thunk.ActionThunk.Succeeded | src/index.js:29-40 | `succeeded` appends SUCCEEDED and ENDED, takes one clock reading and returns the data unchanged |
| Thunk.ActionThunk.Failed | src/index.js:41-50 | `failed` appends FAILED and ENDED, takes one clock reading and re-throws exactly when suppression is off |
| Thunk.ActionThunk.Invoke | src/index.js:25-61 | the thunk appends the synchronous log of `SyncRun` to the store, returns its completion and takes its clock readings |
| Thunk.ActionThunk.Resume | src/index.js:57-58 | the promise continuation appends SUCCEEDED/FAILED and ENDED and settles the chained promise as `SettleRun` says |
| Thunk.RunToCompletion | src/index.js:57-60 | running the thunk and then its continuation dispatches `FullLog`, which is the designed lifecycle if and only if the invocation is not irregular |
| Thunk.FactoryIteration | src/index.js:63-71 | iterating a new factory yields the name, the STARTED type twice, then the SUCCEEDED, FAILED and ENDED types |
| Scenarios.FetchTypes | test/index.specs.js:95-97 | the factory named FETCH uses the types FETCH_STARTED, FETCH_SUCCEEDED, FETCH_FAILED and FETCH_ENDED |

## Left out

- Wall-clock time: `getTime()` readings come from a `Clock` given as input. The model cannot observe whether a reading is taken before or after a dispatch, because no reading depends on the store.
- Promise scheduling and the microtask queue: a promise is already settled when `fn` returns it. Its continuation runs when `Resume` is called. Other actions may reach the store in between.
- A promise fulfilled with another promise: JavaScript promises adopt such values, but the model does not rule them out and treats them as plain data.
- `getState`, `dispatch` and `extra` as seen by `fn`: `fn` is a function from the argument list to its outcome. Actions that `fn` dispatches itself are not modelled.
- The redux store, the redux-thunk middleware and redux-mock-store: they are replaced by `Store`, which keeps an append-only log. The way `store.dispatch(thunk)` passes the thunk's return value back is shown only by `Invoke` returning it.
- The internals of redux-actions `createAction`: it is an external library. Only the behaviour the tests show is assumed. Its payload creator's special case for an `Error` as the first argument is not modelled.
- `suppressException` is a `bool`: the source only tests `!suppressException` (src/index.js:47), so any value acts by its truthiness and an omitted argument acts as `false`; the flag stands for that truthiness.
- JavaScript numbers are integers here, so NaN, fractions and `-0` are left out. An action type is built from a string name, and a non-string `type` is not modelled.
- Function values are left out, apart from the `then`/`catch` methods a native promise inherits from `Promise.prototype`. A user-written thenable with a callable `then` is therefore outside the value domain. Any other object that passes `isPromise` has a `then` that is data.
- PropertyList.Assign: keys that are array indices (such as `"0"`) are kept in insertion order, whereas `Object.values` lists them first, in ascending order. The factory never assigns such a key.
- Prototypes: an object's properties are listed flat, own and inherited alike, so shadowing and prototype chains are not modelled.
- The factory's non-enumerable own properties (`length`, `name`) and its `Symbol.iterator` key are left out, because `Object.values` does not list them.
- The test reducer in test/index.specs.js and its logging are left out. They are fixture code.
