/** What one invocation of a thunk made by `createActionThunk` dispatches and
    returns, as functions of the wrapped function's outcome and the clock
    readings. The properties proved about these functions are in
    `LifecycleProofs`.

    The clock is a sequence of readings `clock(0), clock(1), ...`; `k` is the
    index of the reading taken first (`startedAt`). */
module Lifecycle {
  import opened JsValues
  import opened ReduxActions
  import opened ActionTypes

  /** What the wrapped function `fn` does when called: it returns a value
      (possibly a promise) or throws. */
  datatype Outcome = Returns(value: JsValue) | Throws(error: JsValue)

  /** The promise chained by `result.then(succeeded, failed)`, still pending
      when the thunk returns: the source promise's settlement and the start
      time its continuations close over. */
  datatype Chain = Chain(source: Settlement, startedAt: int)

  /** How the thunk gives control back to its caller. */
  datatype Completion =
    | Normal(value: JsValue)
    | Abrupt(thrown: JsValue)
    | Pending(chain: Chain)

  /** The synchronous part of one invocation: the actions dispatched, the
      completion, and how many clock readings were taken. */
  datatype Run = Run(log: seq<Action>, completion: Completion, clockReads: nat)

  /** The continuation of a pending invocation: the actions it dispatches and
      how the chained promise settles. */
  datatype Settle = Settle(log: seq<Action>, settlement: Settlement)

  /** `{type: STARTED, payload: args}`. */
  function StartedAction(name: string, args: seq<JsValue>): (a: Action)
    ensures a.actionType == TypeOf(name, Started)
    ensures a.payload == Some(Arr(args)) && a.meta == None && !a.error
  {
    CreateAction(TypeOf(name, Started), Arr(args))
  }

  /** The SUCCEEDED action for `data`: when `data` and `data.payload` are
      both truthy, the payload and meta are taken out of `data` and an
      `Error` payload is flagged; otherwise
      `data` itself is the payload, absent when it is `undefined`, and an
      `Error` is flagged. */
  function SucceededAction(name: string, data: JsValue): (a: Action)
    ensures a.actionType == TypeOf(name, Succeeded)
    ensures Truthy(data) && Truthy(Prop(data, "payload")) ==>
              && a.payload == Some(Prop(data, "payload")) && a.meta == Some(Prop(data, "meta"))
              && (a.error <==> IsError(Prop(data, "payload")))
    ensures !(Truthy(data) && Truthy(Prop(data, "payload"))) ==>
              a.payload == (if data == Undefined then None else Some(data)) && a.meta == None && (a.error <==> IsError(data))
  {
    if Truthy(data) && Truthy(Prop(data, "payload"))
    then CreateActionWithMeta(TypeOf(name, Succeeded), data)
    else CreateAction(TypeOf(name, Succeeded), data)
  }

  /** The FAILED action: the exception or rejection reason as payload (no
      payload field for `undefined`), with `error: true` exactly when it is
      an `Error`. */
  function FailedAction(name: string, err: JsValue): (a: Action)
    ensures a.actionType == TypeOf(name, Failed)
    ensures a.payload == (if err == Undefined then None else Some(err))
    ensures a.meta == None && (a.error <==> IsError(err))
  {
    CreateAction(TypeOf(name, Failed), err)
  }

  /** The ENDED action, reporting the time elapsed since `startedAt`. */
  function EndedAction(name: string, startedAt: int, endedAt: int): (a: Action)
    ensures a.actionType == TypeOf(name, Ended)
    ensures ElapsedOf(a) == Some(endedAt - startedAt) && a.meta == None && !a.error
  {
    CreateAction(TypeOf(name, Ended), ElapsedRecord(endedAt - startedAt))
  }

  /** `succeeded(data)`: SUCCEEDED then ENDED. */
  function SuccessTail(name: string, data: JsValue, startedAt: int, endedAt: int): seq<Action> {
    [SucceededAction(name, data), EndedAction(name, startedAt, endedAt)]
  }

  /** `failed(err)`: FAILED then ENDED. */
  function FailureTail(name: string, err: JsValue, startedAt: int, endedAt: int): seq<Action> {
    [FailedAction(name, err), EndedAction(name, startedAt, endedAt)]
  }

  /** The synchronous part of `factory(...args)(dispatch, getState, extra)`.
      It always starts with STARTED; each call of `succeeded` or `failed`
      dispatches two more actions and takes one more clock reading; the thunk
      hands back a pending promise exactly when `fn` returned one, and
      throws exactly for an unsuppressed exception or a fake thenable. */
  function SyncRun(name: string, suppress: bool, args: seq<JsValue>, outcome: Outcome,
                   clock: nat -> int, k: nat): (r: Run)
    ensures |r.log| >= 1 && r.log[0] == StartedAction(name, args)
    ensures |r.log| % 2 == 1 && r.clockReads == 1 + (|r.log| - 1) / 2
    ensures r.completion.Pending? <==> outcome.Returns? && outcome.value.Promise?
    ensures r.completion.Pending? ==> r.completion.chain == Chain(outcome.value.state, clock(k)) && |r.log| == 1
    ensures r.completion.Abrupt? <==>
              (outcome.Throws? && !suppress) || (outcome.Returns? && IsFakeThenable(outcome.value))
  {
    var started := StartedAction(name, args);
    var startedAt := clock(k);
    match outcome
    case Throws(e) =>
      var failure := FailureTail(name, e, startedAt, clock(k + 1));
      if !suppress then Run([started] + failure, Abrupt(e), 2)
      // `failed` returned normally and `result` is still undefined, so
      // control goes on to `succeeded(undefined)`.
      else Run([started] + failure + SuccessTail(name, Undefined, startedAt, clock(k + 2)), Normal(Undefined), 3)
    case Returns(v) =>
      if v.Promise? then Run([started], Pending(Chain(v.state, startedAt)), 1)
      else if IsPromise(v) then Run([started], Abrupt(ThenIsNotAFunction), 1)
      else Run([started] + SuccessTail(name, v, startedAt, clock(k + 1)), Normal(v), 2)
  }

  /** What the chained promise's continuation does once the source promise
      has settled, given the clock reading it takes: one of SUCCEEDED and
      FAILED, then ENDED; the chained promise fulfils like the source, and
      is rejected only for a rejection with suppression off. */
  function SettleRun(name: string, suppress: bool, chain: Chain, endedAt: int): (s: Settle)
    ensures |s.log| == 2 && s.log[1] == EndedAction(name, chain.startedAt, endedAt)
    ensures chain.source.Fulfilled? ==> s.log[0] == SucceededAction(name, chain.source.value) && s.settlement == chain.source
    ensures chain.source.Rejected? ==> s.log[0] == FailedAction(name, chain.source.reason)
    ensures s.settlement.Rejected? <==> chain.source.Rejected? && !suppress
  {
    match chain.source
    case Fulfilled(v) =>
      Settle(SuccessTail(name, v, chain.startedAt, endedAt), Fulfilled(v))
    case Rejected(e) =>
      Settle(FailureTail(name, e, chain.startedAt, endedAt), if suppress then Fulfilled(Undefined) else Rejected(e))
  }

  /** Every action one invocation dispatches, the continuation (if any)
      included, when the continuation takes the next clock reading. */
  function FullLog(name: string, suppress: bool, args: seq<JsValue>, outcome: Outcome,
                   clock: nat -> int, k: nat): seq<Action>
  {
    var run := SyncRun(name, suppress, args, outcome, clock, k);
    if run.completion.Pending?
    then run.log + SettleRun(name, suppress, run.completion.chain, clock(k + run.clockReads)).log
    else run.log
  }

  /** The phases a log announces, for the factory called `name`. */
  function Phases(name: string, log: seq<Action>): (ps: seq<Option<Phase>>)
    ensures |ps| == |log|
    ensures forall i :: 0 <= i < |log| ==> ps[i] == PhaseOf(name, log[i].actionType)
  {
    if log == [] then [] else [PhaseOf(name, log[0].actionType)] + Phases(name, log[1..])
  }

  /** The lifecycle the factory is designed to announce: STARTED, exactly one
      of SUCCEEDED and FAILED, then ENDED. */
  predicate IsLifecycle(ps: seq<Option<Phase>>) {
    ps == [Some(Started), Some(Succeeded), Some(Ended)] ||
    ps == [Some(Started), Some(Failed), Some(Ended)]
  }

  /** The two inputs for which the source departs from that lifecycle: a
      synchronous throw with suppression on, and a non-promise value with
      truthy `then` and `catch`. */
  predicate Irregular(suppress: bool, outcome: Outcome) {
    (outcome.Throws? && suppress) || (outcome.Returns? && IsFakeThenable(outcome.value))
  }

  /** The clock never runs backwards. */
  ghost predicate Monotone(clock: nat -> int) {
    forall i: nat, j: nat :: i <= j ==> clock(i) <= clock(j)
  }

  /** The `elapsed` field of an action's payload, when there is one. */
  function ElapsedOf(a: Action): Option<int> {
    if a.payload.Some? && a.payload.value.Obj? && "elapsed" in a.payload.value.props
       && a.payload.value.props["elapsed"].Num?
    then Some(a.payload.value.props["elapsed"].n)
    else None
  }
}
