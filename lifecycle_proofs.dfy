/** Properties of one invocation of a thunk made by `createActionThunk`: the
    order of the lifecycle actions, what the caller gets back and what ENDED
    reports. */
module LifecycleProofs {
  import opened JsValues
  import opened ReduxActions
  import opened ActionTypes
  import opened Lifecycle

  /** Each of the four action builders is recognised as its own phase. */
  lemma {:induction false} PhasesOfBuilders(name: string, args: seq<JsValue>, data: JsValue, err: JsValue, t0: int, t1: int)
    ensures PhaseOf(name, StartedAction(name, args).actionType) == Some(Started)
    ensures PhaseOf(name, SucceededAction(name, data).actionType) == Some(Succeeded)
    ensures PhaseOf(name, FailedAction(name, err).actionType) == Some(Failed)
    ensures PhaseOf(name, EndedAction(name, t0, t1).actionType) == Some(Ended)
  {
    PhaseOfRoundTrip(name, Started);
    PhaseOfRoundTrip(name, Succeeded);
    PhaseOfRoundTrip(name, Failed);
    PhaseOfRoundTrip(name, Ended);
  }

  /** The phases one invocation announces, outcome by outcome: STARTED;
      then FAILED and ENDED for a throw, followed by SUCCEEDED and ENDED when
      the throw is suppressed; SUCCEEDED and ENDED for a value or a fulfilled
      promise; FAILED and ENDED for a rejected promise; nothing more for a
      fake thenable, whose `then` call throws. */
  function ExpectedPhases(suppress: bool, outcome: Outcome): seq<Option<Phase>> {
    match outcome
    case Throws(_) =>
      if suppress
      then [Some(Started), Some(Failed), Some(Ended), Some(Succeeded), Some(Ended)]
      else [Some(Started), Some(Failed), Some(Ended)]
    case Returns(v) =>
      if v.Promise? && v.state.Rejected? then [Some(Started), Some(Failed), Some(Ended)]
      else if IsFakeThenable(v) then [Some(Started)]
      else [Some(Started), Some(Succeeded), Some(Ended)]
  }

  lemma {:induction false} FullPhases(name: string, suppress: bool, args: seq<JsValue>, outcome: Outcome,
                                      clock: nat -> int, k: nat)
    ensures Phases(name, FullLog(name, suppress, args, outcome, clock, k)) == ExpectedPhases(suppress, outcome)
  {
    var log := FullLog(name, suppress, args, outcome, clock, k);
    var t0, t1, t2 := clock(k), clock(k + 1), clock(k + 2);
    match outcome
    case Throws(e) =>
      PhasesOfBuilders(name, args, Undefined, e, t0, t1);
      PhasesOfBuilders(name, args, Undefined, e, t0, t2);
    case Returns(v) =>
      if v.Promise? {
        match v.state
        case Fulfilled(x) => PhasesOfBuilders(name, args, x, Undefined, t0, t1);
        case Rejected(e) => PhasesOfBuilders(name, args, Undefined, e, t0, t1);
      } else {
        PhasesOfBuilders(name, args, v, Undefined, t0, t1);
      }
  }

  /** Every invocation dispatches `{type: STARTED, payload: args}` first,
      whatever the wrapped function then does, and announces STARTED only
      once; every action it dispatches carries one of the factory's four
      types. */
  lemma {:induction false} StartedFirst(name: string, suppress: bool, args: seq<JsValue>, outcome: Outcome,
                                        clock: nat -> int, k: nat)
    ensures var log := FullLog(name, suppress, args, outcome, clock, k);
      && |log| >= 1
      && log[0] == StartedAction(name, args)
      && log[0].payload == Some(Arr(args))
      && forall i :: 0 < i < |log| ==> PhaseOf(name, log[i].actionType).Some? && PhaseOf(name, log[i].actionType) != Some(Started)
  {
    FullPhases(name, suppress, args, outcome, clock, k);
  }

  /** An invocation announces exactly STARTED, one of SUCCEEDED and FAILED,
      and ENDED, if and only if it is not one of the two irregular cases: a
      synchronous throw with suppression on (which goes on to `succeeded`
      after `failed`), or a fake thenable (whose `then` call throws before
      any outcome is announced). */
  lemma {:induction false} LifecycleUnlessIrregular(name: string, suppress: bool, args: seq<JsValue>, outcome: Outcome,
                                                    clock: nat -> int, k: nat)
    ensures IsLifecycle(Phases(name, FullLog(name, suppress, args, outcome, clock, k))) <==> !Irregular(suppress, outcome)
  {
    FullPhases(name, suppress, args, outcome, clock, k);
  }

  /** ENDED is the last action of an invocation, except when a fake thenable
      makes the thunk throw right after STARTED. */
  lemma {:induction false} EndedLast(name: string, suppress: bool, args: seq<JsValue>, outcome: Outcome,
                                     clock: nat -> int, k: nat)
    ensures var log := FullLog(name, suppress, args, outcome, clock, k);
      PhaseOf(name, log[|log| - 1].actionType) == Some(Ended)
      <==> !(outcome.Returns? && IsFakeThenable(outcome.value))
  {
    FullPhases(name, suppress, args, outcome, clock, k);
  }

  /** What the caller of the thunk gets back: the wrapped function's value
      unchanged, its exception re-thrown (or `undefined` when suppressed), or
      the chained promise, which settles like the source promise except that
      a suppressed rejection fulfils with `undefined`. */
  lemma {:induction false} CallerSeesOutcome(name: string, suppress: bool, args: seq<JsValue>, outcome: Outcome,
                                             clock: nat -> int, k: nat)
    ensures var c := SyncRun(name, suppress, args, outcome, clock, k).completion;
      match outcome
      case Throws(e) => c == (if suppress then Normal(Undefined) else Abrupt(e))
      case Returns(v) =>
        if v.Promise? then
          && c == Pending(Chain(v.state, clock(k)))
          && SettleRun(name, suppress, c.chain, clock(k + 1)).settlement
             == (if v.state.Rejected? && suppress then Fulfilled(Undefined) else v.state)
        else if IsPromise(v) then c == Abrupt(ThenIsNotAFunction)
        else c == Normal(v)
  {
  }

  /** With no exception, the synchronous log is exactly STARTED, SUCCEEDED,
      ENDED; with a promise it is STARTED alone, the rest following when the
      promise settles. */
  lemma {:induction false} SynchronousLog(name: string, suppress: bool, args: seq<JsValue>, v: JsValue,
                                         clock: nat -> int, k: nat)
    ensures var run := SyncRun(name, suppress, args, Returns(v), clock, k);
      && (!IsPromise(v) ==> run.log == [StartedAction(name, args), SucceededAction(name, v), EndedAction(name, clock(k), clock(k + 1))])
      && (IsPromise(v) ==> run.log == [StartedAction(name, args)])
  {
  }

  /** After a synchronous throw the log is STARTED, FAILED with the error,
      and ENDED with the first end reading; with suppression on, control
      falls through to `succeeded(undefined)`, which adds SUCCEEDED with no
      payload and a second ENDED. */
  lemma {:induction false} ThrowLog(name: string, suppress: bool, args: seq<JsValue>, e: JsValue,
                                    clock: nat -> int, k: nat)
    ensures var run := SyncRun(name, suppress, args, Throws(e), clock, k);
      && |run.log| >= 3
      && run.log[..3] == [StartedAction(name, args), FailedAction(name, e), EndedAction(name, clock(k), clock(k + 1))]
      && (suppress ==> run.log[3..] == [SucceededAction(name, Undefined), EndedAction(name, clock(k), clock(k + 2))])
      && (!suppress ==> |run.log| == 3)
  {
  }

  /** Every ENDED action reports `elapsed` as its own reading minus the start
      reading; with a clock that never runs backwards it is never negative. */
  lemma {:induction false} ElapsedNonNegative(name: string, suppress: bool, args: seq<JsValue>, outcome: Outcome,
                                              clock: nat -> int, k: nat)
    requires Monotone(clock)
    ensures var log := FullLog(name, suppress, args, outcome, clock, k);
      forall i :: 0 <= i < |log| && PhaseOf(name, log[i].actionType) == Some(Ended) ==>
        ElapsedOf(log[i]).Some? && ElapsedOf(log[i]).value >= 0
  {
    var log := FullLog(name, suppress, args, outcome, clock, k);
    FullPhases(name, suppress, args, outcome, clock, k);
    var ps := Phases(name, log);
    assert clock(k) <= clock(k + 1) <= clock(k + 2);
    forall i | 0 <= i < |log| && PhaseOf(name, log[i].actionType) == Some(Ended)
      ensures ElapsedOf(log[i]).Some? && ElapsedOf(log[i]).value >= 0
    {
      assert ps[i] == Some(Ended);
      assert i == 2 || i == 4;
      if i == 2 {
        assert log[2] == EndedAction(name, clock(k), clock(k + 1));
      } else {
        assert log[4] == EndedAction(name, clock(k), clock(k + 2));
      }
    }
  }
}
