/** `createActionThunk(type, fn, suppressException)`: the factory object with
    its attached properties, and the thunk it returns for each call, run
    against a store that records what is dispatched and a clock. */
module Thunk {
  import opened JsValues
  import opened ReduxActions
  import opened ActionTypes
  import opened Lifecycle
  import opened PropertyList
  import opened LifecycleProofs

  /** A store that records every plain action dispatched to it, in order. */
  class Store {
    var log: seq<Action>

    constructor ()
      ensures log == []
    {
      log := [];
    }

    method Dispatch(a: Action)
      modifies this
      ensures log == old(log) + [a]
    {
      log := log + [a];
    }
  }

  /** `(new Date()).getTime()`: the `count`-th call reads `ticks(count)`. */
  class Clock {
    const ticks: nat -> int
    var count: nat

    constructor (ticks: nat -> int)
      ensures this.ticks == ticks && count == 0
    {
      this.ticks := ticks;
      count := 0;
    }

    method Now() returns (t: int)
      modifies this
      ensures t == ticks(old(count)) && count == old(count) + 1
    {
      t := ticks(count);
      count := count + 1;
    }
  }

  /** The properties `createActionThunk` attaches to the factory, in the
      order it attaches them: six distinct keys, START and STARTED holding
      the same STARTED type. */
  function FactoryProperties(typeName: string): (ps: seq<Property>)
    ensures |ps| == 6
    ensures forall i, j :: 0 <= i < j < |ps| ==> ps[i].key != ps[j].key
    ensures ps[0].value == typeName && ps[1].value == ps[2].value == TypeOf(typeName, Started)
  {
    [ Property("NAME", typeName),
      Property("START", TypeOf(typeName, Started)),
      Property("STARTED", TypeOf(typeName, Started)),
      Property("SUCCEEDED", TypeOf(typeName, Phase.Succeeded)),
      Property("FAILED", TypeOf(typeName, Phase.Failed)),
      Property("ENDED", TypeOf(typeName, Ended)) ]
  }

  /** The action creator returned by `createActionThunk`. */
  class ActionThunk {
    const name: string
    const fn: seq<JsValue> -> Outcome
    const suppressException: bool
    /** The factory's own enumerable properties (its `Symbol.iterator` is
        keyed by a symbol and is not among them). */
    var props: seq<Property>

    constructor (typeName: string, fn: seq<JsValue> -> Outcome, suppressException: bool)
      ensures name == typeName && this.fn == fn && this.suppressException == suppressException
      ensures props == FactoryProperties(typeName)
    {
      name := typeName;
      this.fn := fn;
      this.suppressException := suppressException;
      props := [];
      new;
      Attach("NAME", typeName);
      assert props == FactoryProperties(typeName)[..1];
      Attach("START", TypeOf(typeName, Started));
      AssignAbsent([Property("NAME", typeName)], "START", TypeOf(typeName, Started));
      var start := Get("START");
      assert props == FactoryProperties(typeName)[..2];
      ValueAtFirst(props, "START", 1);
      assert start == Some(TypeOf(typeName, Started));
      Attach("STARTED", start.value);
      AssignAbsent(FactoryProperties(typeName)[..2], "STARTED", start.value);
      assert props == FactoryProperties(typeName)[..3];
      Attach("SUCCEEDED", TypeOf(typeName, Phase.Succeeded));
      AssignAbsent(FactoryProperties(typeName)[..3], "SUCCEEDED", TypeOf(typeName, Phase.Succeeded));
      assert props == FactoryProperties(typeName)[..4];
      Attach("FAILED", TypeOf(typeName, Phase.Failed));
      AssignAbsent(FactoryProperties(typeName)[..4], "FAILED", TypeOf(typeName, Phase.Failed));
      assert props == FactoryProperties(typeName)[..5];
      Attach("ENDED", TypeOf(typeName, Ended));
      AssignAbsent(FactoryProperties(typeName)[..5], "ENDED", TypeOf(typeName, Ended));
      assert props == FactoryProperties(typeName)[..6];
    }

    /** `factory[key] = value`. */
    method Attach(key: string, value: string)
      modifies this
      ensures props == Assign(old(props), key, value)
    {
      var i := 0;
      while i < |props| && props[i].key != key
        invariant 0 <= i <= |props|
        invariant forall j :: 0 <= j < i ==> props[j].key != key
      {
        i := i + 1;
      }
      if i < |props| {
        AssignAtFirst(props, key, value, i);
        props := props[i := Property(key, value)];
      } else {
        AssignAbsent(props, key, value);
        props := props + [Property(key, value)];
      }
    }

    /** `factory[key]`. */
    method Get(key: string) returns (r: Option<string>)
      ensures r == ValueAt(props, key)
    {
      var i := 0;
      while i < |props| && props[i].key != key
        invariant 0 <= i <= |props|
        invariant forall j :: 0 <= j < i ==> props[j].key != key
      {
        i := i + 1;
      }
      ValueAtFirst(props, key, i);
      r := if i < |props| then Some(props[i].value) else None;
    }

    /** `[...factory]`: the iterator yields `Object.values(factory)`. */
    method Iterate() returns (vs: seq<string>)
      ensures |vs| == |props|
      ensures forall i :: 0 <= i < |props| ==> vs[i] == props[i].value
    {
      vs := [];
      var i := 0;
      while i < |props|
        invariant 0 <= i <= |props|
        invariant |vs| == i
        invariant forall j :: 0 <= j < i ==> vs[j] == props[j].value
      {
        vs := vs + [props[i].value];
        i := i + 1;
      }
    }

    /** `succeeded(data)`. */
    method Succeeded(data: JsValue, startedAt: int, store: Store, clock: Clock) returns (r: JsValue)
      modifies store, clock
      ensures store.log == old(store.log) + SuccessTail(name, data, startedAt, clock.ticks(old(clock.count)))
      ensures clock.count == old(clock.count) + 1
      ensures r == data
    {
      store.Dispatch(SucceededAction(name, data));
      var endedAt := clock.Now();
      store.Dispatch(EndedAction(name, startedAt, endedAt));
      r := data;
    }

    /** `failed(err)`; `rethrown` tells whether it ends by throwing `err`. */
    method Failed(err: JsValue, startedAt: int, store: Store, clock: Clock) returns (rethrown: bool)
      modifies store, clock
      ensures store.log == old(store.log) + FailureTail(name, err, startedAt, clock.ticks(old(clock.count)))
      ensures clock.count == old(clock.count) + 1
      ensures rethrown == !suppressException
    {
      var endedAt := clock.Now();
      store.Dispatch(FailedAction(name, err));
      store.Dispatch(EndedAction(name, startedAt, endedAt));
      rethrown := !suppressException;
    }

    /** `factory(...args)(dispatch, getState, extra)` up to the point where
        it gives control back to the caller. */
    method Invoke(args: seq<JsValue>, store: Store, clock: Clock) returns (c: Completion)
      modifies store, clock
      ensures var run := SyncRun(name, suppressException, args, fn(args), clock.ticks, old(clock.count));
        && store.log == old(store.log) + run.log
        && c == run.completion
        && clock.count == old(clock.count) + run.clockReads
    {
      var result := Undefined;
      var startedAt := clock.Now();
      store.Dispatch(StartedAction(name, args));
      match fn(args) {
        case Throws(e) =>
          var rethrown := Failed(e, startedAt, store, clock);
          if rethrown {
            return Abrupt(e);
          }
        case Returns(v) =>
          result := v;
      }
      if IsPromise(result) {
        if result.Promise? {
          return Pending(Chain(result.state, startedAt));
        }
        return Abrupt(ThenIsNotAFunction);
      }
      var data := Succeeded(result, startedAt, store, clock);
      c := Normal(data);
    }

    /** The continuation `then(succeeded, failed)` once the source promise
        has settled; `s` is how the chained promise settles. */
    method Resume(chain: Chain, store: Store, clock: Clock) returns (s: Settlement)
      modifies store, clock
      ensures var settle := SettleRun(name, suppressException, chain, clock.ticks(old(clock.count)));
        && store.log == old(store.log) + settle.log
        && s == settle.settlement
        && clock.count == old(clock.count) + 1
    {
      match chain.source {
        case Fulfilled(v) =>
          var data := Succeeded(v, chain.startedAt, store, clock);
          s := Fulfilled(data);
        case Rejected(e) =>
          var rethrown := Failed(e, chain.startedAt, store, clock);
          s := if rethrown then Rejected(e) else Fulfilled(Undefined);
      }
    }
  }

  /** `store.dispatch(factory(...args))` followed, when the thunk hands
      back a promise, by that promise's continuation: every action of the
      invocation, and whether they form the designed lifecycle. */
  method RunToCompletion(factory: ActionThunk, args: seq<JsValue>, store: Store, clock: Clock)
    modifies store, clock
    ensures var log := FullLog(factory.name, factory.suppressException, args, factory.fn(args), clock.ticks, old(clock.count));
      && store.log == old(store.log) + log
      && (IsLifecycle(Phases(factory.name, log)) <==> !Irregular(factory.suppressException, factory.fn(args)))
  {
    ghost var k := clock.count;
    ghost var before := store.log;
    ghost var run := SyncRun(factory.name, factory.suppressException, args, factory.fn(args), clock.ticks, k);
    ghost var log := FullLog(factory.name, factory.suppressException, args, factory.fn(args), clock.ticks, k);
    var c := factory.Invoke(args, store, clock);
    assert store.log == before + run.log && clock.count == k + run.clockReads;
    if c.Pending? {
      ghost var settle := SettleRun(factory.name, factory.suppressException, c.chain, clock.ticks(k + run.clockReads));
      assert log == run.log + settle.log;
      var _ := factory.Resume(c.chain, store, clock);
      assert store.log == before + log;
    } else {
      assert log == run.log;
    }
    LifecycleUnlessIrregular(factory.name, factory.suppressException, args, factory.fn(args), clock.ticks, k);
  }

  /** Iterating a fresh factory yields NAME, START, STARTED, SUCCEEDED,
      FAILED and ENDED, in that order; START and STARTED are the same type. */
  lemma {:induction false} FactoryIteration(typeName: string)
    ensures Values(FactoryProperties(typeName)) ==
      [typeName, TypeOf(typeName, Started), TypeOf(typeName, Started),
       TypeOf(typeName, Phase.Succeeded), TypeOf(typeName, Phase.Failed), TypeOf(typeName, Ended)]
    ensures Keys(FactoryProperties(typeName)) == ["NAME", "START", "STARTED", "SUCCEEDED", "FAILED", "ENDED"]
  {
  }
}
