/** The situations of the repository's test suite, driven through the
    factory's methods and checked against their contracts alone. */
module Scenarios {
  import opened JsValues
  import opened ReduxActions
  import opened ActionTypes
  import opened Lifecycle
  import opened PropertyList
  import opened Thunk

  /** The four action types of a factory named "FETCH". */
  lemma FetchTypes()
    ensures TypeOf("FETCH", Started) == "FETCH_STARTED"
    ensures TypeOf("FETCH", Succeeded) == "FETCH_SUCCEEDED"
    ensures TypeOf("FETCH", Failed) == "FETCH_FAILED"
    ensures TypeOf("FETCH", Ended) == "FETCH_ENDED"
  {
  }

  /** `createActionThunk('FETCH', () => 3)` and `() => {}`: STARTED with the
      empty argument list, SUCCEEDED with the value (no payload field for
      `undefined`), ENDED, and the value handed back. */
  method SyncValue() {
    FetchTypes();
    var fetch := new ActionThunk("FETCH", _ => Returns(Num(3)), false);
    var store := new Store();
    var clock := new Clock(i => 1000 + 5 * i);
    var c := fetch.Invoke([], store, clock);
    assert c == Normal(Num(3));
    assert store.log[0] == Action("FETCH_STARTED", Some(Arr([])), None, false);
    assert store.log[1] == Action("FETCH_SUCCEEDED", Some(Num(3)), None, false);
    assert store.log[2] == Action("FETCH_ENDED", Some(ElapsedRecord(5)), None, false);
    assert store.log == [
      Action("FETCH_STARTED", Some(Arr([])), None, false),
      Action("FETCH_SUCCEEDED", Some(Num(3)), None, false),
      Action("FETCH_ENDED", Some(ElapsedRecord(5)), None, false)];

    var empty := new ActionThunk("FETCH", _ => Returns(Undefined), false);
    var store2 := new Store();
    c := empty.Invoke([], store2, clock);
    assert c == Normal(Undefined);
    assert |store2.log| == 3;
    assert store2.log[1] == Action("FETCH_SUCCEEDED", None, None, false);
  }

  /** `createActionThunk('FETCH', () => ({payload: 2, meta: 3}))` called with
      `1`: the payload and meta are taken out of the returned object. */
  method WithMeta() {
    FetchTypes();
    var data := Obj(map["payload" := Num(2), "meta" := Num(3)], false);
    var fetch := new ActionThunk("FETCH", _ => Returns(data), false);
    var store := new Store();
    var clock := new Clock(i => i);
    var c := fetch.Invoke([Num(1)], store, clock);
    assert c == Normal(data);
    assert |store.log| == 3;
    assert store.log[0] == Action("FETCH_STARTED", Some(Arr([Num(1)])), None, false);
    assert store.log[1] == Action("FETCH_SUCCEEDED", Some(Num(2)), Some(Num(3)), false);
  }

  /** A promise fulfilled with 10: only STARTED is dispatched before the
      thunk returns; SUCCEEDED and ENDED follow when it settles, and the
      chained promise yields 10. */
  method AsyncValue() {
    FetchTypes();
    var fetch := new ActionThunk("FETCH", _ => Returns(Promise(Fulfilled(Num(10)))), false);
    var store := new Store();
    var clock := new Clock(i => 50 * i);
    var c := fetch.Invoke([], store, clock);
    assert store.log == [Action("FETCH_STARTED", Some(Arr([])), None, false)];
    assert c.Pending?;
    var s := fetch.Resume(c.chain, store, clock);
    assert s == Fulfilled(Num(10));
    assert store.log[1..] == [
      Action("FETCH_SUCCEEDED", Some(Num(10)), None, false),
      Action("FETCH_ENDED", Some(ElapsedRecord(50)), None, false)];
  }

  /** `() => { throw new Error('boom!') }`: STARTED, FAILED with the error
      flagged, ENDED, and the same error re-thrown. With suppression on, the
      error is swallowed and control falls through to `succeeded(undefined)`. */
  method SyncThrow() {
    FetchTypes();
    var boom := Obj(map["message" := Str("boom!")], true);
    var fetch := new ActionThunk("FETCH", _ => Throws(boom), false);
    var store := new Store();
    var clock := new Clock(i => i);
    var c := fetch.Invoke([], store, clock);
    assert c == Abrupt(boom);
    assert |store.log| == 3;
    assert store.log[1] == Action("FETCH_FAILED", Some(boom), None, true);
    assert store.log[2].actionType == "FETCH_ENDED";

    var quiet := new ActionThunk("FETCH", _ => Throws(boom), true);
    var store2 := new Store();
    c := quiet.Invoke([], store2, clock);
    assert c == Normal(Undefined);
    assert |store2.log| == 5;
    assert store2.log[3] == Action("FETCH_SUCCEEDED", None, None, false);
    assert store2.log[4].actionType == "FETCH_ENDED";
  }

  /** A fresh factory exposes and yields its name and the four types. */
  method Introspection() {
    FetchTypes();
    var fetch := new ActionThunk("FETCH", _ => Returns(Undefined), false);
    var vs := fetch.Iterate();
    assert vs == ["FETCH", "FETCH_STARTED", "FETCH_STARTED", "FETCH_SUCCEEDED", "FETCH_FAILED", "FETCH_ENDED"];
    var started := fetch.Get("STARTED");
    assert started == Some("FETCH_STARTED");
  }
}
