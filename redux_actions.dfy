/** The action record and the part of `createAction` (from the redux-actions
    library) that the factory relies on. The library itself is not part of
    this model; only the behaviour the test suite observes is assumed. */
module ReduxActions {
  import opened JsValues

  /** A flux standard action: `{type, payload?, meta?, error?}`. An absent
      field is `None`; `error` is present only as `true`. */
  datatype Action = Action(actionType: string, payload: Option<JsValue>, meta: Option<JsValue>, error: bool)

  /** `createAction(type)(payload)`: the identity payload creator. The
      `payload` field is left out when the payload is `undefined`, and
      `error: true` marks a payload that is an `Error`. */
  function CreateAction(actionType: string, payload: JsValue): (a: Action)
    ensures a.actionType == actionType && a.meta == None
    ensures a.payload == None <==> payload == Undefined
    ensures a.payload != None ==> a.payload.value == payload
    ensures a.error <==> IsError(payload)
  {
    Action(actionType, if payload == Undefined then None else Some(payload), None, IsError(payload))
  }

  /** `createAction(type, ({payload}) => payload, ({meta}) => meta)(data)`:
      the payload creator picks `data.payload`, and a meta creator always
      sets the `meta` field, even to `undefined`. */
  function CreateActionWithMeta(actionType: string, data: JsValue): (a: Action)
    requires !data.Undefined? && !data.Null?
    ensures a.actionType == actionType
    ensures a.payload == None <==> Prop(data, "payload") == Undefined
    ensures a.payload != None ==> a.payload.value == Prop(data, "payload")
    ensures a.meta == Some(Prop(data, "meta"))
    ensures a.error <==> IsError(Prop(data, "payload"))
  {
    var payload := Prop(data, "payload");
    Action(actionType, if payload == Undefined then None else Some(payload), Some(Prop(data, "meta")), IsError(payload))
  }
}
