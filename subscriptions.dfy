/** The subscription registry (`subscribeList`) and the routing decision of
    `callSubscribe`. */
module Subscriptions {
  import opened Optional
  import opened Json

  /** A callback supplied by the application, identified by a token, or one
      of the empty callbacks the heartbeat registers. */
  datatype Handler = Callback(id: nat) | NoOp

  /** The handler pair stored for a channel. */
  datatype Handlers = Handlers(onMessage: Handler, onError: Option<Handler>)

  /** `subscribeList`: channel name to handler pair. */
  type Registry = map<string, Handlers>

  /** The field of an inbound envelope that carries its status. */
  const STATUS_FIELD: string := "status"

  /** Names every plain JavaScript object inherits from Object.prototype:
      `subscribeList[name]` is truthy for them even when nothing was
      subscribed under that name. */
  const INHERITED: set<string> := {
    "constructor", "__defineGetter__", "__defineSetter__", "hasOwnProperty",
    "__lookupGetter__", "__lookupSetter__", "isPrototypeOf",
    "propertyIsEnumerable", "toString", "valueOf", "__proto__", "toLocaleString"
  }

  /** `subscribeList[name] = handlers`. */
  function Register(r: Registry, name: string, h: Handlers): (r': Registry)
    ensures r'.Keys == r.Keys + {name}
    ensures r'[name] == h
    ensures forall c :: c in r && c != name ==> r'[c] == r[c]
  {
    r[name := h]
  }

  /** `if (subscribeList[c]) delete subscribeList[c]`: deleting a key that
      is not an own entry (absent, or inherited) leaves the object as it is. */
  function Unregister(r: Registry, name: string): (r': Registry)
    ensures r'.Keys == r.Keys - {name}
    ensures forall c :: c in r' ==> r'[c] == r[c]
    ensures name !in r ==> r' == r
  {
    r - {name}
  }

  /** The envelope `subscribe` sends:
      `{[subscribeName]: name, [subscribeDataName]: data}`. When both field
      names coincide the data overwrites the channel name. */
  function SubscribeEnvelope(channelField: string, dataField: string, name: string, data: Value): (env: Value)
    ensures env.Obj? && env.fields.Keys == {channelField, dataField}
    ensures Field(env, dataField) == data
    ensures channelField != dataField ==> Field(env, channelField) == Str(name)
  {
    Obj(map[channelField := Str(name)][dataField := data])
  }

  /** What `callSubscribe` does with one parsed inbound value. */
  datatype Routing =
    | MissingField                                // console diagnostic, envelope dropped
    | Unregistered                                // silently dropped
    | DeliverMessage(channel: string, handler: Handler)
    | DeliverError(channel: string, handler: Handler)
    | NoErrorHandler(channel: string)             // console diagnostic
    | OtherStatus(channel: string)                // silently dropped
    | TypeErrorThrown                             // a TypeError inside the try block

  /** Both the status and the channel field are truthy. */
  predicate Addressed(data: Value, channelField: string) {
    !data.Null? && !data.Undefined?
    && Truthy(Field(data, STATUS_FIELD)) && Truthy(Field(data, channelField))
  }

  /** The registry key an addressed envelope is looked up under. */
  function ChannelKey(data: Value, channelField: string): string
    requires !data.Null? && !data.Undefined?
  {
    ToKey(Field(data, channelField))
  }

  /** The routing decision of `callSubscribe` for the value `data` that
      `JSON.parse` produced, given the registry and the configured channel
      field name. */
  function Dispatch(r: Registry, channelField: string, data: Value): (out: Routing)
    // reading `.status` of null throws
    ensures data.Null? || data.Undefined? ==> out == TypeErrorThrown
    // a falsy status or channel: diagnostic, no handler
    ensures out == MissingField <==>
              !data.Null? && !data.Undefined? && !Addressed(data, channelField)
    // a channel that is neither registered nor inherited: nothing happens
    ensures out == Unregistered <==>
              Addressed(data, channelField)
              && ChannelKey(data, channelField) !in r
              && ChannelKey(data, channelField) !in INHERITED
    // 'success' on a registered channel: onMessage of that channel, only
    ensures out.DeliverMessage? <==>
              Addressed(data, channelField) && ChannelKey(data, channelField) in r
              && Field(data, STATUS_FIELD) == Str("success")
    ensures out.DeliverMessage? ==>
              out.channel == ChannelKey(data, channelField)
              && out.handler == r[out.channel].onMessage
    // 'error' on a registered channel with an error handler: that handler
    ensures out.DeliverError? <==>
              Addressed(data, channelField) && ChannelKey(data, channelField) in r
              && Field(data, STATUS_FIELD) == Str("error")
              && r[ChannelKey(data, channelField)].onError.Some?
    ensures out.DeliverError? ==>
              out.channel == ChannelKey(data, channelField)
              && Some(out.handler) == r[out.channel].onError
    // 'error' without an error handler: diagnostic
    ensures out.NoErrorHandler? <==>
              Addressed(data, channelField)
              && Field(data, STATUS_FIELD) == Str("error")
              && (ChannelKey(data, channelField) in r ==> r[ChannelKey(data, channelField)].onError.None?)
              && (ChannelKey(data, channelField) in r || ChannelKey(data, channelField) in INHERITED)
    ensures out.NoErrorHandler? ==> out.channel == ChannelKey(data, channelField)
    // any other status: nothing happens
    ensures out.OtherStatus? <==>
              Addressed(data, channelField)
              && (ChannelKey(data, channelField) in r || ChannelKey(data, channelField) in INHERITED)
              && Field(data, STATUS_FIELD) != Str("success")
              && Field(data, STATUS_FIELD) != Str("error")
    ensures out.OtherStatus? ==> out.channel == ChannelKey(data, channelField)
    // 'success' on an inherited name calls a missing `onMessage`
    ensures out == TypeErrorThrown <==>
              data.Null? || data.Undefined?
              || (Addressed(data, channelField)
                  && ChannelKey(data, channelField) !in r
                  && ChannelKey(data, channelField) in INHERITED
                  && Field(data, STATUS_FIELD) == Str("success"))
  {
    if data.Null? || data.Undefined? then TypeErrorThrown
    else
      var status := Field(data, STATUS_FIELD);
      var channel := Field(data, channelField);
      if !Truthy(status) || !Truthy(channel) then MissingField
      else
        var key := ToKey(channel);
        if key !in r && key !in INHERITED then Unregistered
        else if status == Str("success") then
          if key in r then DeliverMessage(key, r[key].onMessage) else TypeErrorThrown
        else if status == Str("error") then
          if key in r && r[key].onError.Some? then DeliverError(key, r[key].onError.value)
          else NoErrorHandler(key)
        else OtherStatus(key)
  }

  /** A reply that echoes what `subscribe` sent, with status 'success',
      reaches the onMessage handler that `subscribe` registered. */
  lemma SuccessReplyReachesSubscriber(r: Registry, channelField: string, dataField: string,
                                      name: string, data: Value, h: Handlers)
    requires name != "" && channelField != dataField && channelField != STATUS_FIELD
    ensures var reply := Obj(SubscribeEnvelope(channelField, dataField, name, data).fields
                             [STATUS_FIELD := Str("success")]);
            Dispatch(Register(r, name, h), channelField, reply) == DeliverMessage(name, h.onMessage)
  {
    var env := SubscribeEnvelope(channelField, dataField, name, data);
    var reply := Obj(env.fields[STATUS_FIELD := Str("success")]);
    assert Field(reply, channelField) == Str(name);
    assert Field(reply, STATUS_FIELD) == Str("success");
  }

  /** The matching 'error' reply reaches the registered error handler, or
      yields the diagnostic when none was registered; onMessage is never
      called for it. */
  lemma ErrorReplyReachesSubscriber(r: Registry, channelField: string, dataField: string,
                                    name: string, data: Value, h: Handlers)
    requires name != "" && channelField != dataField && channelField != STATUS_FIELD
    ensures var reply := Obj(SubscribeEnvelope(channelField, dataField, name, data).fields
                             [STATUS_FIELD := Str("error")]);
            Dispatch(Register(r, name, h), channelField, reply)
              == if h.onError.Some? then DeliverError(name, h.onError.value) else NoErrorHandler(name)
  {
    var env := SubscribeEnvelope(channelField, dataField, name, data);
    var reply := Obj(env.fields[STATUS_FIELD := Str("error")]);
    assert Field(reply, channelField) == Str(name);
    assert Field(reply, STATUS_FIELD) == Str("error");
  }

  /** After `unsubscribe(name)` nothing addressed to `name` reaches a
      handler any more (unless the name is one every object inherits). */
  lemma UnsubscribedChannelIsDropped(r: Registry, channelField: string, data: Value)
    requires Addressed(data, channelField)
    requires ChannelKey(data, channelField) !in INHERITED
    ensures Dispatch(Unregister(r, ChannelKey(data, channelField)), channelField, data) == Unregistered
  {
  }

  /** Subscribing twice to one name leaves one registration, the second. */
  lemma ResubscribeOverwrites(r: Registry, name: string, h1: Handlers, h2: Handlers)
    ensures Register(Register(r, name, h1), name, h2) == Register(r, name, h2)
  {
  }

  /** `unsubscribe` is idempotent. */
  lemma UnsubscribeIdempotent(r: Registry, name: string)
    ensures Unregister(Unregister(r, name), name) == Unregister(r, name)
  {
  }
}
