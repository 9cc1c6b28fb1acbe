/** The options record of the client and its defaulting (`assignOptions`). */
module Options {
  import opened Optional

  const DEFAULT_TIMEOUT: int := 30 * 1000
  const DEFAULT_MAX_RECONNECT_TIMES: int := 10
  const DEFAULT_SUBSCRIBE_NAME: string := "channel"
  const DEFAULT_SUBSCRIBE_DATA_NAME: string := "data"
  const DEFAULT_HEARTBEAT_TIMEOUT: int := 30 * 1000

  /** What the application passes to the constructor; `None` is an omitted
      option. `onOpen` records whether an open hook was supplied. */
  datatype Settings = Settings(
    manualOpen: Option<bool>,
    onOpen: bool,
    timeout: Option<int>,
    maxReconnectTimes: Option<int>,
    subscribeName: Option<string>,
    subscribeDataName: Option<string>,
    heartbeatTimeout: Option<int>)

  /** The options the client works with once defaults are filled in. */
  datatype Options = Options(
    manualOpen: bool,
    onOpen: bool,
    timeout: int,
    maxReconnectTimes: int,
    subscribeName: string,
    subscribeDataName: string,
    heartbeatTimeout: int)

  /** Every option other than the optional `onOpen` hook is truthy: the form
      `assignOptions` always produces. */
  predicate Resolved(o: Options) {
    && o.manualOpen
    && o.timeout != 0
    && o.maxReconnectTimes != 0
    && o.subscribeName != ""
    && o.subscribeDataName != ""
    && o.heartbeatTimeout != 0
  }

  /** `supplied || default` for a number: 0 and `undefined` are falsy. */
  function NumberOr(supplied: Option<int>, default: int): int {
    if supplied.Some? && supplied.value != 0 then supplied.value else default
  }

  /** `supplied || default` for a string: '' and `undefined` are falsy. */
  function TextOr(supplied: Option<string>, default: string): string {
    if supplied.Some? && supplied.value != "" then supplied.value else default
  }

  /** Each option keeps a truthy supplied value and otherwise takes its
      default. `manualOpen || true` is true whatever was supplied. */
  function AssignOptions(s: Settings): (o: Options)
    ensures o.manualOpen
    ensures o.onOpen == s.onOpen
    ensures s.timeout.Some? && s.timeout.value != 0 ==> o.timeout == s.timeout.value
    ensures s.timeout.None? || s.timeout.value == 0 ==> o.timeout == DEFAULT_TIMEOUT
    ensures s.maxReconnectTimes.Some? && s.maxReconnectTimes.value != 0 ==>
              o.maxReconnectTimes == s.maxReconnectTimes.value
    ensures s.maxReconnectTimes.None? || s.maxReconnectTimes.value == 0 ==>
              o.maxReconnectTimes == DEFAULT_MAX_RECONNECT_TIMES
    ensures s.subscribeName.Some? && s.subscribeName.value != "" ==>
              o.subscribeName == s.subscribeName.value
    ensures s.subscribeName.None? || s.subscribeName.value == "" ==>
              o.subscribeName == DEFAULT_SUBSCRIBE_NAME
    ensures s.subscribeDataName.Some? && s.subscribeDataName.value != "" ==>
              o.subscribeDataName == s.subscribeDataName.value
    ensures s.subscribeDataName.None? || s.subscribeDataName.value == "" ==>
              o.subscribeDataName == DEFAULT_SUBSCRIBE_DATA_NAME
    ensures s.heartbeatTimeout.Some? && s.heartbeatTimeout.value != 0 ==>
              o.heartbeatTimeout == s.heartbeatTimeout.value
    ensures s.heartbeatTimeout.None? || s.heartbeatTimeout.value == 0 ==>
              o.heartbeatTimeout == DEFAULT_HEARTBEAT_TIMEOUT
    ensures Resolved(o)
  {
    Options(
      manualOpen := (s.manualOpen.Some? && s.manualOpen.value) || true,
      onOpen := s.onOpen,
      timeout := NumberOr(s.timeout, DEFAULT_TIMEOUT),
      maxReconnectTimes := NumberOr(s.maxReconnectTimes, DEFAULT_MAX_RECONNECT_TIMES),
      subscribeName := TextOr(s.subscribeName, DEFAULT_SUBSCRIBE_NAME),
      subscribeDataName := TextOr(s.subscribeDataName, DEFAULT_SUBSCRIBE_DATA_NAME),
      heartbeatTimeout := NumberOr(s.heartbeatTimeout, DEFAULT_HEARTBEAT_TIMEOUT))
  }

  /** The settings that supply every option of `o` explicitly. */
  function Supplied(o: Options): Settings {
    Settings(Some(o.manualOpen), o.onOpen, Some(o.timeout), Some(o.maxReconnectTimes),
             Some(o.subscribeName), Some(o.subscribeDataName), Some(o.heartbeatTimeout))
  }

  /** Resolved options are exactly the fixed points of defaulting: supplying
      them again changes nothing, and nothing else survives a second pass. */
  lemma ResolvedIsFixpoint(o: Options)
    ensures AssignOptions(Supplied(o)) == o <==> Resolved(o)
  {
  }

  /** Defaulting is idempotent. */
  lemma AssignOptionsIdempotent(s: Settings)
    ensures AssignOptions(Supplied(AssignOptions(s))) == AssignOptions(s)
  {
    ResolvedIsFixpoint(AssignOptions(s));
  }
}
