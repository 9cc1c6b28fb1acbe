/** The client class `EasyWebSocket`: its fields, its public operations, and
    the four transport events as methods the environment calls. The
    WebSocket itself is abstracted to a ready state, a count of sockets
    opened, the log of texts put on the wire and the log of close requests. */
module Client {
  import opened Optional
  import opened Json
  import opened Options
  import opened Subscriptions
  import opened PendingQueue
  import opened Reconnection

  /** "Normal closure", the default close code (section 7.4.1 of RFC 6455). */
  const NORMAL_CLOSURE: int := 1000

  /** The channel the heartbeat subscribes to on every tick. */
  const HEARTBEAT_CHANNEL: string := "ping"

  /** The ready state of the current WebSocket. */
  datatype ReadyState = Connecting | Open | Closing | Closed

  /** The exceptions an operation or event handler throws. */
  datatype Fault =
    | ReconnectLimit(max: int)   // '[socket]: maximum reconnect times of ' + max
    | Unparsable(text: string)   // '[socket]: data' + text + 'cannot be parsed json'
    | ReplyTimeout               // '[socket]: received websocket message timeout'

  /** The console diagnostics the client prints. */
  datatype Diagnostic = MissingStatusOrChannel | MissingErrorHandler | ReconnectNotice

  /** Calls into application code and console output, in order. */
  datatype Event =
    | OpenHook                                  // options.onOpen(ev)
    | MessageHook(data: Value)                  // this.onmessage(data, ev)
    | ErrorHook                                 // this.onerror(socket, ev)
    | CloseHook                                 // this.onclose(socket, ev)
    | Invoke(handler: Handler, data: Value)     // a subscription handler
    | Report(diagnostic: Diagnostic)            // console.error(...)

  /** What `callSubscribe` adds to the event log for a routing decision. */
  function Reaction(out: Routing, data: Value): seq<Event> {
    match out
    case MissingField => [Report(MissingStatusOrChannel)]
    case DeliverMessage(_, h) => [Invoke(h, data)]
    case DeliverError(_, h) => [Invoke(h, data)]
    case NoErrorHandler(_) => [Report(MissingErrorHandler)]
    case _ => []
  }

  /** Whether `callSubscribe` ends in an exception: a TypeError inside its
      try block, or a handler that throws. */
  predicate Throws(out: Routing, handlerThrows: bool) {
    out == TypeErrorThrown || ((out.DeliverMessage? || out.DeliverError?) && handlerThrows)
  }

  /** The text `send(data, json)` transmits. */
  function MessageText(data: Value, json: bool): Text {
    if json then Encoded(data) else Blank
  }

  /** The class-level slot `EasyWebSocket.instance`. */
  class Singleton {
    var instance: EasyWebSocket?

    constructor ()
      ensures instance == null
    {
      instance := null;
    }
  }

  class EasyWebSocket {
    const statics: Singleton

    var url: string
    var options: Options
    var queue: seq<Text>
    var subscriptions: Registry
    var reconnectTimes: nat
    /** A reply watchdog (`timer`) is armed and not cleared. */
    var watchdogArmed: bool
    /** Heartbeat intervals started; the handle is never stored, so none is
        ever cleared. */
    var intervals: nat

    /** Whether the application has assigned the public hooks. */
    var onmessageHook: bool
    var onerrorHook: bool
    var oncloseHook: bool

    /** The abstract transport. */
    var readyState: ReadyState
    var connections: nat
    var sent: seq<Text>
    var closeRequests: seq<(int, Option<string>)>

    var events: seq<Event>

    /** The object invariant: the options are in resolved form and the
        reconnect counter is within its budget. */
    ghost predicate Valid()
      reads this`options, this`reconnectTimes
    {
      Resolved(options) && WithinBudget(reconnectTimes, options.maxReconnectTimes)
    }

    /** `new EasyWebSocket(url, options)` when no instance exists: store the
        url, default the options, connect (always, since `manualOpen` is
        always true) and become the instance. */
    constructor (url: string, settings: Settings, statics: Singleton)
      modifies statics
      ensures Valid()
      ensures this.statics == statics && statics.instance == this
      ensures this.url == url && options == AssignOptions(settings)
      ensures readyState == Connecting && connections == 1
      ensures queue == [] && subscriptions == map[] && reconnectTimes == 0
      ensures !watchdogArmed && intervals == 0
      ensures !onmessageHook && !onerrorHook && !oncloseHook
      ensures sent == [] && closeRequests == [] && events == []
    {
      this.statics := statics;
      this.url := url;
      options := AssignOptions(settings);
      queue := [];
      subscriptions := map[];
      reconnectTimes := 0;
      watchdogArmed := false;
      intervals := 0;
      onmessageHook, onerrorHook, oncloseHook := false, false, false;
      readyState := Closed;
      connections := 0;
      sent, closeRequests, events := [], [], [];
      new;
      if options.manualOpen {
        Connect();
      }
      statics.instance := this;
    }

    /** `connect`: open a new WebSocket to the url and wire its events. */
    method Connect()
      modifies this`readyState, this`connections
      ensures readyState == Connecting && connections == old(connections) + 1
    {
      connections := connections + 1;
      readyState := Connecting;
    }

    /** The open event: call the open hook, start a heartbeat interval, run
        the queue once. */
    method OnOpen()
      requires Valid() && readyState == Connecting
      modifies this`readyState, this`events, this`intervals, this`queue, this`sent, this`watchdogArmed
      ensures Valid()
      ensures readyState == Open
      ensures events == old(events) + (if options.onOpen then [OpenHook] else [])
      ensures intervals == old(intervals) + 1
      ensures queue == Kept(old(queue))
      ensures sent == old(sent) + Executed(old(queue))
      ensures watchdogArmed == (old(watchdogArmed) || old(queue) != [])
    {
      readyState := Open;
      if options.onOpen {
        events := events + [OpenHook];
      }
      StartHeartbeat();
      RunQueue();
    }

    /** The message event. `parsed` is what `JSON.parse(text)` returns, or
        None when it throws; `hookThrows` and `handlerThrows` say whether the
        application's message hook or the handler routed to throws. Any of
        these exceptions is rethrown as the parse error and skips the final
        queue run. */
    method OnMessage(text: string, parsed: Option<Value>, hookThrows: bool, handlerThrows: bool)
      returns (err: Option<Fault>)
      requires Valid() && readyState == Open
      modifies this`reconnectTimes, this`watchdogArmed, this`events, this`queue, this`sent
      ensures Valid()
      ensures reconnectTimes == 0
      ensures parsed.None? ==>
                err == Some(Unparsable(text)) && !watchdogArmed
                && events == old(events) && queue == old(queue) && sent == old(sent)
      ensures parsed.Some? && onmessageHook && hookThrows ==>
                err == Some(Unparsable(text)) && !watchdogArmed
                && events == old(events) + [MessageHook(parsed.value)]
                && queue == old(queue) && sent == old(sent)
      ensures parsed.Some? && !(onmessageHook && hookThrows) ==>
                var out := Dispatch(subscriptions, options.subscribeName, parsed.value);
                && events == old(events) + (if onmessageHook then [MessageHook(parsed.value)] else [])
                                         + Reaction(out, parsed.value)
                && (Throws(out, handlerThrows) ==>
                      err == Some(Unparsable(text)) && !watchdogArmed
                      && queue == old(queue) && sent == old(sent))
                && (!Throws(out, handlerThrows) ==>
                      err == None && watchdogArmed == (old(queue) != [])
                      && queue == Kept(old(queue)) && sent == old(sent) + Executed(old(queue)))
    {
      reconnectTimes := 0;
      watchdogArmed := false;
      if parsed.None? {
        return Some(Unparsable(text));
      }
      var data := parsed.value;
      if onmessageHook {
        events := events + [MessageHook(data)];
        if hookThrows {
          return Some(Unparsable(text));
        }
      }
      var out := CallSubscribe(data);
      if Throws(out, handlerThrows) {
        return Some(Unparsable(text));
      }
      RunQueue();
      err := None;
    }

    /** The error event, which the socket fires once it is closed: clear the
        instance, reconnect (which may throw, ending the handler), call the
        error hook and print the reconnect notice. */
    method OnError() returns (err: Option<Fault>)
      requires Valid()
      modifies this`readyState, this`reconnectTimes, this`connections, this`events, statics
      ensures Valid()
      ensures statics.instance == null
      ensures old(reconnectTimes) > options.maxReconnectTimes ==>
                err == Some(ReconnectLimit(options.maxReconnectTimes)) && readyState == Closed
                && reconnectTimes == old(reconnectTimes) && connections == old(connections)
                && events == old(events)
      ensures old(reconnectTimes) <= options.maxReconnectTimes ==>
                err == None && readyState == Connecting
                && reconnectTimes == old(reconnectTimes) + 1 && connections == old(connections) + 1
                && events == old(events) + (if onerrorHook then [ErrorHook] else []) + [Report(ReconnectNotice)]
    {
      statics.instance := null;
      readyState := Closed;
      err := Reconnect();
      if err.Some? {
        return;
      }
      if onerrorHook {
        events := events + [ErrorHook];
      }
      events := events + [Report(ReconnectNotice)];
    }

    /** The close event of the `socket`-th socket opened (sockets are numbered
        by `connections` at connect time). One opened before the latest
        reconnect has already been replaced, so the current socket is not
        affected; the handler still runs. */
    method OnClose(socket: nat)
      requires 1 <= socket <= connections
      modifies this`readyState, this`events, statics
      ensures statics.instance == null
      ensures readyState == if socket < connections then old(readyState) else Closed
      ensures events == old(events) + (if oncloseHook then [CloseHook] else [])
    {
      statics.instance := null;
      if socket == connections {
        readyState := Closed;
      }
      if oncloseHook {
        events := events + [CloseHook];
      }
    }

    /** The peer starts the closing handshake: the socket moves from open to
        closing before its close event fires, and sends made meanwhile are
        queued. The client has no handler for this transition. */
    method OnPeerClosing()
      requires readyState == Open
      modifies this`readyState
      ensures readyState == Closing
    {
      readyState := Closing;
    }

    /** `reconnect`: throw once the counter exceeds the maximum; otherwise,
        unless the socket is open, count the attempt and connect again. */
    method Reconnect() returns (err: Option<Fault>)
      requires Valid()
      modifies this`reconnectTimes, this`connections, this`readyState
      ensures Valid()
      ensures match Decide(old(reconnectTimes), options.maxReconnectTimes, old(readyState) == Open)
              case GiveUp =>
                err == Some(ReconnectLimit(options.maxReconnectTimes))
                && reconnectTimes == old(reconnectTimes) && connections == old(connections)
                && readyState == old(readyState)
              case StayOpen =>
                err == None && reconnectTimes == old(reconnectTimes)
                && connections == old(connections) && readyState == Open
              case Retry =>
                err == None && reconnectTimes == old(reconnectTimes) + 1
                && connections == old(connections) + 1 && readyState == Connecting
    {
      if reconnectTimes > options.maxReconnectTimes {
        return Some(ReconnectLimit(options.maxReconnectTimes));
      }
      if readyState != Open {
        reconnectTimes := reconnectTimes + 1;
        Connect();
      }
      err := None;
    }

    /** `send(data, json)`: transmit now when the socket is open, otherwise
        queue the transmission. */
    method Send(data: Value, json: bool := true)
      modifies this`sent, this`queue, this`watchdogArmed
      ensures readyState == Open ==>
                sent == old(sent) + [MessageText(data, json)] && queue == old(queue) && watchdogArmed
      ensures readyState != Open ==>
                queue == old(queue) + [MessageText(data, json)] && sent == old(sent)
                && watchdogArmed == old(watchdogArmed)
    {
      var message := MessageText(data, json);
      if readyState == Open {
        Transmit(message);
      } else {
        PushQueue(message);
      }
    }

    /** The `method` closure of `send`: put the text on the wire and arm the
        reply watchdog. */
    method Transmit(message: Text)
      requires readyState == Open
      modifies this`sent, this`watchdogArmed
      ensures sent == old(sent) + [message] && watchdogArmed
    {
      sent := sent + [message];
      watchdogArmed := true;
    }

    /** `subscribe`: send the subscription envelope, then register the
        handler pair under the name, replacing any earlier pair. */
    method Subscribe(name: string, data: Value, handlers: Handlers)
      modifies this`sent, this`queue, this`watchdogArmed, this`subscriptions
      ensures subscriptions == Register(old(subscriptions), name, handlers)
      ensures var t := Encoded(SubscribeEnvelope(options.subscribeName, options.subscribeDataName, name, data));
              && (readyState == Open ==> sent == old(sent) + [t] && queue == old(queue) && watchdogArmed)
              && (readyState != Open ==>
                    queue == old(queue) + [t] && sent == old(sent) && watchdogArmed == old(watchdogArmed))
    {
      Send(SubscribeEnvelope(options.subscribeName, options.subscribeDataName, name, data));
      subscriptions := subscriptions[name := handlers];
    }

    /** `callSubscribe`: route a parsed envelope and record what that does. */
    method CallSubscribe(data: Value) returns (out: Routing)
      modifies this`events
      ensures out == Dispatch(subscriptions, options.subscribeName, data)
      ensures events == old(events) + Reaction(out, data)
    {
      out := Dispatch(subscriptions, options.subscribeName, data);
      events := events + Reaction(out, data);
    }

    /** `unsubscribe`: drop the channel's registration, nothing else. */
    method Unsubscribe(channel: string)
      modifies this`subscriptions
      ensures subscriptions == Unregister(old(subscriptions), channel)
    {
      if channel in subscriptions {
        subscriptions := subscriptions - {channel};
      }
    }

    /** `close(code, reason)`: ask the socket to close and clear the
        instance. */
    method Close(code: int := NORMAL_CLOSURE, reason: Option<string> := None)
      modifies this`closeRequests, this`readyState, statics
      ensures closeRequests == old(closeRequests) + [(code, reason)]
      ensures readyState == if old(readyState) in {Connecting, Open} then Closing else old(readyState)
      ensures statics.instance == null
    {
      closeRequests := closeRequests + [(code, reason)];
      if readyState == Connecting || readyState == Open {
        readyState := Closing;
      }
      statics.instance := null;
    }

    /** `runQueue`: the `forEach` over the queue that splices out each
        element it has just run. */
    method RunQueue()
      requires readyState == Open
      modifies this`queue, this`sent, this`watchdogArmed
      ensures queue == Kept(old(queue))
      ensures sent == old(sent) + Executed(old(queue))
      ensures watchdogArmed == (old(watchdogArmed) || old(queue) != [])
    {
      ghost var q := queue;
      var i := 0;
      while i < |queue|
        invariant PassAt(q, queue, i)
        invariant sent == old(sent) + Executed(q)[..i]
        invariant watchdogArmed == (old(watchdogArmed) || i > 0)
      {
        PassStep(q, queue, i);
        Transmit(queue[i]);
        assert Executed(q)[..i + 1] == Executed(q)[..i] + [Executed(q)[i]];
        queue := queue[..i] + queue[i + 1..];
        i := i + 1;
      }
      PassEnd(q, queue, i);
      assert Executed(q)[..i] == Executed(q);
    }

    /** `pushQueue`: append at the tail. */
    method PushQueue(message: Text)
      modifies this`queue
      ensures queue == old(queue) + [message]
    {
      queue := queue + [message];
    }

    /** `startHeartbeat`: start one more interval; earlier ones keep running. */
    method StartHeartbeat()
      modifies this`intervals
      ensures intervals == old(intervals) + 1
    {
      intervals := intervals + 1;
    }

    /** One tick of a heartbeat interval: subscribe to the ping channel with
        empty handlers. */
    method HeartbeatTick()
      requires intervals > 0
      modifies this`sent, this`queue, this`watchdogArmed, this`subscriptions
      ensures subscriptions == Register(old(subscriptions), HEARTBEAT_CHANNEL, Handlers(NoOp, Some(NoOp)))
      ensures var t := Encoded(SubscribeEnvelope(options.subscribeName, options.subscribeDataName,
                                                 HEARTBEAT_CHANNEL, Undefined));
              && (readyState == Open ==> sent == old(sent) + [t] && queue == old(queue) && watchdogArmed)
              && (readyState != Open ==>
                    queue == old(queue) + [t] && sent == old(sent) && watchdogArmed == old(watchdogArmed))
    {
      Subscribe(HEARTBEAT_CHANNEL, Undefined, Handlers(NoOp, Some(NoOp)));
    }

    /** The reply watchdog fires: it throws the timeout error. */
    method OnWatchdogExpired() returns (err: Option<Fault>)
      requires watchdogArmed
      modifies this`watchdogArmed
      ensures err == Some(ReplyTimeout) && !watchdogArmed
    {
      watchdogArmed := false;
      err := Some(ReplyTimeout);
    }
  }

  /** `new EasyWebSocket(url, options)`: while an instance exists it is
      returned untouched (its url and options stay as they were); otherwise
      a new, connecting client becomes the instance. */
  method Construct(statics: Singleton, url: string, settings: Settings) returns (c: EasyWebSocket)
    modifies statics
    ensures old(statics.instance) != null ==>
              c == old(statics.instance) && statics.instance == c && unchanged(c)
    ensures old(statics.instance) == null ==>
              fresh(c) && c.Valid() && statics.instance == c && c.statics == statics
              && c.url == url && c.options == AssignOptions(settings)
              && c.readyState == Connecting && c.connections == 1
              && c.queue == [] && c.subscriptions == map[] && c.reconnectTimes == 0
              && !c.watchdogArmed && c.intervals == 0
              && !c.onmessageHook && !c.onerrorHook && !c.oncloseHook
              && c.sent == [] && c.closeRequests == [] && c.events == []
  {
    if statics.instance != null {
      return statics.instance;
    }
    c := new EasyWebSocket(url, settings, statics);
  }

  /** Three sends issued while connecting: the open event's queue run
      transmits the first and the third, the second waits for the next
      inbound message. A second construction returns the same client until
      `close` clears the instance. */
  method QueuedSendsScenario(x: Value, y: Value, z: Value, reply: Value)
  {
    var statics := new Singleton();
    var defaults := Settings(None, false, None, None, None, None, None);
    var c := Construct(statics, "ws://localhost", defaults);
    var again := Construct(statics, "ws://elsewhere", defaults);
    assert again == c && again.url == "ws://localhost";

    c.Send(x);
    c.Send(y);
    c.Send(z, false);
    assert c.queue == [Encoded(x), Encoded(y), Blank];
    c.OnOpen();
    assert Executed([Encoded(x), Encoded(y), Blank]) == [Encoded(x), Blank];
    assert Kept([Encoded(x), Encoded(y), Blank]) == [Encoded(y)];
    assert c.sent == [Encoded(x), Blank] && c.queue == [Encoded(y)];

    var err := c.OnMessage("{}", Some(Obj(map[])), false, false);
    assert err == None && c.sent == [Encoded(x), Blank, Encoded(y)] && c.queue == [];

    c.Close();
    assert c.closeRequests == [(NORMAL_CLOSURE, None)] && statics.instance == null;
    var next := Construct(statics, "ws://elsewhere", defaults);
    assert next != c && next.url == "ws://elsewhere";
  }
}
