/**
 * The subscription probe's event handlers (`onopen`, `onmessage`, `onerror`,
 * `onclose`) seen as one state machine over the two module-level variables
 * they share: the nullable subscription handle and the append-only queue of
 * received messages.
 *
 * Each handler becomes a method of `Probe` that returns the effects it asks
 * the runtime for, as a list of abstract actions, instead of performing them.
 * The UUID that `crypto.randomUUID` would produce on `connection_ack` is a
 * parameter of the message handler.
 */
module Probe {
  import opened Wrappers
  import HostName

  /**
   * A JavaScript value as far as strict equality with `null` or with a
   * string can tell: `undefined` (a missing property), `null`, a string, or
   * anything else (a number, a boolean, an array, an object), none of which
   * is `===` to `null` or to a string.
   */
  datatype JsValue = Undefined | Null | JsString(s: string) | OtherValue

  /**
   * What `JSON.parse` returns for one inbound frame: an object (only its
   * `type` and `id` properties steer the handler), `null`, or any other JSON
   * value (a number, a string, a boolean, an array), whose `type` and `id`
   * read as `undefined`.
   */
  datatype Parsed = ObjectValue(typ: JsValue, id: JsValue) | NullValue | OtherJson

  /** The envelopes the probe sends over the socket. */
  datatype Envelope =
    | ConnectionInit
      // `start`: the subscription document and the authorization extension
    | Start(id: string, query: string, host: string, apiKey: string)
      // `stop`: carries the handle as it is, `null` included
    | Stop(stopId: Option<string>)

  /** The effects a handler asks for. */
  datatype Action =
    | Send(envelope: Envelope)
      // POST of the echo mutation to the GraphQL endpoint; its result is only logged
    | FireMutation(endpoint: string, key: string)
      // a one-second timer that closes the socket and then exits with `code`
    | ScheduleCloseAndExit(code: int)
    | CloseSocket
    | Exit(code: int)

  /** The three command-line arguments. */
  datatype Config = Config(realtimeEndpoint: string, graphqlEndpoint: string, apiKey: string)

  /**
   * The argument check: `process.argv` must hold exactly five entries (the
   * runtime, the script and the three arguments); otherwise the probe prints
   * its usage and exits with status 1.
   */
  function Configure(argv: seq<string>): (r: Option<Config>)
    ensures r.Some? <==> |argv| == 5
    ensures r.Some? ==>
              r.value.realtimeEndpoint == argv[2]
              && r.value.graphqlEndpoint == argv[3]
              && r.value.apiKey == argv[4]
  {
    if |argv| != 5 then None else Some(Config(argv[2], argv[3], argv[4]))
  }

  const SubscriptionQuery := "\nsubscription OnEchoMessage {\n  onEchoMessage\n}\n"

  /** `message.type === t`; false for `null`, whose `type` cannot be read. */
  predicate HasType(m: Parsed, t: string) {
    m.ObjectValue? && m.typ == JsString(t)
  }

  /** `message.id`, where it can be read. */
  function IdOf(m: Parsed): JsValue {
    if m.ObjectValue? then m.id else Undefined
  }

  /** The handle as a JavaScript value: `null` until the first `connection_ack`. */
  function HandleValue(sub: Option<string>): JsValue {
    match sub
    case None => Null
    case Some(h) => JsString(h)
  }

  /**
   * `message.id === subscriptionId`. The handle is `null` or a string, and
   * against those strict equality is equality of the values above: a
   * missing id (`undefined`) never matches, an explicit `null` id matches
   * the initial `null` handle.
   */
  predicate Matches(m: Parsed, sub: Option<string>) {
    IdOf(m) == HandleValue(sub)
  }

  /** The four types the chain acts on; `ka` is matched but does nothing. */
  predicate Handled(m: Parsed) {
    HasType(m, "connection_ack") || HasType(m, "start_ack") || HasType(m, "data") || HasType(m, "error")
  }

  /** The one `start` envelope the probe sends for a handle. */
  function StartFor(cfg: Config, handle: string): Envelope {
    Start(handle, SubscriptionQuery, HostName.ExtractHost(cfg.graphqlEndpoint), cfg.apiKey)
  }

  /** The handle after a message, and the actions the message triggers. */
  datatype Reaction = Reaction(subscriptionId: Option<string>, actions: seq<Action>)

  /**
   * The `if / else if` chain of the message handler, after the message has
   * been queued.
   */
  function Dispatch(cfg: Config, sub: Option<string>, m: Parsed, freshId: string): (r: Reaction)
    // connection_ack replaces the handle every time it arrives; nothing else touches it
    ensures r.subscriptionId == (if HasType(m, "connection_ack") then Some(freshId) else sub)
    // connection_ack sends exactly one start, correlated by the new handle
    ensures HasType(m, "connection_ack") ==>
              r.actions == [Send(StartFor(cfg, r.subscriptionId.value))]
              && r.actions[0].envelope.host == HostName.ExtractHost(cfg.graphqlEndpoint)
              && r.actions[0].envelope.apiKey == cfg.apiKey
    // start_ack and data with an id that is not the handle are ignored
    ensures (HasType(m, "start_ack") || HasType(m, "data")) && !Matches(m, sub) ==> r.actions == []
    // a matching start_ack fires the mutation and sends nothing on the socket
    ensures HasType(m, "start_ack") && Matches(m, sub) ==>
              r.actions == [FireMutation(cfg.graphqlEndpoint, cfg.apiKey)]
    // a matching data sends one stop for the handle, then schedules close and exit 0
    ensures HasType(m, "data") && Matches(m, sub) ==>
              r.actions == [Send(Stop(sub)), ScheduleCloseAndExit(0)]
    // an error envelope closes the socket and exits 1, whatever the handle
    ensures HasType(m, "error") ==> r.actions == [CloseSocket, Exit(1)]
    // ka, unknown or missing types, non-objects and null do nothing
    ensures !Handled(m) ==> r.actions == []
  {
    if m.NullValue? then
      // reading `type` of null throws; the handler's catch swallows it
      Reaction(sub, [])
    else if HasType(m, "connection_ack") then
      Reaction(Some(freshId), [Send(StartFor(cfg, freshId))])
    else if HasType(m, "start_ack") && Matches(m, sub) then
      Reaction(sub, [FireMutation(cfg.graphqlEndpoint, cfg.apiKey)])
    else if HasType(m, "data") && Matches(m, sub) then
      Reaction(sub, [Send(Stop(sub)), ScheduleCloseAndExit(0)])
    else if HasType(m, "ka") then
      Reaction(sub, [])
    else if HasType(m, "error") then
      Reaction(sub, [CloseSocket, Exit(1)])
    else
      Reaction(sub, [])
  }

  /** The shared state of the handlers. */
  datatype State = State(subscriptionId: Option<string>, messageQueue: seq<Parsed>)

  /** `subscriptionId = null`, `messageQueue = []`. */
  const Initial := State(None, [])

  /** What the runtime delivers to the handlers. */
  datatype Event =
    | Opened
    | Received(m: Parsed, freshId: string)
    | Unparseable
    | SocketError
    | Closed

  /** The state after one event, and the actions it triggers. */
  datatype Outcome = Outcome(state: State, actions: seq<Action>)

  /** One handler invocation. */
  function Step(cfg: Config, s: State, e: Event): (r: Outcome)
    // the queue grows by the parsed message, and by nothing else
    ensures r.state.messageQueue == s.messageQueue + (if e.Received? then [e.m] else [])
    ensures e.Received? ==> Reaction(r.state.subscriptionId, r.actions)
                            == Dispatch(cfg, s.subscriptionId, e.m, e.freshId)
    ensures !e.Received? ==> r.state == s
    ensures e.Opened? ==> r.actions == [Send(ConnectionInit)]
    ensures e.Unparseable? ==> r.actions == []
    ensures e.SocketError? || e.Closed? ==> r.actions == [Exit(1)]
  {
    match e
    case Opened => Outcome(s, [Send(ConnectionInit)])
    case Received(m, freshId) =>
      var d := Dispatch(cfg, s.subscriptionId, m, freshId);
      Outcome(State(d.subscriptionId, s.messageQueue + [m]), d.actions)
    case Unparseable => Outcome(s, [])
    case SocketError => Outcome(s, [Exit(1)])
    case Closed => Outcome(s, [Exit(1)])
  }

  /** The probe's module-level state, one method per socket callback. */
  class Probe {
    const config: Config
    var subscriptionId: Option<string>
    var messageQueue: seq<Parsed>

    function Snapshot(): State
      reads this
    {
      State(subscriptionId, messageQueue)
    }

    constructor (config: Config)
      ensures this.config == config
      ensures Snapshot() == Initial
    {
      this.config := config;
      subscriptionId := None;
      messageQueue := [];
    }

    /** `ws.onopen`: send `connection_init`. */
    method Open() returns (actions: seq<Action>)
      ensures Outcome(Snapshot(), actions) == Step(config, Snapshot(), Opened)
    {
      actions := [Send(ConnectionInit)];
    }

    /** `ws.onmessage` for a frame that `JSON.parse` accepted. */
    method OnMessage(m: Parsed, freshId: string) returns (actions: seq<Action>)
      modifies this
      ensures messageQueue == old(messageQueue) + [m]
      ensures Outcome(Snapshot(), actions) == Step(config, old(Snapshot()), Received(m, freshId))
    {
      messageQueue := messageQueue + [m];
      actions := [];
      if m.NullValue? {
        // reading `type` of null throws; the handler's catch swallows it
        return;
      }
      if HasType(m, "connection_ack") {
        subscriptionId := Some(freshId);
        actions := [Send(StartFor(config, subscriptionId.value))];
      } else if HasType(m, "start_ack") && Matches(m, subscriptionId) {
        actions := [FireMutation(config.graphqlEndpoint, config.apiKey)];
      } else if HasType(m, "data") && Matches(m, subscriptionId) {
        actions := [Send(Stop(subscriptionId)), ScheduleCloseAndExit(0)];
      } else if HasType(m, "ka") {
        // keep-alive: nothing to do
      } else if HasType(m, "error") {
        actions := [CloseSocket, Exit(1)];
      }
    }

    /** `ws.onmessage` for a frame that `JSON.parse` rejected: logged, nothing else. */
    method ParseFailure() returns (actions: seq<Action>)
      ensures Outcome(Snapshot(), actions) == Step(config, Snapshot(), Unparseable)
    {
      actions := [];
    }

    /** `ws.onerror`: exit with status 1. */
    method SocketError() returns (actions: seq<Action>)
      ensures Outcome(Snapshot(), actions) == Step(config, Snapshot(), Event.SocketError)
    {
      actions := [Exit(1)];
    }

    /** `ws.onclose`: the event was not received; exit with status 1. */
    method Close() returns (actions: seq<Action>)
      ensures Outcome(Snapshot(), actions) == Step(config, Snapshot(), Closed)
    {
      actions := [Exit(1)];
    }
  }
}
