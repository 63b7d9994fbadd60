/** The connection, reconnection and subscription-replay state machine of
    SimpleMQTTClient, as a pure function from the client's state and one input
    (a public call or a transport callback, each an atomic step) to the next
    state and the requests the client hands to the transport. */
module ClientSpec {
  import opened MqttMessage

  /** Quality of service of every subscribe and publish request: MQTT
      "at least once" (section 4.3.2 of OASIS MQTT Version 3.1.1). The client
      only passes the number on. */
  const QOS: int := 1

  /** Retry ceiling: a connect failure that takes the counter above this
      schedules no reconnect. */
  const N_RETRY_ATTEMPTS: nat := 5

  datatype Option<T> = None | Some(value: T)

  /** The three operation contexts whose addresses tag every asynchronous
      request, so that the shared success/failure callbacks know which
      operation completed. */
  datatype Tag = ConnectTag | SubscribeTag | PublishTag

  /** The identity of an application message handler (a non-null pointer). */
  datatype Handler = Handler(id: nat)

  /** A request the client hands to the transport. */
  datatype Request =
    | ConnectReq(tag: Tag)
    | SubscribeReq(topic: string, qos: int, tag: Tag)
    | PublishReq(topic: string, payload: string, qos: int, tag: Tag)
    | DisconnectReq

  /** Every connect request the client makes carries the connect context. */
  const ConnectRequest: Request := ConnectReq(ConnectTag)

  /** The fields of the client that drive its behaviour: the connection flag,
      the retry counter and the subscription intent (topic and handler, the
      handler None when it is a null pointer). */
  datatype State = State(connected: bool, retries: nat, topic: string, handler: Option<Handler>)

  /** The state the constructor sets up before it issues its first connect. */
  const Initial: State := State(false, 0, "", None)

  /** The inputs that change the state or issue requests: the application's
      calls and the transport's callbacks. `completes` says whether the
      blocking disconnect finished (false: the transport threw). */
  datatype Event =
    | SubscribeCall(topic: string, handler: Option<Handler>)
    | PublishCall(message: Message)
    | DisconnectCall(completes: bool)
    | FailureCallback(tag: Tag)
    | SuccessCallback(tag: Tag)
    | ConnectedCallback
    | ConnectionLostCallback

  /** The state after an input and the requests issued, oldest first. */
  datatype Effect = Effect(next: State, sent: seq<Request>)

  /** subscribe: record the intent; send it only while connected. */
  function SubscribeEffect(s: State, topic: string, handler: Option<Handler>): Effect {
    var s' := s.(topic := topic, handler := handler);
    Effect(s', if s'.connected then [SubscribeReq(topic, QOS, SubscribeTag)] else [])
  }

  /** One atomic step of the client. */
  function Step(s: State, e: Event): (r: Effect)
    // at most one request per input
    ensures |r.sent| <= 1
    // only the connected callback makes the client connected
    ensures r.next.connected ==> s.connected || e.ConnectedCallback?
    ensures e.ConnectedCallback? ==> r.next.connected
    // the retry counter is reset only by a lost connection and grows only on a connect failure
    ensures r.next.retries ==
              if e.ConnectionLostCallback? then 0
              else if e == FailureCallback(ConnectTag) then s.retries + 1
              else s.retries
    // a connect request is issued exactly on a lost connection or a connect failure under the ceiling
    ensures ConnectRequest in r.sent <==>
              e.ConnectionLostCallback? || (e == FailureCallback(ConnectTag) && s.retries + 1 <= N_RETRY_ATTEMPTS)
    // nothing is subscribed or published while disconnected
    ensures forall q :: q in r.sent && (q.SubscribeReq? || q.PublishReq?) ==> r.next.connected
    // only subscribe changes the subscription intent
    ensures e.SubscribeCall? ==> r.next.topic == e.topic && r.next.handler == e.handler
    ensures !e.SubscribeCall? ==> r.next.topic == s.topic && r.next.handler == s.handler
  {
    match e
    case SubscribeCall(topic, handler) =>
      SubscribeEffect(s, topic, handler)
    case PublishCall(m) =>
      if !s.connected then Effect(s, [])
      else Effect(s, [PublishReq(m.GetTopic(), m.GetMessage(), QOS, PublishTag)])
    case DisconnectCall(completes) =>
      Effect(if completes then s.(connected := false) else s, [DisconnectReq])
    case FailureCallback(tag) =>
      if tag == ConnectTag then
        var s' := s.(connected := false, retries := s.retries + 1);
        Effect(s', if s'.retries > N_RETRY_ATTEMPTS then [] else [ConnectRequest])
      else
        Effect(s, [])
    case SuccessCallback(_) =>
      // a connect success is deliberately ignored: the connected callback is authoritative
      Effect(s, [])
    case ConnectedCallback =>
      var s' := s.(connected := true);
      if s'.handler.Some? then SubscribeEffect(s', s'.topic, s'.handler) else Effect(s', [])
    case ConnectionLostCallback =>
      Effect(s.(connected := false, retries := 0), [ConnectRequest])
  }

  /** The inputs `evs`, oldest first, applied one after the other from `s`:
      the final state and every request issued on the way, in order. */
  function Run(s: State, evs: seq<Event>): (r: Effect)
    ensures |r.sent| <= |evs|
    decreases |evs|
  {
    if evs == [] then Effect(s, [])
    else
      var before := Run(s, evs[..|evs| - 1]);
      var last := Step(before.next, evs[|evs| - 1]);
      Effect(last.next, before.sent + last.sent)
  }

  /** The number of connect requests among `reqs`. */
  function Connects(reqs: seq<Request>): nat {
    multiset(reqs)[ConnectRequest]
  }

  /** The number of failure callbacks carrying the connect context among `evs`. */
  function ConnectFailures(evs: seq<Event>): nat {
    multiset(evs)[FailureCallback(ConnectTag)]
  }

  /** `n` copies of `x`. */
  function Repeat<T>(x: T, n: nat): seq<T> {
    seq(n, _ => x)
  }

  /** Callbacks that the client only logs: every success, and failures of
      subscribe or publish requests. */
  predicate Inert(e: Event) {
    e.SuccessCallback? || (e.FailureCallback? && e.tag != ConnectTag)
  }

  /** `evs` without its inert callbacks, in the same order. */
  function DropInert(evs: seq<Event>): (r: seq<Event>)
    ensures forall e :: e in r ==> e in evs && !Inert(e)
    decreases |evs|
  {
    if evs == [] then []
    else if Inert(evs[|evs| - 1]) then DropInert(evs[..|evs| - 1])
    else DropInert(evs[..|evs| - 1]) + [evs[|evs| - 1]]
  }

  /** No event of `evs` is a call to subscribe. */
  predicate NoSubscribeCalls(evs: seq<Event>) {
    forall i :: 0 <= i < |evs| ==> !evs[i].SubscribeCall?
  }
}
