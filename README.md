# SimpleMQTTClient: connection, reconnection and subscription replay

This project models the core of `SimpleMQTTClient`, a C++ façade over an
asynchronous MQTT client library. It hides the broker connection lifecycle
behind `subscribe` and `publish`:

- it connects as soon as it is constructed;
- after a failed connect attempt it reconnects, up to a ceiling of five
  retries;
- after a lost connection it starts a fresh retry episode;
- on every successful connection it replays the single stored subscription,
  provided a message handler is registered;
- `publish` fails fast while the client is disconnected.

Requests to the transport carry one of three operation contexts (connect,
subscribe, publish), and the shared success and failure callbacks branch on
that context.

The model has four files:

- `message.dfy`, module `MqttMessage`: the immutable `MQTTMessage` value as a
  datatype with its two accessors.
- `client_spec.dfy`, module `ClientSpec`: the client as a pure state machine.
  - `State` holds the connection flag, the retry counter, the subscription
    topic and the handler.
  - An `Event` is a public call or a transport callback.
  - A `Request` is what the client hands to the transport.
  - `Tag` holds the three operation contexts.
  - `Step` computes one atomic step and `Run` a whole sequence of steps. Their
    contracts state the one-step invariants: at most one request per input,
    only `connected` connects, and the other rules listed in the table below.
- `client_properties.dfy`, module `ClientProperties`: properties of whole runs,
  proved by induction over the sequence of inputs.
- `client.dfy`, module `MqttClient`: the class `SimpleMqttClient`.
  - Its mutable fields are those of the C++ class.
  - The ghost field `requests` is the trace of transport requests.
  - The ghost field `deliveries` is the log of handler invocations.
  - The ghost field `events` is the history of public calls and transport
    callbacks since construction, message arrivals excepted. A message arrival
    changes no state and issues no request, so it is not an input of
    `ClientSpec.Step`.
  - The invariant `Valid()` says the fields are the final state of
    `ClientSpec.Run` from the initial state over `events`, and that
    `requests` is the constructor's connect followed by that run's requests.
  - The constructor establishes `Valid()`. Every public method and callback
    except `MessageArrived` keeps it and appends exactly its own input to
    `events`. Each of them also states its new state outright and `Took(...)`,
    which means it ends where `ClientSpec.Step` says. Each ends its step with
    the ghost method `Record`, which appends the input and re-establishes
    `Valid()` through the lemma `StepKeepsValid`.
  - `MessageArrived` keeps `Valid()` and leaves `events`, the state and
    `requests` unchanged. It only appends to `deliveries`, and it states no
    `Took`.
  - So the `Run` lemmas hold of any object reached through public calls and
    callbacks. `ClientReconnectsBounded` and `ClientSendsNothingBeforeConnected`
    state two of them for an object.
  - `Connect` and `Reconnect` are private in the C++ class
    (include/simple_mqtt_client/simple_mqtt_client.h:37-38). They are only
    steps inside the constructor and the callbacks and do not keep `Valid()`.
  - Four scenario methods:
    - `ScenarioSubscribeBeforeConnected` subscribes before the connection is
      made, then delivers `connected`.
    - `ScenarioSixFailures` delivers six connect failures.
    - `ScenarioConnectionLost` delivers failures, `connected` and a lost
      connection.
    - `ScenarioLateAcknowledgement` publishes with a timed-out wait, then
      delivers the late publish success.

The transport, time, logging and threads are not modelled. Each callback is
one atomic step. The outcome of a blocking transport call is a parameter: the
publish timeout (`timedOut`) and whether `disconnect` completed
(`completes`).

Three behaviours of the code are worth stating explicitly:

- The `connected` callback does **not** reset the retry counter
  (src/lib/simple_mqtt_client.cpp:168-176). Only the constructor and
  `connection_lost` reset it. `RetriesCountConnectFailures` states this: a
  connected callback never lowers the counter.
- `message_arrived` dereferences the handler without a null check
  (src/lib/simple_mqtt_client.cpp:196). So `MessageArrived` requires a
  registered handler.
- Nothing in the code stops reconnecting after `disconnect`. A
  `connection_lost` callback after it still reconnects, and so does a connect
  failure under the ceiling.

## Model

| member | source | states |
|---|---|---|
| `MqttMessage.RoundTrip` | src/lib/mqtt_message.cpp:5-16 | building a message from (topic, payload) and reading `get_topic` and `get_message` gives back topic and payload |
| `MqttMessage.Rebuild` | src/lib/mqtt_message.cpp:10-16 | a message is determined by what its accessors return; they have no side effect and there are no setters |
| `MqttMessage.FieldsIndependent` | src/lib/mqtt_message.cpp:5-8 | topic and payload are stored independently: changing one constructor argument never changes the other accessor |
| `ClientSpec.Step` | src/lib/simple_mqtt_client.cpp:31-192 | each input issues at most one request. Only `connected` makes the client connected, and it always does. The retry counter is reset only by `connection_lost` and grows by one only on a connect-tagged failure. A connect request is issued exactly on `connection_lost` or on a connect failure whose new count is at most 5. A subscribe or publish request is issued only when the resulting state is connected. Only `subscribe` changes the stored topic and handler, and it sets them to its arguments |
| `ClientSpec.Run` | src/lib/simple_mqtt_client.cpp:31-192 | a sequence of inputs issues at most one request per input |
| `ClientProperties.RetriesCountConnectFailures` | src/lib/simple_mqtt_client.cpp:118-127 | without a lost connection, the retry counter is the starting count plus the number of connect-tagged failures; `connected` does not reset it |
| `ClientProperties.ConnectsBehindRetries` | src/lib/simple_mqtt_client.cpp:118-127 | without a lost connection the counter never falls, and the connect requests issued never outnumber the counter's climb towards the ceiling |
| `ClientProperties.ReconnectsBounded` | src/lib/simple_mqtt_client.cpp:118-127 | the retry ceiling: without a lost connection, any inputs issue at most `N_RETRY_ATTEMPTS` minus the starting count connect requests |
| `ClientProperties.GivenUpIsPermanent` | src/lib/simple_mqtt_client.cpp:124-126 | once the counter exceeds 5, no input except a lost connection makes the client issue a connect request again, and the counter stays above 5 |
| `ClientProperties.ConnectFailureBurst` | src/lib/simple_mqtt_client.cpp:118-127 | n consecutive connect failures leave the client disconnected with the counter raised by n. They issue exactly the reconnects whose new count is at most 5, and nothing else |
| `ClientProperties.SixFailuresFiveReconnects` | include/simple_mqtt_client/simple_mqtt_client.h:43 | from a fresh client, six connect failures issue exactly five reconnects and leave the counter at 6; a seventh issues nothing more |
| `ClientProperties.IntentSurvives` | src/lib/simple_mqtt_client.cpp:31-33 | without a `subscribe` call, the stored topic and handler survive any number of losses and reconnections |
| `ClientProperties.ReplayOnConnected` | src/lib/simple_mqtt_client.cpp:168-176 | after any inputs without a `subscribe` call, `connected` connects the client. It issues exactly one subscribe request, for the stored topic at QoS 1 with the subscribe context, when a handler is registered, and none when it is not |
| `ClientProperties.NoSendWhileDisconnected` | src/lib/simple_mqtt_client.cpp:35-50 | until a `connected` callback arrives, a disconnected client issues only connect and disconnect requests, and it stays disconnected |
| `ClientProperties.InertCallbacksChangeNothing` | src/lib/simple_mqtt_client.cpp:128-166 | success callbacks, including connect-tagged ones, and failure callbacks tagged subscribe or publish have no effect: removing them from a run changes neither the state nor the requests |
| `ClientProperties.PublishesComeFromCalls` | src/lib/simple_mqtt_client.cpp:52-56 | every publish request carries QoS 1, the publish context, and the topic and payload of a message passed to `publish` |
| `MqttClient.SimpleMqttClient.constructor` | src/lib/simple_mqtt_client.cpp:11-24 | starts disconnected, with retry count 0, an empty topic and no handler. It issues exactly one connect request and establishes `Valid()` with an empty history |
| `MqttClient.SimpleMqttClient.Subscribe` | src/lib/simple_mqtt_client.cpp:31-42 | always overwrites the topic and handler. It sends one subscribe request with the subscribe context only if connected. Connection flag and retry counter are unchanged |
| `MqttClient.SimpleMqttClient.Publish` | src/lib/simple_mqtt_client.cpp:44-67 | while disconnected it makes no request and changes nothing. While connected it makes exactly one publish request with the message's topic and payload, QoS 1 and the publish tag. The state is unchanged whether or not the wait timed out |
| `MqttClient.SimpleMqttClient.Connect` | src/lib/simple_mqtt_client.cpp:70-82 | issues one connect request with the connect context and changes no state |
| `MqttClient.SimpleMqttClient.Reconnect` | src/lib/simple_mqtt_client.cpp:84-90 | issues one connect request and changes no state (the delay is not modelled) |
| `MqttClient.SimpleMqttClient.Disconnect` | src/lib/simple_mqtt_client.cpp:92-116 | the destructor's only effect on state. It issues one disconnect request, and only when that completes does the client become disconnected. Retry counter, topic and handler are untouched |
| `MqttClient.SimpleMqttClient.OnFailure` | src/lib/simple_mqtt_client.cpp:118-144 | a connect-tagged failure disconnects and raises the counter by exactly one. It issues a connect request exactly when the new count is at most 5. Subscribe- and publish-tagged failures change nothing |
| `MqttClient.SimpleMqttClient.OnSuccess` | src/lib/simple_mqtt_client.cpp:146-166 | every success callback, including a connect-tagged one, changes no state and issues nothing |
| `MqttClient.SimpleMqttClient.Connected` | src/lib/simple_mqtt_client.cpp:168-176 | connects the client and leaves the retry counter unchanged. With a handler registered, it issues exactly one subscribe request for the stored topic at QoS 1; otherwise it issues none |
| `MqttClient.SimpleMqttClient.ConnectionLost` | src/lib/simple_mqtt_client.cpp:178-192 | disconnects the client, resets the retry counter to 0 and issues exactly one connect request |
| `MqttClient.ClientReconnectsBounded` | src/lib/simple_mqtt_client.cpp:118-127 | a valid client whose connection was never lost has issued at most the constructor's connect plus 5 reconnects, whatever calls and callbacks it saw |
| `MqttClient.ClientSendsNothingBeforeConnected` | src/lib/simple_mqtt_client.cpp:35-50 | a valid client that has not yet seen `connected` is disconnected and has made only connect and disconnect requests |
| `MqttClient.SimpleMqttClient.MessageArrived` | src/lib/simple_mqtt_client.cpp:194-197 | requires a registered handler and invokes it exactly once with the arrived topic and payload. It changes no state and issues no request |

## Left out

- Transport internals are not modelled: the wire protocol, the QoS 1
  handshake, token objects, connect options (keep-alive 20 s, clean session),
  `get_topics` and `get_pending_delivery_tokens`. They belong to the external
  client library. The transport is modelled only as the request trace and the
  callback inputs.
- Synchronous transport exceptions in `connect` and `publish` are only logged.
  The model records the request as attempted, and the state is unchanged either
  way. In `disconnect`, an exception keeps `isConnected`; the `completes`
  parameter models that.
- Subscribe: the transport exception is not modelled. `subscribe` calls the
  transport outside any `try` (src/lib/simple_mqtt_client.cpp:36). A
  synchronous exception there reaches the caller after the topic and handler
  have been overwritten. Through `connected` (line 174), it reaches the
  transport's callback thread. In the model, `Subscribe` and `Connected`
  always record the request and return normally, so the model does not
  capture that escaping exception.
- The end of the object's life is not modelled. The destructor disconnects and
  then deletes the transport (src/lib/simple_mqtt_client.cpp:26-29). The model
  has no such end: any call may follow `Disconnect`.
- Time is not modelled: the 2500 ms sleep in `reconnect` and the
  `TIMEOUT_SECONDS` wait in `publish`. The wait's outcome is the parameter
  `timedOut`, which affects only logging.
- Logging to standard output is not modelled. It has no effect on state.
- Threads are not modelled. Each call and each callback is one atomic step, so
  races between the application thread and the transport's callback thread are
  not captured.
- `delivery_complete` is not modelled, because its body is empty.
- The handler's own behaviour is not modelled. It is recorded only as "the
  handler was invoked with this message". A handler that calls back into the
  client is not modelled.
- The retry counter is an unbounded `nat`, so the C++ `int` overflow is not
  modelled. Overflow would take more than 2^31 connect-tagged failures, and
  after the sixth the client issues no more connect requests.
- `src/main.cpp` is a console demo and is not part of this model.
