/** SimpleMQTTClient: a single-topic MQTT client whose methods update its
    fields in place. What it hands to the transport is kept in the ghost
    trace `requests`, and what it hands to the application's handler in the
    ghost log `deliveries`. Every public call and every callback ends in the
    state, and with the requests, that ClientSpec.Step gives for it, and the
    invariant Valid() ties the object to ClientSpec.Run over the ghost
    history `events`, so the lemmas of ClientProperties hold of the object. */
module MqttClient {
  import opened MqttMessage
  import opened ClientSpec
  import opened ClientProperties

  /** The application's handler was invoked with `message`. */
  datatype Delivery = Delivery(handler: Handler, message: Message)

  class SimpleMqttClient {
    var isConnected: bool
    var numberOfConnectionRetries: nat
    var subscriptionTopic: string
    var messageHandler: Option<Handler>

    /** Every request made to the transport, oldest first. */
    ghost var requests: seq<Request>
    /** Every invocation of the message handler, oldest first. */
    ghost var deliveries: seq<Delivery>
    /** Every public call and transport callback since construction, oldest
        first (message arrivals, which only feed `deliveries`, excepted). */
    ghost var events: seq<Event>

    /** The fields that drive the client's behaviour. */
    function Model(): State
      reads this
    {
      State(isConnected, numberOfConnectionRetries, subscriptionTopic, messageHandler)
    }

    /** The object invariant: the fields are where ClientSpec.Run takes the
        initial state through `events`, and the request trace is the
        constructor's connect followed by the requests of that run. */
    ghost predicate Valid()
      reads this
    {
      Model() == Run(Initial, events).next && requests == [ConnectRequest] + Run(Initial, events).sent
    }

    /** The client now is where `e` takes it from state `before` and request
        trace `sentBefore`, as ClientSpec.Step says. */
    ghost predicate Took(before: State, sentBefore: seq<Request>, e: Event)
      reads this
    {
      Model() == Step(before, e).next && requests == sentBefore + Step(before, e).sent
    }

    /** Starts disconnected, with no retries, no topic and no handler, and
        issues exactly one connect request. The broker address and client id
        only configure the transport. */
    constructor (brokerAddress: string, clientId: string)
      ensures Valid() && events == []
      ensures Model() == Initial
      ensures requests == [ConnectRequest] && deliveries == []
    {
      isConnected := false;
      numberOfConnectionRetries := 0;
      subscriptionTopic := "";
      messageHandler := None;
      requests := [];
      deliveries := [];
      events := [];
      new;
      Connect();
    }

    /** Closes the step for input `e`: the fields and trace have moved from
        `before` and `sentBefore` as ClientSpec.Step says, and `e` is appended
        to the history, which was `history` when the step began. If the
        object was valid when the step began, it is valid again. */
    ghost method Record(history: seq<Event>, e: Event, before: State, sentBefore: seq<Request>)
      requires Took(before, sentBefore, e)
      modifies this`events
      ensures events == history + [e]
      ensures before == Run(Initial, history).next && sentBefore == [ConnectRequest] + Run(Initial, history).sent
              ==> Valid()
    {
      events := history + [e];
      if before == Run(Initial, history).next && sentBefore == [ConnectRequest] + Run(Initial, history).sent {
        StepKeepsValid(history, e, sentBefore, Model(), requests);
      }
    }

    /** Stores the topic and handler in every case; sends a subscribe
        request for them, at QOS with the subscribe context, only when
        connected. Nothing else changes. It does not require Valid() because
        the connected callback calls it in the middle of its own step; called
        on a valid client it keeps it valid. */
    method Subscribe(topic: string, handler: Option<Handler>)
      modifies this
      ensures subscriptionTopic == topic && messageHandler == handler
      ensures isConnected == old(isConnected)
      ensures numberOfConnectionRetries == old(numberOfConnectionRetries)
      ensures requests == old(requests) + (if isConnected then [SubscribeReq(topic, QOS, SubscribeTag)] else [])
      ensures deliveries == old(deliveries)
      ensures Took(old(Model()), old(requests), SubscribeCall(topic, handler))
      ensures events == old(events) + [SubscribeCall(topic, handler)]
      ensures old(Valid()) ==> Valid()
    {
      ghost var before, sentBefore, history := Model(), requests, events;
      subscriptionTopic := topic;
      messageHandler := handler;
      if isConnected {
        requests := requests + [SubscribeReq(subscriptionTopic, QOS, SubscribeTag)];
      }
      Record(history, SubscribeCall(topic, handler), before, sentBefore);
    }

    /** Fails fast while disconnected: no request, no change. While connected,
        exactly one publish request carrying the message's topic and payload at
        QOS with the publish context. `timedOut` is whether the 10-second wait
        for the delivery token elapsed; it is only logged, so no state
        depends on it. */
    method Publish(message: Message, timedOut: bool)
      requires Valid()
      modifies this
      ensures Valid() && events == old(events) + [PublishCall(message)]
      ensures Model() == old(Model()) && deliveries == old(deliveries)
      ensures requests == old(requests) +
                (if isConnected then [PublishReq(message.GetTopic(), message.GetMessage(), QOS, PublishTag)] else [])
      ensures Took(old(Model()), old(requests), PublishCall(message))
    {
      ghost var before, sentBefore, history := Model(), requests, events;
      if isConnected {
        requests := requests + [PublishReq(message.GetTopic(), message.GetMessage(), QOS, PublishTag)];
      }
      Record(history, PublishCall(message), before, sentBefore);
    }

    /** Hands a connect request, tagged with the connect context, to the
        transport; a synchronous transport error is only logged. Private in
        the source: only the constructor and Reconnect call it. */
    method Connect()
      modifies this
      ensures Model() == old(Model()) && deliveries == old(deliveries) && events == old(events)
      ensures requests == old(requests) + [ConnectRequest]
    {
      requests := requests + [ConnectRequest];
    }

    /** Waits 2500 ms (not modelled), then connects. Private in the source:
        only the failure and connection-lost callbacks call it. */
    method Reconnect()
      modifies this
      ensures Model() == old(Model()) && deliveries == old(deliveries) && events == old(events)
      ensures requests == old(requests) + [ConnectRequest]
    {
      Connect();
    }

    /** Called by the destructor. Issues one disconnect request; only when it
        completes is the client marked disconnected (a transport error leaves
        the flag as it was). The retry counter, topic and handler are
        untouched. */
    method Disconnect(completes: bool)
      requires Valid()
      modifies this
      ensures Valid() && events == old(events) + [DisconnectCall(completes)]
      ensures requests == old(requests) + [DisconnectReq]
      ensures isConnected == (old(isConnected) && !completes)
      ensures numberOfConnectionRetries == old(numberOfConnectionRetries)
      ensures subscriptionTopic == old(subscriptionTopic) && messageHandler == old(messageHandler)
      ensures deliveries == old(deliveries)
      ensures Took(old(Model()), old(requests), DisconnectCall(completes))
    {
      ghost var before, sentBefore, history := Model(), requests, events;
      requests := requests + [DisconnectReq];
      if completes {
        isConnected := false;
      }
      Record(history, DisconnectCall(completes), before, sentBefore);
    }

    /** A failed connect attempt marks the client disconnected, counts one
        more retry and reconnects exactly when the new count is at most
        N_RETRY_ATTEMPTS. Failures of subscribe and publish requests are only
        logged. */
    method OnFailure(tag: Tag)
      requires Valid()
      modifies this
      ensures Valid() && events == old(events) + [FailureCallback(tag)]
      ensures tag == ConnectTag ==>
                && !isConnected
                && numberOfConnectionRetries == old(numberOfConnectionRetries) + 1
                && requests == old(requests) +
                     (if numberOfConnectionRetries <= N_RETRY_ATTEMPTS then [ConnectRequest] else [])
      ensures tag != ConnectTag ==> Model() == old(Model()) && requests == old(requests)
      ensures subscriptionTopic == old(subscriptionTopic) && messageHandler == old(messageHandler)
      ensures deliveries == old(deliveries)
      ensures Took(old(Model()), old(requests), FailureCallback(tag))
    {
      ghost var before, sentBefore, history := Model(), requests, events;
      if tag == ConnectTag {
        isConnected := false;
        numberOfConnectionRetries := numberOfConnectionRetries + 1;
        if numberOfConnectionRetries <= N_RETRY_ATTEMPTS {
          Reconnect();
        }
      }
      Record(history, FailureCallback(tag), before, sentBefore);
    }

    /** Every success is only logged, a connect success included: the
        connected callback is the one that marks the client connected. */
    method OnSuccess(tag: Tag)
      requires Valid()
      modifies this
      ensures Valid() && events == old(events) + [SuccessCallback(tag)]
      ensures Model() == old(Model()) && requests == old(requests) && deliveries == old(deliveries)
      ensures Took(old(Model()), old(requests), SuccessCallback(tag))
    {
      ghost var before, sentBefore, history := Model(), requests, events;
      Record(history, SuccessCallback(tag), before, sentBefore);
    }

    /** Marks the client connected and, when a handler is registered,
        subscribes again to the stored topic: exactly one subscribe request.
        The retry counter is left as it is. */
    method Connected(cause: string)
      requires Valid()
      modifies this
      ensures Valid() && events == old(events) + [ConnectedCallback]
      ensures isConnected
      ensures numberOfConnectionRetries == old(numberOfConnectionRetries)
      ensures subscriptionTopic == old(subscriptionTopic) && messageHandler == old(messageHandler)
      ensures requests == old(requests) +
                (if messageHandler.Some? then [SubscribeReq(subscriptionTopic, QOS, SubscribeTag)] else [])
      ensures deliveries == old(deliveries)
      ensures Took(old(Model()), old(requests), ConnectedCallback)
    {
      ghost var before, sentBefore, history := Model(), requests, events;
      isConnected := true;
      if messageHandler.Some? {
        Subscribe(subscriptionTopic, messageHandler);
      }
      // the nested subscribe is part of this one step, not an input of its own
      Record(history, ConnectedCallback, before, sentBefore);
    }

    /** Marks the client disconnected, starts a fresh retry episode at zero
        and reconnects: exactly one connect request. */
    method ConnectionLost(cause: string)
      requires Valid()
      modifies this
      ensures Valid() && events == old(events) + [ConnectionLostCallback]
      ensures !isConnected && numberOfConnectionRetries == 0
      ensures subscriptionTopic == old(subscriptionTopic) && messageHandler == old(messageHandler)
      ensures requests == old(requests) + [ConnectRequest]
      ensures deliveries == old(deliveries)
      ensures Took(old(Model()), old(requests), ConnectionLostCallback)
    {
      ghost var before, sentBefore, history := Model(), requests, events;
      isConnected := false;
      numberOfConnectionRetries := 0;
      Reconnect();
      Record(history, ConnectionLostCallback, before, sentBefore);
    }

    /** Forwards the arrived message to the registered handler. The source
        dereferences the handler without a check, so one must be registered. */
    method MessageArrived(topic: string, payload: string)
      requires Valid()
      requires messageHandler.Some?
      modifies this
      ensures Valid() && events == old(events)
      ensures Model() == old(Model()) && requests == old(requests)
      ensures deliveries == old(deliveries) + [Delivery(messageHandler.value, Message(topic, payload))]
    {
      deliveries := deliveries + [Delivery(messageHandler.value, Message(topic, payload))];
    }
  }

  /** One more input keeps the object invariant: if the fields and trace were
      those of the run over `evs`, and the input then moved them as
      ClientSpec.Step says, they are those of the run over `evs + [e]`. */
  lemma StepKeepsValid(evs: seq<Event>, e: Event, sent: seq<Request>, s': State, sent': seq<Request>)
    requires sent == [ConnectRequest] + Run(Initial, evs).sent
    requires s' == Step(Run(Initial, evs).next, e).next
    requires sent' == sent + Step(Run(Initial, evs).next, e).sent
    ensures s' == Run(Initial, evs + [e]).next
    ensures sent' == [ConnectRequest] + Run(Initial, evs + [e]).sent
  {
    RunSnoc(Initial, evs, e);
  }

  /** The retry ceiling, on an object: as long as its connection was never
      lost, a client has issued at most the constructor's connect and
      N_RETRY_ATTEMPTS reconnects, whatever calls and callbacks it saw. */
  lemma ClientReconnectsBounded(c: SimpleMqttClient)
    requires c.Valid()
    requires ConnectionLostCallback !in c.events
    ensures Connects(c.requests) <= 1 + N_RETRY_ATTEMPTS
  {
    ReconnectsBounded(Initial, c.events);
    assert multiset(c.requests) == multiset([ConnectRequest]) + multiset(Run(Initial, c.events).sent);
  }

  /** No sending while disconnected, on an object: until its first connected
      callback, a client has made only connect and disconnect requests. */
  lemma ClientSendsNothingBeforeConnected(c: SimpleMqttClient)
    requires c.Valid()
    requires ConnectedCallback !in c.events
    ensures !c.isConnected
    ensures forall q :: q in c.requests ==> q.ConnectReq? || q.DisconnectReq?
  {
    NoSendWhileDisconnected(Initial, c.events);
  }

  /** Subscribing before the connection is made sends nothing; the connected
      callback then sends exactly one subscribe request for that topic. */
  method ScenarioSubscribeBeforeConnected(h: Handler) {
    var client := new SimpleMqttClient("tcp://broker:1883", "client");
    client.Subscribe("a/b", Some(h));
    assert client.requests == [ConnectRequest];
    client.Connected("");
    assert client.requests == [ConnectRequest, SubscribeReq("a/b", QOS, SubscribeTag)];
  }

  /** Six consecutive connect failures after construction: the initial
      connect and five reconnects, then nothing more. */
  method ScenarioSixFailures() {
    var client := new SimpleMqttClient("tcp://broker:1883", "client");
    client.OnFailure(ConnectTag);
    client.OnFailure(ConnectTag);
    client.OnFailure(ConnectTag);
    client.OnFailure(ConnectTag);
    client.OnFailure(ConnectTag);
    assert client.requests == Repeat(ConnectRequest, 6);
    client.OnFailure(ConnectTag);
    assert client.requests == Repeat(ConnectRequest, 6);
    assert client.numberOfConnectionRetries == 6 && !client.isConnected;
  }

  /** A connection lost after failed attempts resets the counter and issues
      exactly one reconnect. */
  method ScenarioConnectionLost() {
    var client := new SimpleMqttClient("tcp://broker:1883", "client");
    client.OnFailure(ConnectTag);
    client.OnFailure(ConnectTag);
    client.Connected("");
    assert client.numberOfConnectionRetries == 2;
    client.ConnectionLost("network drop");
    assert client.numberOfConnectionRetries == 0 && !client.isConnected;
    assert client.requests == Repeat(ConnectRequest, 4);
  }

  /** A publish whose wait timed out returns; the late acknowledgement
      changes nothing. Publishing while disconnected sends nothing. */
  method ScenarioLateAcknowledgement(m: Message) {
    var client := new SimpleMqttClient("tcp://broker:1883", "client");
    client.Publish(m, false);
    assert client.requests == [ConnectRequest];
    client.Connected("");
    client.Publish(m, true);
    client.OnSuccess(PublishTag);
    assert client.requests == [ConnectRequest, PublishReq(m.topic, m.payload, QOS, PublishTag)];
    assert client.isConnected;
  }
}
