/** Properties of the client over whole runs of inputs: the retry ceiling and
    its reset, the permanent stop after the ceiling, the replay of the
    subscription on every (re)connection, no sending while disconnected, and
    that the callbacks the client only logs have no effect. */
module ClientProperties {
  import opened MqttMessage
  import opened ClientSpec

  /** Running `evs` then `e` is running `evs` and taking one more step. */
  lemma RunSnoc(s: State, evs: seq<Event>, e: Event)
    ensures Run(s, evs + [e]) ==
              Effect(Step(Run(s, evs).next, e).next, Run(s, evs).sent + Step(Run(s, evs).next, e).sent)
  {
    assert (evs + [e])[..|evs|] == evs;
  }

  /** Without a lost connection, the retry counter grows by exactly one per
      connect failure; in particular the connected callback never resets it. */
  lemma {:induction false} RetriesCountConnectFailures(s: State, evs: seq<Event>)
    requires ConnectionLostCallback !in evs
    ensures Run(s, evs).next.retries == s.retries + ConnectFailures(evs)
  {
    if evs != [] {
      var prefix, last := evs[..|evs| - 1], evs[|evs| - 1];
      assert evs == prefix + [last];
      RetriesCountConnectFailures(s, prefix);
    }
  }

  /** Without a lost connection, the counter never falls, and every connect
      request issued lifts it to a new value no greater than the ceiling: so
      the connects issued never outnumber the room between the starting
      counter and the ceiling. */
  lemma {:induction false} ConnectsBehindRetries(s: State, evs: seq<Event>)
    requires ConnectionLostCallback !in evs
    ensures Run(s, evs).next.retries >= s.retries
    ensures Connects(Run(s, evs).sent) + s.retries <=
              if Run(s, evs).next.retries <= s.retries then s.retries
              else if Run(s, evs).next.retries <= N_RETRY_ATTEMPTS then Run(s, evs).next.retries
              else if s.retries <= N_RETRY_ATTEMPTS then N_RETRY_ATTEMPTS
              else s.retries
  {
    if evs != [] {
      var prefix, last := evs[..|evs| - 1], evs[|evs| - 1];
      assert evs == prefix + [last];
      ConnectsBehindRetries(s, prefix);
      var before := Run(s, prefix);
      var step := Step(before.next, last);
      assert Run(s, evs).sent == before.sent + step.sent;
      assert multiset(Run(s, evs).sent) == multiset(before.sent) + multiset(step.sent);
      if ConnectRequest in step.sent {
        assert step.sent == [ConnectRequest];
      } else {
        assert multiset(step.sent)[ConnectRequest] == 0;
      }
    }
  }

  /** The retry ceiling: without a lost connection, at most N_RETRY_ATTEMPTS
      minus the starting count connect requests are issued, whatever else
      happens in between. */
  lemma ReconnectsBounded(s: State, evs: seq<Event>)
    requires ConnectionLostCallback !in evs
    ensures Connects(Run(s, evs).sent) <=
              if s.retries < N_RETRY_ATTEMPTS then N_RETRY_ATTEMPTS - s.retries else 0
  {
    ConnectsBehindRetries(s, evs);
  }

  /** Giving up is permanent: once the counter has passed the ceiling, no
      input other than a lost connection makes the client connect again. */
  lemma GivenUpIsPermanent(s: State, evs: seq<Event>)
    requires s.retries > N_RETRY_ATTEMPTS
    requires ConnectionLostCallback !in evs
    ensures ConnectRequest !in Run(s, evs).sent
    ensures Run(s, evs).next.retries > N_RETRY_ATTEMPTS
  {
    ConnectsBehindRetries(s, evs);
    assert multiset(Run(s, evs).sent)[ConnectRequest] == 0;
  }

  /** How many of `n` consecutive connect failures, starting from counter `r`,
      schedule a reconnect: those that leave the counter at most the ceiling. */
  function ReconnectsAfter(r: nat, n: nat): nat {
    if r >= N_RETRY_ATTEMPTS then 0
    else if n < N_RETRY_ATTEMPTS - r then n
    else N_RETRY_ATTEMPTS - r
  }

  /** `n` consecutive connect failures leave the client disconnected with the
      counter raised by `n`, and issue exactly the reconnects that
      ReconnectsAfter counts, and nothing else. */
  lemma {:induction false} ConnectFailureBurst(s: State, n: nat)
    requires n > 0
    ensures Run(s, Repeat(FailureCallback(ConnectTag), n)) ==
              Effect(s.(connected := false, retries := s.retries + n),
                     Repeat(ConnectRequest, ReconnectsAfter(s.retries, n)))
  {
    var evs := Repeat(FailureCallback(ConnectTag), n);
    assert evs[..n - 1] == Repeat(FailureCallback(ConnectTag), n - 1);
    if n == 1 {
      assert Run(s, evs[..n - 1]) == Effect(s, []);
    } else {
      ConnectFailureBurst(s, n - 1);
      var k := ReconnectsAfter(s.retries, n - 1);
      if s.retries + n <= N_RETRY_ATTEMPTS {
        assert Repeat(ConnectRequest, k) + [ConnectRequest] == Repeat(ConnectRequest, k + 1);
      } else {
        assert Repeat(ConnectRequest, k) + [] == Repeat(ConnectRequest, k);
      }
    }
  }

  /** From a fresh client, six consecutive connect failures issue five
      reconnects and then none: the sixth failure exceeds the ceiling. */
  lemma SixFailuresFiveReconnects()
    ensures Run(Initial, Repeat(FailureCallback(ConnectTag), 6)).sent == Repeat(ConnectRequest, 5)
    ensures Run(Initial, Repeat(FailureCallback(ConnectTag), 6)).next.retries == 6
    ensures Run(Initial, Repeat(FailureCallback(ConnectTag), 7)).sent == Repeat(ConnectRequest, 5)
  {
    ConnectFailureBurst(Initial, 6);
    ConnectFailureBurst(Initial, 7);
  }

  /** Only subscribe changes the subscription intent: across any inputs
      without a subscribe call the stored topic and handler survive,
      however many times the connection is lost and regained. */
  lemma {:induction false} IntentSurvives(s: State, evs: seq<Event>)
    requires NoSubscribeCalls(evs)
    ensures Run(s, evs).next.topic == s.topic
    ensures Run(s, evs).next.handler == s.handler
  {
    if evs != [] {
      IntentSurvives(s, evs[..|evs| - 1]);
    }
  }

  /** Replay on reconnect: after any inputs without a subscribe call, a
      connected callback issues exactly one subscribe request, for the stored
      topic at QOS with the subscribe context, when a handler is registered,
      and none when it is not. */
  lemma ReplayOnConnected(s: State, evs: seq<Event>)
    requires NoSubscribeCalls(evs)
    ensures Run(s, evs + [ConnectedCallback]).next.connected
    ensures Run(s, evs + [ConnectedCallback]).sent ==
              Run(s, evs).sent + (if s.handler.Some? then [SubscribeReq(s.topic, QOS, SubscribeTag)] else [])
  {
    IntentSurvives(s, evs);
    RunSnoc(s, evs, ConnectedCallback);
  }

  /** No sending while disconnected: until a connected callback arrives, a
      disconnected client issues only connect and disconnect requests and
      stays disconnected. */
  lemma {:induction false} NoSendWhileDisconnected(s: State, evs: seq<Event>)
    requires !s.connected
    requires ConnectedCallback !in evs
    ensures !Run(s, evs).next.connected
    ensures forall q :: q in Run(s, evs).sent ==> q.ConnectReq? || q.DisconnectReq?
  {
    if evs != [] {
      var prefix, last := evs[..|evs| - 1], evs[|evs| - 1];
      assert evs == prefix + [last];
      NoSendWhileDisconnected(s, prefix);
    }
  }

  /** Callbacks that are only logged have no effect: a run gives the same
      state and the same requests with every success callback and every
      subscribe- or publish-tagged failure callback removed. */
  lemma {:induction false} InertCallbacksChangeNothing(s: State, evs: seq<Event>)
    ensures Run(s, evs) == Run(s, DropInert(evs))
  {
    if evs != [] {
      var prefix, last := evs[..|evs| - 1], evs[|evs| - 1];
      InertCallbacksChangeNothing(s, prefix);
      if Inert(last) {
        assert Run(s, evs).sent == Run(s, prefix).sent + [];
      } else {
        RunSnoc(s, DropInert(prefix), last);
      }
    }
  }

  /** Every publish request in a run carries the topic and payload of a
      message passed to publish in that run, at QOS with the publish context. */
  lemma {:induction false} PublishesComeFromCalls(s: State, evs: seq<Event>)
    ensures forall q :: q in Run(s, evs).sent && q.PublishReq? ==>
              q.qos == QOS && q.tag == PublishTag &&
              exists m :: PublishCall(m) in evs && q.topic == m.GetTopic() && q.payload == m.GetMessage()
  {
    if evs != [] {
      var prefix, last := evs[..|evs| - 1], evs[|evs| - 1];
      assert evs == prefix + [last];
      PublishesComeFromCalls(s, prefix);
    }
  }
}
