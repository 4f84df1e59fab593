/** Command routing of the agent: which inbound (topic, payload) pairs
    dispatch to a handler, and which topics the agent subscribes to. */
module Routing {
  import opened Wrappers
  import opened Protocol

  /** The subscriptions made after every successful broker connect, in order. */
  const SubscribedTopics: seq<string> :=
    [TopicWake, TopicVerify, TopicAgentStatus, TopicAgentRestart, TopicShutdown, TopicReboot, TopicHelp]

  function SubscribedSet(): set<string> {
    set t | t in SubscribedTopics
  }

  /** The decision chain of the message callback: a command is chosen only
      when the topic is one of the seven command topics and the payload,
      read as a C string, is "true". */
  function Route(topic: string, payload: string): (r: Option<Command>)
    ensures r.Some? <==> CString(payload) == TruePayload && topic in SubscribedTopics
    ensures r.Some? ==> topic == CommandTopic(r.value)
  {
    var text := CString(payload);
    if topic == TopicWake && text == TruePayload then Some(Wake)
    else if topic == TopicVerify && text == TruePayload then Some(Verify)
    else if topic == TopicAgentStatus && text == TruePayload then Some(AgentStatus)
    else if topic == TopicAgentRestart && text == TruePayload then Some(AgentRestart)
    else if topic == TopicShutdown && text == TruePayload then Some(Shutdown)
    else if topic == TopicReboot && text == TruePayload then Some(Reboot)
    else if topic == TopicHelp && text == TruePayload then Some(Help)
    else None
  }

  /** Routing in both directions: an input dispatches to `c` exactly when it
      is `c`'s topic and the payload is "true", possibly followed by a NUL
      and anything after it, so each input reaches at most one handler and
      every command is reachable. */
  lemma RouteExactly(topic: string, payload: string, c: Command)
    ensures Route(topic, payload) == Some(c)
            <==> (payload == TruePayload || TruePayload + ['\0'] <= payload) && topic == CommandTopic(c)
  {
    CStringIsTrue(payload);
  }

  /** Any payload other than "true" and "true" followed by a NUL is refused
      on every topic. */
  lemma NonTruePayloadRefused(topic: string, payload: string)
    requires payload != TruePayload && !(TruePayload + ['\0'] <= payload)
    ensures Route(topic, payload) == None
  {
  }

  /** A payload carrying bytes after a NUL still dispatches: the comparison
      stops at the NUL. */
  lemma TrailingBytesAfterNul()
    ensures Route(TopicWake, "true" + ['\0'] + "x") == Some(Wake)
  {
    CStringIsTrue("true" + ['\0'] + "x");
  }

  /** The subscriptions are exactly the routed topics: every subscribed topic
      dispatches a command, and every routed topic is subscribed. */
  lemma SubscriptionsMatchRouting(topic: string)
    ensures topic in SubscribedSet() <==> Route(topic, TruePayload).Some?
    ensures topic in SubscribedSet() <==> exists c :: topic == CommandTopic(c)
  {
  }

  /** Seven distinct subscriptions. */
  lemma SubscriptionCount()
    ensures |SubscribedSet()| == 7
  {
    var s := SubscribedSet();
    assert s == {TopicWake, TopicVerify, TopicAgentStatus, TopicAgentRestart, TopicShutdown, TopicReboot, TopicHelp};
  }
}
