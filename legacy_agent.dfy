/** The earlier agent firmware: six command topics, no help topic, inputs
    outside the table silently ignored, a wake packet sent without probing
    first, and every answer handed straight to the broker client. */
module LegacyAgent {
  import opened Wrappers
  import opened Status
  import opened MagicPacket
  import opened Protocol
  import Routing

  /** The hardware address compiled into this firmware. */
  const LegacyMac: Mac := [0x34, 0x5A, 0x60, 0x4F, 0x9A, 0x02]

  /** The subscriptions made after every successful broker connect, in order. */
  const LegacySubscribedTopics: seq<string> :=
    [TopicWake, TopicVerify, TopicAgentStatus, TopicAgentRestart, TopicShutdown, TopicReboot]

  function LegacySubscribedSet(): set<string> {
    set t | t in LegacySubscribedTopics
  }

  /** The decision chain of this firmware's callback: six topics, payload
      "true" when read as a C string. */
  function LegacyRoute(topic: string, payload: string): (r: Option<Command>)
    ensures r.Some? <==> CString(payload) == TruePayload && topic in LegacySubscribedTopics
    ensures r.Some? ==> topic == CommandTopic(r.value) && r.value != Help
  {
    var text := CString(payload);
    if topic == TopicWake && text == TruePayload then Some(Wake)
    else if topic == TopicVerify && text == TruePayload then Some(Verify)
    else if topic == TopicAgentStatus && text == TruePayload then Some(AgentStatus)
    else if topic == TopicAgentRestart && text == TruePayload then Some(AgentRestart)
    else if topic == TopicShutdown && text == TruePayload then Some(Shutdown)
    else if topic == TopicReboot && text == TruePayload then Some(Reboot)
    else None
  }

  /** Routing in both directions: an input dispatches to `c` exactly when `c`
      is not the help command and the input is `c`'s topic with payload
      "true", possibly followed by a NUL and anything after it. */
  lemma LegacyRouteExactly(topic: string, payload: string, c: Command)
    ensures LegacyRoute(topic, payload) == Some(c)
            <==> c != Help && (payload == TruePayload || TruePayload + ['\0'] <= payload) && topic == CommandTopic(c)
  {
    CStringIsTrue(payload);
  }

  /** The earlier routing is the later one without the help command. */
  lemma LegacyRouteIsRouteWithoutHelp(topic: string, payload: string)
    ensures LegacyRoute(topic, payload)
            == if Routing.Route(topic, payload) == Some(Help) then None else Routing.Route(topic, payload)
  {
  }

  /** The subscriptions are exactly the routed topics; the help topic is
      neither subscribed nor routed. */
  lemma LegacySubscriptionsMatchRouting(topic: string)
    ensures topic in LegacySubscribedSet() <==> LegacyRoute(topic, TruePayload).Some?
    ensures TopicHelp !in LegacySubscribedSet()
    ensures LegacySubscribedSet() == Routing.SubscribedSet() - {TopicHelp}
  {
  }

  /** What the outside world answers while one command runs. */
  datatype LegacyOracle = LegacyOracle(
    ping: bool,             // the verification probe
    udpSent: bool,          // the UDP socket accepted the wake packet
    endpointReached: bool,  // the TCP connection to the computer's control endpoint opened
    millis: U32,            // the clock when the status is taken
    rssi: int)              // the signal strength reading, in dBm

  /** The messages command `c` hands to the broker client. Waking publishes
      nothing: its outcome only goes to the serial console. */
  function LegacyReplies(c: Command, o: LegacyOracle): seq<Outgoing> {
    match c
    case Wake => []
    case Verify => [Outgoing(ReplyVerify, if o.ping then PcOn else PcOff)]
    case AgentStatus => [Outgoing(ReplyAgentStatus, PlainStatusReport(o.millis / 1000, o.rssi))]
    case AgentRestart => [Outgoing(ReplyAgentRestart, Restarting)]
    case Shutdown =>
      [Outgoing(ReplyShutdown, if o.endpointReached then ShutdownRequested else ShutdownUnreachable)]
    case Reboot =>
      [Outgoing(ReplyReboot, if o.endpointReached then RebootRequested else RebootUnreachable)]
    case Help => []
  }

  /** What the callback hands to the broker client for one inbound message:
      nothing for an input outside the table. */
  function LegacyCallbackReplies(topic: string, payload: string, o: LegacyOracle): seq<Outgoing> {
    match LegacyRoute(topic, payload)
    case Some(c) => LegacyReplies(c, o)
    case None => []
  }

  /** Shutdown and reboot each answer once on their own topic, reporting the
      request sent exactly when the endpoint was reached and the endpoint
      unreachable exactly when it was not; verification reports on exactly
      when the probe answered and off exactly when it did not; waking
      publishes nothing. */
  lemma LegacyOutcomes(o: LegacyOracle)
    ensures |LegacyReplies(Shutdown, o)| == 1 && LegacyReplies(Shutdown, o)[0].topic == ReplyShutdown
    ensures LegacyReplies(Shutdown, o)[0].message == ShutdownRequested <==> o.endpointReached
    ensures LegacyReplies(Shutdown, o)[0].message == ShutdownUnreachable <==> !o.endpointReached
    ensures |LegacyReplies(Reboot, o)| == 1 && LegacyReplies(Reboot, o)[0].topic == ReplyReboot
    ensures LegacyReplies(Reboot, o)[0].message == RebootRequested <==> o.endpointReached
    ensures LegacyReplies(Reboot, o)[0].message == RebootUnreachable <==> !o.endpointReached
    ensures |LegacyReplies(Verify, o)| == 1 && LegacyReplies(Verify, o)[0].topic == ReplyVerify
    ensures LegacyReplies(Verify, o)[0].message == PcOn <==> o.ping
    ensures LegacyReplies(Verify, o)[0].message == PcOff <==> !o.ping
    ensures LegacyReplies(Wake, o) == []
  {
  }

  /** Anything the table does not route publishes nothing, the help topic
      included. */
  lemma LegacyIgnoresUnknown(topic: string, payload: string, o: LegacyOracle)
    requires topic !in LegacySubscribedTopics || (payload != TruePayload && !(TruePayload + ['\0'] <= payload))
    ensures LegacyCallbackReplies(topic, payload, o) == []
  {
  }

  class LegacyAgent {
    /** The broker client reports an attached session. */
    var connected: bool
    /** Topics the broker session is subscribed to. */
    var subscriptions: set<string>
    /** Every message the broker client accepted, in order. */
    var log: seq<Outgoing>
    /** Every wake packet the UDP socket accepted, in order. */
    var datagrams: seq<seq<bv8>>
    /** The agent asked the chip to restart itself. */
    var restarting: bool
    /** Total time spent in `delay`, in milliseconds. */
    ghost var elapsed: nat

    /** Subscriptions do not survive a lost session. */
    ghost predicate Valid()
      reads this
    {
      subscriptions == (if connected then LegacySubscribedSet() else {})
    }

    /** Start-up: associate to Wi-Fi, then attach to the broker. */
    constructor Setup()
      ensures Valid() && connected && subscriptions == LegacySubscribedSet()
      ensures log == [] && datagrams == [] && !restarting && elapsed == 0
    {
      connected, subscriptions, log, datagrams := false, {}, [], [];
      restarting := false;
      elapsed := 0;
      new;
      ConnectBroker();
    }

    /** The state after the broker connection loop ends: attached, and
        subscribed to exactly the six command topics. */
    method ConnectBroker()
      requires Valid()
      modifies this
      ensures Valid() && connected && subscriptions == LegacySubscribedSet()
      ensures log == old(log) && datagrams == old(datagrams)
      ensures restarting == old(restarting) && elapsed == old(elapsed)
    {
      connected := true;
      subscriptions := LegacySubscribedSet();
    }

    /** The broker session drops (an event of the network, not of the firmware). */
    method BrokerLost()
      requires Valid()
      modifies this
      ensures Valid() && !connected
      ensures log == old(log) && datagrams == old(datagrams)
      ensures restarting == old(restarting) && elapsed == old(elapsed)
    {
      connected := false;
      subscriptions := {};
    }

    /** A broker-client publish: accepted only on an attached session. */
    method RawPublish(topic: string, message: Message)
      requires Valid()
      modifies this
      ensures Valid()
      ensures log == old(log) + (if old(connected) then [Outgoing(topic, message)] else [])
      ensures connected == old(connected) && subscriptions == old(subscriptions)
      ensures datagrams == old(datagrams)
      ensures restarting == old(restarting) && elapsed == old(elapsed)
    {
      if connected {
        log := log + [Outgoing(topic, message)];
      }
    }

    /** Build the packet for the compiled-in address and send it, with no
        probe first. Returns true exactly when the UDP socket accepted it. */
    method SendWakePacket(udpSent: bool) returns (sent: bool)
      requires Valid()
      modifies this
      ensures Valid()
      ensures sent == udpSent
      ensures datagrams == old(datagrams) + (if sent then [Packet(LegacyMac)] else [])
      ensures log == old(log) && connected == old(connected) && subscriptions == old(subscriptions)
      ensures restarting == old(restarting) && elapsed == old(elapsed)
    {
      var packet := BuildPacket(LegacyMac);
      if udpSent {
        datagrams := datagrams + [packet[..]];
      }
      sent := udpSent;
    }

    /** The message callback: handle a routed command in place, ignore
        anything else. */
    method HandleMessage(topic: string, payload: string, o: LegacyOracle)
      requires Valid()
      modifies this
      ensures Valid()
      ensures log == old(log) + (if old(connected) then LegacyCallbackReplies(topic, payload, o) else [])
      ensures datagrams == old(datagrams)
                           + (if LegacyRoute(topic, payload) == Some(Wake) && o.udpSent
                              then [Packet(LegacyMac)] else [])
      ensures elapsed == old(elapsed) + (if LegacyRoute(topic, payload) == Some(AgentRestart) then RestartPause else 0)
      ensures restarting == (old(restarting) || LegacyRoute(topic, payload) == Some(AgentRestart))
      ensures connected == old(connected) && subscriptions == old(subscriptions)
    {
      var command := LegacyRoute(topic, payload);
      match command {
        case Some(Wake) =>
          var _ := SendWakePacket(o.udpSent);
        case Some(Verify) =>
          RawPublish(ReplyVerify, if o.ping then PcOn else PcOff);
        case Some(AgentStatus) =>
          RawPublish(ReplyAgentStatus, PlainStatusReport(o.millis / 1000, o.rssi));
        case Some(AgentRestart) =>
          RawPublish(ReplyAgentRestart, Restarting);
          elapsed := elapsed + RestartPause;
          restarting := true;
        case Some(Shutdown) =>
          RawPublish(ReplyShutdown, if o.endpointReached then ShutdownRequested else ShutdownUnreachable);
        case Some(Reboot) =>
          RawPublish(ReplyReboot, if o.endpointReached then RebootRequested else RebootUnreachable);
        case Some(Help) =>
        case None =>
      }
    }

    /** One pass of the main loop: reattach if the session dropped, then hand
        the message the client has queued, if any, to the callback. */
    method Step(inbound: Option<(string, string)>, o: LegacyOracle)
      requires Valid()
      modifies this
      ensures Valid() && connected && subscriptions == LegacySubscribedSet()
      ensures inbound.None? ==> log == old(log)
      ensures inbound.Some? ==> log == old(log) + LegacyCallbackReplies(inbound.value.0, inbound.value.1, o)
      ensures datagrams == old(datagrams)
                           + (if inbound.Some? && LegacyRoute(inbound.value.0, inbound.value.1) == Some(Wake) && o.udpSent
                              then [Packet(LegacyMac)] else [])
      ensures elapsed == old(elapsed)
                         + (if inbound.Some? && LegacyRoute(inbound.value.0, inbound.value.1) == Some(AgentRestart)
                            then RestartPause else 0)
      ensures restarting
              == (old(restarting) || (inbound.Some? && LegacyRoute(inbound.value.0, inbound.value.1) == Some(AgentRestart)))
    {
      if !connected {
        ConnectBroker();
      }
      if inbound.Some? {
        HandleMessage(inbound.value.0, inbound.value.1, o);
      }
    }
  }
}
