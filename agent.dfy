/** The later agent firmware: command handlers with confirmation sequences,
    a publish that reconnects first, the Wi-Fi bookkeeping flags and the
    message callback. Reachability probes, UDP sends, TCP connects, the
    clock and the RSSI reading are inputs; every message the broker client
    accepts is appended to `log`, every wake packet that left the UDP
    socket to `datagrams`, and every `delay` is added to the ghost `elapsed`. */
module Agent {
  import opened Wrappers
  import opened Status
  import opened MagicPacket
  import opened Confirmation
  import opened Protocol
  import opened Routing

  /** What the outside world answers while one command runs. */
  datatype Oracle = Oracle(
    ping: bool,             // the handler's single reachability probe (pre-wake, verify, post-shutdown)
    udpSent: bool,          // the UDP socket accepted the wake packet
    endpointReached: bool,  // the TCP connection to the computer's control endpoint opened
    replies: seq<bool>,     // answers of the confirmation probes, in order
    millis: U32,            // the clock when the status is taken
    rssi: int)              // the signal strength reading, in dBm

  /** Oracles that answer every probe the confirmation loop may send. */
  predicate Complete(o: Oracle) {
    |o.replies| == PollLimit
  }

  const WakeSettle: nat := 12000
  const ShutdownSettle: nat := 5000
  const RebootSettle: nat := 15000
  const VerifyPause: nat := 100

  // ---------------------------------------------------------------------
  // What each handler publishes and how long it waits

  /** Messages of the wake-packet step: nothing is sent when the computer
      already answers. */
  function SendWakeReplies(pcOn: bool, udpSent: bool): seq<Outgoing> {
    [Outgoing(ReplyVerify, if pcOn then AlreadyOn else if udpSent then WolSent else WolSendError)]
  }

  function WakeReplies(pcOn: bool, udpSent: bool, replies: seq<bool>): seq<Outgoing> {
    SendWakeReplies(pcOn, udpSent)
    + [Outgoing(ReplyVerify,
               if pcOn || !udpSent then WolFailed
               else if Confirmed(replies) then PoweredOnByWol
               else WolNoResponse)]
  }

  function WakeDelay(pcOn: bool, udpSent: bool, replies: seq<bool>): nat {
    if !pcOn && udpSent then WakeSettle + PollInterval * Probes(replies) else 0
  }

  function VerifyReplies(ping: bool): seq<Outgoing> {
    [Outgoing(ReplyVerify, if ping then PcOn else PcOff)]
  }

  function ShutdownReplies(reached: bool, ping: bool): seq<Outgoing> {
    [Outgoing(ReplyShutdown,
             if !reached then ShutdownUnreachable
             else if ping then ShutdownUnconfirmed
             else ShutdownDone)]
  }

  function ShutdownDelay(reached: bool): nat {
    if reached then ShutdownSettle else 0
  }

  function RebootReplies(reached: bool, replies: seq<bool>): seq<Outgoing> {
    [Outgoing(ReplyReboot,
             if !reached then RebootUnreachable
             else if Confirmed(replies) then RebootDone
             else RebootUnconfirmed)]
  }

  function RebootDelay(reached: bool, replies: seq<bool>): nat {
    if reached then RebootSettle + PollInterval * Probes(replies) else 0
  }

  function StatusReplies(millis: U32, rssi: int): seq<Outgoing> {
    [Outgoing(ReplyAgentStatus, StatusReport(UptimeOf(millis), rssi, QualityOf(rssi)))]
  }

  function HelpReplies(): seq<Outgoing> {
    [Outgoing(ReplyHelp, HelpMenu)]
  }

  /** The messages command `c` publishes. */
  function Replies(c: Command, o: Oracle): seq<Outgoing> {
    match c
    case Wake => WakeReplies(o.ping, o.udpSent, o.replies)
    case Verify => VerifyReplies(o.ping)
    case AgentStatus => StatusReplies(o.millis, o.rssi)
    case AgentRestart => [Outgoing(ReplyAgentRestart, Restarting)]
    case Shutdown => ShutdownReplies(o.endpointReached, o.ping)
    case Reboot => RebootReplies(o.endpointReached, o.replies)
    case Help => HelpReplies()
  }

  /** The time command `c` spends in `delay`, in milliseconds. */
  function Delay(c: Command, o: Oracle): nat {
    match c
    case Wake => WakeDelay(o.ping, o.udpSent, o.replies)
    case Verify => VerifyPause
    case AgentRestart => RestartPause
    case Shutdown => ShutdownDelay(o.endpointReached)
    case Reboot => RebootDelay(o.endpointReached, o.replies)
    case _ => 0
  }

  /** What the callback publishes for one inbound message. The error report
      goes straight to the broker client, so it is lost when no session is
      attached; the help menu that follows it reconnects first. */
  function CallbackReplies(connected: bool, topic: string, payload: string, o: Oracle): seq<Outgoing> {
    match Route(topic, payload)
    case Some(c) => Replies(c, o)
    case None =>
      (if connected then [Outgoing(ReplyError, UnknownCommand(topic))] else []) + HelpReplies()
  }

  function CallbackDelay(topic: string, payload: string, o: Oracle): nat {
    match Route(topic, payload)
    case Some(c) => Delay(c, o)
    case None => 0
  }

  /** The wake packets the callback puts on the wire. */
  function CallbackDatagrams(mac: Mac, topic: string, payload: string, o: Oracle): seq<seq<bv8>> {
    if Route(topic, payload) == Some(Wake) && !o.ping && o.udpSent then [Packet(mac)] else []
  }

  // ---------------------------------------------------------------------
  // Properties of the handlers

  /** Waking publishes two messages on the verification topic. The first
      says the computer already answered, the packet left, or the UDP send
      failed. The final one confirms power-on exactly when no computer
      answered beforehand, the packet left and some later probe answered;
      reports the partial outcome exactly when the packet left but no probe
      answered; and is the send-failure message in every other case, with
      no waiting. */
  lemma WakeOutcome(pcOn: bool, udpSent: bool, replies: seq<bool>)
    ensures |WakeReplies(pcOn, udpSent, replies)| == 2
    ensures forall p :: p in WakeReplies(pcOn, udpSent, replies) ==> p.topic == ReplyVerify
    ensures WakeReplies(pcOn, udpSent, replies)[0].message == AlreadyOn <==> pcOn
    ensures WakeReplies(pcOn, udpSent, replies)[0].message == WolSent <==> !pcOn && udpSent
    ensures WakeReplies(pcOn, udpSent, replies)[0].message == WolSendError <==> !pcOn && !udpSent
    ensures WakeReplies(pcOn, udpSent, replies)[1].message == PoweredOnByWol
            <==> !pcOn && udpSent && Confirmed(replies)
    ensures WakeReplies(pcOn, udpSent, replies)[1].message == WolNoResponse
            <==> !pcOn && udpSent && !Confirmed(replies)
    ensures WakeReplies(pcOn, udpSent, replies)[1].message == WolFailed <==> pcOn || !udpSent
    ensures pcOn || !udpSent ==> WakeDelay(pcOn, udpSent, replies) == 0
  {
  }

  /** The time waking spends: 12 s, then 3 s per probe up to the first one that
      answers, or 15 s when none of the five answers. */
  lemma WakeTiming(udpSent: bool, replies: seq<bool>)
    requires udpSent && |replies| == PollLimit
    ensures FirstReply(replies).Some? ==>
              WakeDelay(false, udpSent, replies) == 12000 + 3000 * (FirstReply(replies).value + 1)
    ensures FirstReply(replies).None? ==> WakeDelay(false, udpSent, replies) == 27000
  {
  }

  /** The computer comes up on the second probe: power-on is confirmed after
      12 + 2 x 3 = 18 seconds of waiting. */
  lemma WakeSecondProbe()
    ensures WakeReplies(false, true, [false, true, false, false, false])[1].message == PoweredOnByWol
    ensures WakeDelay(false, true, [false, true, false, false, false]) == 18000
  {
    var r := [false, true, false, false, false];
    assert r[1];
    assert FirstReply(r[1..]) == Some(0);
  }

  /** Rebooting publishes one message on its own topic: done exactly when the
      endpoint was reached and a probe answered, unconfirmed exactly when
      reached and none answered, unreachable exactly when not reached, in
      which case nothing is waited for. Its waiting mirrors waking with a
      15 s settle. */
  lemma RebootOutcome(reached: bool, replies: seq<bool>)
    requires |replies| == PollLimit
    ensures |RebootReplies(reached, replies)| == 1
    ensures RebootReplies(reached, replies)[0].topic == ReplyReboot
    ensures RebootReplies(reached, replies)[0].message == RebootDone <==> reached && Confirmed(replies)
    ensures RebootReplies(reached, replies)[0].message == RebootUnconfirmed <==> reached && !Confirmed(replies)
    ensures RebootReplies(reached, replies)[0].message == RebootUnreachable <==> !reached
    ensures !reached ==> RebootDelay(reached, replies) == 0
    ensures reached && FirstReply(replies).Some? ==>
              RebootDelay(reached, replies) == 15000 + 3000 * (FirstReply(replies).value + 1)
    ensures reached && FirstReply(replies).None? ==> RebootDelay(reached, replies) == 30000
  {
  }

  /** Shutting down publishes one message on its own topic: done exactly when
      the endpoint was reached and the single probe 5 s later got no answer,
      unconfirmed exactly when reached and the probe answered, unreachable
      exactly when not reached, in which case nothing is waited for. */
  lemma ShutdownOutcome(reached: bool, ping: bool)
    ensures |ShutdownReplies(reached, ping)| == 1
    ensures ShutdownReplies(reached, ping)[0].topic == ReplyShutdown
    ensures ShutdownReplies(reached, ping)[0].message == ShutdownDone <==> reached && !ping
    ensures ShutdownReplies(reached, ping)[0].message == ShutdownUnconfirmed <==> reached && ping
    ensures ShutdownReplies(reached, ping)[0].message == ShutdownUnreachable <==> !reached
    ensures ShutdownDelay(reached) == (if reached then 5000 else 0)
  {
  }

  /** Verification reports on or off, never a failure. */
  lemma VerifyNeverFails(ping: bool)
    ensures VerifyReplies(ping)[0].message == PcOn <==> ping
    ensures VerifyReplies(ping)[0].message == PcOff <==> !ping
  {
  }

  /** A routed command publishes at least one message, every one of them on
      that command's own reply topic. */
  lemma RoutedRepliesOnOwnTopic(connected: bool, topic: string, payload: string, o: Oracle, c: Command)
    requires Route(topic, payload) == Some(c)
    ensures 1 <= |CallbackReplies(connected, topic, payload, o)| <= 2
    ensures forall p :: p in CallbackReplies(connected, topic, payload, o) ==> p.topic == ReplyTopic(c)
  {
  }

  /** Any other input, on a live session, publishes exactly one error naming
      the offending topic, then the help menu, and waits for nothing. */
  lemma UnknownInputReplies(topic: string, payload: string, o: Oracle)
    requires Route(topic, payload) == None
    ensures CallbackReplies(true, topic, payload, o)
            == [Outgoing(ReplyError, UnknownCommand(topic)), Outgoing(ReplyHelp, HelpMenu)]
    ensures CallbackDelay(topic, payload, o) == 0
  {
  }

  // ---------------------------------------------------------------------
  // The agent

  class Agent {
    /** Hardware address of the computer to wake (static configuration). */
    const mac: Mac
    /** The broker client reports an attached session. */
    var connected: bool
    /** Topics the broker session is subscribed to. */
    var subscriptions: set<string>
    /** Every message the broker client accepted, in order. */
    var log: seq<Outgoing>
    /** Every wake packet the UDP socket accepted, in order. */
    var datagrams: seq<seq<bv8>>
    /** Clock reading at the last successful Wi-Fi (re)association. */
    var lastConnected: U32
    /** Whether a reconnection notice was already sent. */
    var reconnectNotified: bool
    /** The agent asked the chip to restart itself. */
    var restarting: bool
    /** Total time spent in `delay`, in milliseconds. */
    ghost var elapsed: nat

    /** Subscriptions do not survive a lost session, and the firmware never
        sets the notification flag: it is only ever cleared. */
    ghost predicate Valid()
      reads this
    {
      && subscriptions == (if connected then SubscribedSet() else {})
      && !reconnectNotified
    }

    /** Start-up: associate to Wi-Fi, attach to the broker, announce the
        update server, then announce the connection. */
    constructor Setup(mac: Mac, wifiUpAt: U32)
      ensures Valid() && this.mac == mac
      ensures connected && subscriptions == SubscribedSet()
      ensures log == [Outgoing(ReplyOta, OtaActive), Outgoing(ReplyWifi, WifiConnected)]
      ensures datagrams == [] && lastConnected == wifiUpAt && !restarting && elapsed == 0
    {
      this.mac := mac;
      connected, subscriptions, log, datagrams := false, {}, [], [];
      lastConnected, reconnectNotified, restarting := 0, false, false;
      elapsed := 0;
      new;
      ConnectWiFi(wifiUpAt);
      ConnectBroker();
      Publish(ReplyOta, OtaActive);
      Publish(ReplyWifi, WifiConnected);
    }

    /** The state after the Wi-Fi association loop ends. */
    method ConnectWiFi(now: U32)
      requires Valid()
      modifies this
      ensures Valid()
      ensures lastConnected == now && !reconnectNotified
      ensures connected == old(connected) && subscriptions == old(subscriptions)
      ensures log == old(log) && datagrams == old(datagrams)
      ensures restarting == old(restarting) && elapsed == old(elapsed)
    {
      lastConnected := now;
      reconnectNotified := false;
    }

    /** The state after the broker connection loop ends: attached, and
        subscribed to exactly the seven command topics. */
    method ConnectBroker()
      requires Valid()
      modifies this
      ensures Valid()
      ensures connected && subscriptions == SubscribedSet()
      ensures log == old(log) && datagrams == old(datagrams)
      ensures lastConnected == old(lastConnected) && restarting == old(restarting)
      ensures elapsed == old(elapsed)
    {
      connected := true;
      subscriptions := SubscribedSet();
    }

    /** The broker session drops (an event of the network, not of the firmware). */
    method BrokerLost()
      requires Valid()
      modifies this
      ensures Valid() && !connected
      ensures log == old(log) && datagrams == old(datagrams)
      ensures lastConnected == old(lastConnected) && restarting == old(restarting)
      ensures elapsed == old(elapsed)
    {
      connected := false;
      subscriptions := {};
    }

    /** A direct broker-client publish: delivered only on an attached session. */
    method RawPublish(topic: string, message: Message)
      requires Valid()
      modifies this
      ensures Valid()
      ensures log == old(log) + (if old(connected) then [Outgoing(topic, message)] else [])
      ensures connected == old(connected) && subscriptions == old(subscriptions)
      ensures datagrams == old(datagrams) && lastConnected == old(lastConnected)
      ensures restarting == old(restarting) && elapsed == old(elapsed)
    {
      if connected {
        log := log + [Outgoing(topic, message)];
      }
    }

    /** Publish with connection check: reattach first when the session is
        down, then publish exactly once. */
    method Publish(topic: string, message: Message)
      requires Valid()
      modifies this
      ensures Valid()
      ensures log == old(log) + [Outgoing(topic, message)]
      ensures connected && subscriptions == SubscribedSet()
      ensures datagrams == old(datagrams) && lastConnected == old(lastConnected)
      ensures restarting == old(restarting) && elapsed == old(elapsed)
    {
      if !connected {
        ConnectBroker();
      }
      log := log + [Outgoing(topic, message)];
    }

    /** Wi-Fi recovery: when the link is down and re-association succeeds,
        announce it, clear the notification flag and record the time; a failed
        attempt changes neither. */
    method ReconnectWiFi(associated: bool, reassociated: bool, now: U32)
      requires Valid()
      modifies this
      ensures Valid()
      ensures !associated && reassociated ==>
                log == old(log) + [Outgoing(ReplyWifi, WifiReconnected)]
                && lastConnected == now && connected && subscriptions == SubscribedSet()
      ensures associated || !reassociated ==>
                log == old(log) && lastConnected == old(lastConnected)
                && connected == old(connected) && subscriptions == old(subscriptions)
      ensures !reconnectNotified
      ensures datagrams == old(datagrams) && restarting == old(restarting)
      ensures elapsed == old(elapsed)
    {
      if !associated {
        if reassociated {
          Publish(ReplyWifi, WifiReconnected);
          reconnectNotified := false;
          lastConnected := now;
        }
      }
    }

    /** The wake-packet step: when the computer already answers, send nothing
        and report it; otherwise build the packet and report whether the UDP
        socket accepted it. Returns true exactly when the packet left. */
    method SendWakePacket(pcOn: bool, udpSent: bool) returns (sent: bool)
      requires Valid()
      modifies this
      ensures Valid()
      ensures sent <==> !pcOn && udpSent
      ensures datagrams == old(datagrams) + (if sent then [Packet(mac)] else [])
      ensures log == old(log) + SendWakeReplies(pcOn, udpSent)
      ensures connected && subscriptions == SubscribedSet()
      ensures lastConnected == old(lastConnected) && restarting == old(restarting)
      ensures elapsed == old(elapsed)
    {
      if pcOn {
        Publish(ReplyVerify, AlreadyOn);
        return false;
      }
      var packet := BuildPacket(mac);
      if udpSent {
        datagrams := datagrams + [packet[..]];
        Publish(ReplyVerify, WolSent);
        return true;
      } else {
        Publish(ReplyVerify, WolSendError);
        return false;
      }
    }

    /** Wake: send the packet, wait 12 s, then poll for an answer. */
    method Wake(pcOn: bool, udpSent: bool, replies: seq<bool>)
      requires Valid() && |replies| == PollLimit
      modifies this
      ensures Valid()
      ensures log == old(log) + WakeReplies(pcOn, udpSent, replies)
      ensures datagrams == old(datagrams) + (if !pcOn && udpSent then [Packet(mac)] else [])
      ensures elapsed == old(elapsed) + WakeDelay(pcOn, udpSent, replies)
      ensures connected && subscriptions == SubscribedSet()
      ensures lastConnected == old(lastConnected) && restarting == old(restarting)
    {
      var sent := SendWakePacket(pcOn, udpSent);
      if sent {
        elapsed := elapsed + WakeSettle;
        var verified, probes := AwaitReply(replies);
        elapsed := elapsed + PollInterval * probes;
        if verified {
          Publish(ReplyVerify, PoweredOnByWol);
        } else {
          Publish(ReplyVerify, WolNoResponse);
        }
      } else {
        Publish(ReplyVerify, WolFailed);
      }
    }

    /** Verify: one probe, reported as on or off. */
    method Verify(ping: bool)
      requires Valid()
      modifies this
      ensures Valid()
      ensures log == old(log) + VerifyReplies(ping)
      ensures elapsed == old(elapsed) + VerifyPause
      ensures connected && subscriptions == SubscribedSet()
      ensures datagrams == old(datagrams) && lastConnected == old(lastConnected)
      ensures restarting == old(restarting)
    {
      Publish(ReplyVerify, if ping then PcOn else PcOff);
      elapsed := elapsed + VerifyPause;
    }

    /** Shutdown: trigger the endpoint, wait 5 s, probe once. */
    method Shutdown(reached: bool, ping: bool)
      requires Valid()
      modifies this
      ensures Valid()
      ensures log == old(log) + ShutdownReplies(reached, ping)
      ensures elapsed == old(elapsed) + ShutdownDelay(reached)
      ensures connected && subscriptions == SubscribedSet()
      ensures datagrams == old(datagrams) && lastConnected == old(lastConnected)
      ensures restarting == old(restarting)
    {
      if reached {
        elapsed := elapsed + ShutdownSettle;
        if !ping {
          Publish(ReplyShutdown, ShutdownDone);
        } else {
          Publish(ReplyShutdown, ShutdownUnconfirmed);
        }
      } else {
        Publish(ReplyShutdown, ShutdownUnreachable);
      }
    }

    /** Reboot: trigger the endpoint, wait 15 s, then poll for an answer. */
    method Reboot(reached: bool, replies: seq<bool>)
      requires Valid() && |replies| == PollLimit
      modifies this
      ensures Valid()
      ensures log == old(log) + RebootReplies(reached, replies)
      ensures elapsed == old(elapsed) + RebootDelay(reached, replies)
      ensures connected && subscriptions == SubscribedSet()
      ensures datagrams == old(datagrams) && lastConnected == old(lastConnected)
      ensures restarting == old(restarting)
    {
      if reached {
        elapsed := elapsed + RebootSettle;
        var verified, probes := AwaitReply(replies);
        elapsed := elapsed + PollInterval * probes;
        if verified {
          Publish(ReplyReboot, RebootDone);
        } else {
          Publish(ReplyReboot, RebootUnconfirmed);
        }
      } else {
        Publish(ReplyReboot, RebootUnreachable);
      }
    }

    /** Help: publish the menu of chat commands. */
    method ShowHelp()
      requires Valid()
      modifies this
      ensures Valid()
      ensures log == old(log) + HelpReplies()
      ensures connected && subscriptions == SubscribedSet()
      ensures datagrams == old(datagrams) && lastConnected == old(lastConnected)
      ensures restarting == old(restarting) && elapsed == old(elapsed)
    {
      Publish(ReplyHelp, HelpMenu);
    }

    /** Agent status: uptime and signal quality. */
    method ReportStatus(millis: U32, rssi: int)
      requires Valid()
      modifies this
      ensures Valid()
      ensures log == old(log) + StatusReplies(millis, rssi)
      ensures connected && subscriptions == SubscribedSet()
      ensures datagrams == old(datagrams) && lastConnected == old(lastConnected)
      ensures restarting == old(restarting) && elapsed == old(elapsed)
    {
      var uptime := UptimeOf(millis);
      var quality := QualityOf(rssi);
      Publish(ReplyAgentStatus, StatusReport(uptime, rssi, quality));
    }

    /** Agent restart: announce, wait 1 s for delivery, restart the chip. */
    method RestartAgent()
      requires Valid()
      modifies this
      ensures Valid()
      ensures log == old(log) + [Outgoing(ReplyAgentRestart, Restarting)]
      ensures elapsed == old(elapsed) + RestartPause && restarting
      ensures connected && subscriptions == SubscribedSet()
      ensures datagrams == old(datagrams) && lastConnected == old(lastConnected)
    {
      Publish(ReplyAgentRestart, Restarting);
      elapsed := elapsed + RestartPause;
      restarting := true;
    }

    /** The message callback: dispatch a routed command to its handler, and
        answer anything else with an error naming the topic and the help
        menu. */
    method HandleMessage(topic: string, payload: string, o: Oracle)
      requires Valid() && Complete(o)
      modifies this
      ensures Valid()
      ensures log == old(log) + CallbackReplies(old(connected), topic, payload, o)
      ensures datagrams == old(datagrams) + CallbackDatagrams(mac, topic, payload, o)
      ensures elapsed == old(elapsed) + CallbackDelay(topic, payload, o)
      ensures restarting == (old(restarting) || Route(topic, payload) == Some(AgentRestart))
      ensures connected && subscriptions == SubscribedSet()
      ensures lastConnected == old(lastConnected)
    {
      var command := Route(topic, payload);
      match command {
        case Some(Wake) => Wake(o.ping, o.udpSent, o.replies);
        case Some(Verify) => Verify(o.ping);
        case Some(AgentStatus) => ReportStatus(o.millis, o.rssi);
        case Some(AgentRestart) => RestartAgent();
        case Some(Shutdown) => Shutdown(o.endpointReached, o.ping);
        case Some(Reboot) => Reboot(o.endpointReached, o.replies);
        case Some(Help) => ShowHelp();
        case None =>
          RawPublish(ReplyError, UnknownCommand(topic));
          ShowHelp();
      }
    }

    /** One pass of the main loop: reattach if the session dropped, then hand
        the message the client has queued, if any, to the callback. */
    method Step(inbound: Option<(string, string)>, o: Oracle)
      requires Valid() && Complete(o)
      modifies this
      ensures Valid()
      ensures connected && subscriptions == SubscribedSet()
      ensures inbound.None? ==> log == old(log) && elapsed == old(elapsed)
      ensures inbound.Some? ==>
                log == old(log) + CallbackReplies(true, inbound.value.0, inbound.value.1, o)
                && elapsed == old(elapsed) + CallbackDelay(inbound.value.0, inbound.value.1, o)
      ensures datagrams == old(datagrams)
                           + (if inbound.Some? then CallbackDatagrams(mac, inbound.value.0, inbound.value.1, o) else [])
      ensures restarting == (old(restarting) || (inbound.Some? && Route(inbound.value.0, inbound.value.1) == Some(AgentRestart)))
      ensures lastConnected == old(lastConnected)
    {
      if !connected {
        ConnectBroker();
      }
      if inbound.Some? {
        HandleMessage(inbound.value.0, inbound.value.1, o);
      }
    }
  }
}
