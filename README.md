# ESP32 power-control agent: a verified model

This project models the command-handling core of the ESP32 agent that
powers a remote computer on, shuts it down, reboots it and reports on it,
driven by MQTT messages. Two firmware versions are modelled. `bot/main.py` is
the later one. `main.py` is the earlier one. Both are Arduino C++ despite the
extension.

- **Routing** (`routing.dfy`, `legacy_agent.dfy`). The message callback picks
  a command only when the topic is one of the command topics and the payload
  reads as `"true"`. The payload is copied byte for byte and compared as a C
  string, so `"true"` followed by a NUL byte and anything after it also
  dispatches (`CString`, `TrailingBytesAfterNul`). The later firmware answers any other input with an
  error naming the topic, followed by the help menu. The earlier firmware
  ignores other inputs. In both, the topics subscribed after a broker connect
  are exactly the routed topics: seven in the later firmware, six in the
  earlier one, which has no `mqtt/pc/ayuda`.
- **Wake-on-LAN packet** (`magic_packet.dfy`). A 102-byte buffer is filled in
  place: six `0xFF` bytes, then the MAC address in each of the blocks 1 to 16.
  `BuildPacket` is proved to produce `Packet(mac)`. The packet is proved to be
  the unique byte string a receiver's check accepts, and every address block
  of it holds the address it was built for.
- **Confirmation sequence** (`confirmation.dfy`). After a wake or reboot, the
  agent sends at most five reachability probes, 3 s apart, and stops at the
  first one that answers. `AwaitReply` is the loop; `FirstReply` and `Probes`
  specify it.
- **Status arithmetic** (`status.dfy`). Uptime is split into hours, minutes
  and seconds, and the decomposition is proved unique and monotone. RSSI is
  bucketed at -60, -70 and -80 dBm.
- **Agent state** (`agent.dfy`, `legacy_agent.dfy`). Each firmware is a
  class. Its fields are the broker session (`connected`, `subscriptions`),
  the log of published `(topic, message)` pairs, the log of wake packets
  sent, the Wi-Fi bookkeeping globals (`lastConnected` for
  `ultimaConexionExitosa`, `reconnectNotified` for
  `yaNotificadoReconexion`), a restart flag, and a ghost `elapsed` counter
  of milliseconds spent in `delay`. Reachability probes, the UDP send
  result, the TCP connect result, the clock and the RSSI reading are inputs
  (`Oracle`). A dropped broker session is an environment event (`BrokerLost`).

Points where the code's behaviour is easy to misread, and which the model
follows as written:

- The flag `yaNotificadoReconexion` ("already notified of reconnection")
  is only ever assigned `false` and is never read, so it suppresses
  nothing. `Valid()` keeps it false, and `ReconnectWiFi` announces every
  successful re-association.
- `enviarWOL` returns `false` when the computer already answers the first
  probe, so `encenderPC` publishes "already on" and then also the "could
  not send wake packet" error (`WakeOutcome` states this).
- `publicarMQTT` runs the unbounded broker connect loop when no session is
  attached, then publishes exactly once; it does not retry the publish.
- The unknown-command error goes straight to the broker client, not
  through `publicarMQTT`. With no session attached it is lost, and only the
  help menu, which does reconnect, goes out (`CallbackReplies`).

## Model

| member | source | states |
|---|---|---|
| Status.UptimeOf | bot/main.py:294-297 | hours·3600 + minutes·60 + seconds = millis/1000, with minutes and seconds below 60 |
| Status.UptimeUnique | bot/main.py:294-297 | any normal h/m/s reading of the same seconds is the one computed |
| Status.UptimeMonotone | bot/main.py:294-297 | a later clock reading never gives an earlier uptime (lexicographically) |
| Status.QualityOf | bot/main.py:299-310 | Excelente iff rssi ≥ -60, Buena iff -70 ≤ rssi < -60, Regular iff -80 ≤ rssi < -70, Mala iff rssi < -80 |
| Status.QualityMonotone | bot/main.py:302-310 | a stronger signal never gets a worse label |
| Status.QualityExample | bot/main.py:302-310 | -65 dBm is Buena; the boundary values fall in the upper bucket |
| MagicPacket.MacBlocksAt | bot/main.py:124 | every byte of n address copies is the address byte at its offset mod 6 |
| MagicPacket.PacketIsMagic | bot/main.py:122-124 | the packet is 102 bytes, bytes 0..5 are 0xFF, byte i ≥ 6 is mac[i mod 6] |
| MagicPacket.MagicPacketUnique | bot/main.py:122-124 | a byte string passes the receiver's magic-packet check for mac iff it is the packet built for mac |
| MagicPacket.PacketBlocks | bot/main.py:122-124 | blocks 1..16 each equal the MAC, and the MAC read back from the packet is the one it was built for |
| MagicPacket.BuildPacket | bot/main.py:122-124 | the in-place fill yields a 102-byte buffer holding exactly the magic packet |
| Confirmation.FirstReplySpec | bot/main.py:206-212 | the first answering probe is found, and none is found iff no probe answered |
| Confirmation.ProbesBound | bot/main.py:206-212 | polling sends at least one and at most all probes, and stops early only on an answer |
| Confirmation.AwaitReply | bot/main.py:205-212 | the loop reports success iff some of the five probes answered; it stops at the first answer, or after all five |
| Protocol.CommandTopicInjective | bot/main.py:84-104 | distinct commands arrive on distinct topics |
| Protocol.CString | bot/main.py:80-84 | the text the payload comparison sees is a prefix of the payload, holds no NUL, and stops only at a NUL or the end |
| Protocol.CStringIsTrue | bot/main.py:80-84 | a payload compares equal to "true" iff it is "true" or starts with "true" and a NUL |
| Routing.Route | bot/main.py:84-104 | a command is chosen iff the payload reads as "true" and the topic is subscribed, and the command is the one whose topic it is |
| Routing.RouteExactly | bot/main.py:84-104 | input dispatches to c iff it is c's topic with payload "true", or "true" followed by a NUL and anything (exactly one handler per input) |
| Routing.NonTruePayloadRefused | bot/main.py:84-105 | any payload other than "true" and "true" followed by a NUL is refused on every topic |
| Routing.TrailingBytesAfterNul | bot/main.py:80-85 | the payload "true", NUL, "x" on the wake topic dispatches the wake command |
| Routing.SubscriptionsMatchRouting | bot/main.py:48-56 | a topic is subscribed after connect iff the callback routes it |
| Routing.SubscriptionCount | bot/main.py:50-56 | there are seven distinct subscriptions |
| Agent.WakeOutcome | bot/main.py:202-225 | waking publishes two messages on the verify topic; the first is "already on" iff the PC answered, "sent" iff it did not and the UDP send succeeded, the send error iff it did not and the send failed; the second confirms power-on iff the PC was off, the packet left and a probe answered, is the partial outcome iff the packet left and no probe answered, and is the "could not send wake packet" failure iff the PC answered or the send failed, with no wait then |
| Agent.WakeTiming | bot/main.py:203-212 | waiting is 12000 + 3000·k ms for an answer on probe k, else 27000 ms |
| Agent.WakeSecondProbe | bot/main.py:202-220 | an answer on the second probe confirms power-on after 18 s |
| Agent.RebootOutcome | bot/main.py:252-277 | one message on the reboot topic: done iff reached and a probe answered, unconfirmed iff reached and no probe answered, unreachable iff the connect failed; waiting is 15000 + 3000·k or 30000 ms when reached, none otherwise |
| Agent.ShutdownOutcome | bot/main.py:228-249 | one message on the shutdown topic: done iff reached and the single later probe failed, unconfirmed iff reached and the probe answered, unreachable iff the connect failed; 5000 ms of waiting iff reached |
| Agent.VerifyNeverFails | bot/main.py:193-200 | verification reports PC on iff the probe answered, else PC off |
| Agent.RoutedRepliesOnOwnTopic | bot/main.py:84-104 | a routed command publishes one or two messages, all on its own reply topic |
| Agent.UnknownInputReplies | bot/main.py:105-110 | any other input on a live session publishes one error naming the topic, then the help menu, with no wait |
| Agent.Agent.Setup | bot/main.py:142-149 | start-up attaches, subscribes to the seven topics, records the Wi-Fi time, clears the flag, and announces the update server and the connection |
| Agent.Agent.ConnectWiFi | bot/main.py:25-40 | after association, lastConnected is the current time and the notification flag is cleared |
| Agent.Agent.ConnectBroker | bot/main.py:42-63 | after the connect loop, the session is attached and subscribed to exactly the seven routed topics |
| Agent.Agent.BrokerLost | bot/main.py:155-158 | a dropped session holds no subscriptions, which is why every reconnect subscribes again |
| Agent.Agent.RawPublish | bot/main.py:107 | a direct client publish is logged iff a session is attached |
| Agent.Agent.Publish | bot/main.py:66-77 | publishes exactly once, attached or not, reattaching first when needed |
| Agent.Agent.ReconnectWiFi | bot/main.py:322-344 | a successful re-association publishes one notice, clears the flag and records the time; a failed one, or a link already up, changes neither |
| Agent.Agent.SendWakePacket | bot/main.py:114-140 | returns true iff the PC did not answer and the UDP send succeeded; a packet is sent only then; one message reports which case |
| Agent.Agent.Wake | bot/main.py:202-226 | log, packets sent and waiting are as WakeReplies, the packet log and WakeDelay say |
| Agent.Agent.Verify | bot/main.py:193-200 | one on/off message on the verify topic and a 100 ms pause |
| Agent.Agent.Shutdown | bot/main.py:228-249 | log and waiting are as ShutdownReplies and ShutdownDelay say |
| Agent.Agent.Reboot | bot/main.py:252-277 | log and waiting are as RebootReplies and RebootDelay say |
| Agent.Agent.ShowHelp | bot/main.py:279-291 | one help-menu message on the help topic |
| Agent.Agent.ReportStatus | bot/main.py:293-319 | one status message carrying UptimeOf(millis), the RSSI and QualityOf(rssi) |
| Agent.Agent.RestartAgent | bot/main.py:346-351 | announces the restart, waits 1000 ms, then restarts |
| Agent.Agent.HandleMessage | bot/main.py:79-112 | the callback publishes CallbackReplies, sends a wake packet only for a routed wake that was sent, and leaves the session attached and subscribed |
| Agent.Agent.Step | bot/main.py:151-164 | one loop pass reattaches if needed, then handles the queued message on a live session: log, waiting, packets sent and the restart flag change exactly as the callback's functions say, and not at all without a message |
| LegacyAgent.LegacyRoute | main.py:61-102 | a command is chosen iff the payload reads as "true" and the topic is one of the six subscribed; never help |
| LegacyAgent.LegacyRouteExactly | main.py:61-102 | input dispatches to c iff c is not help and the input is c's topic with payload "true", or "true" followed by a NUL and anything |
| LegacyAgent.LegacyRouteIsRouteWithoutHelp | main.py:61-102 | the earlier routing equals the later one with help removed |
| LegacyAgent.LegacySubscriptionsMatchRouting | main.py:40-47 | a topic is subscribed iff routed; the help topic is neither; the set is the later one minus help |
| LegacyAgent.LegacyOutcomes | main.py:61-102 | shutdown and reboot each answer once on their own topic, "request sent" iff the endpoint was reached and "unreachable" iff it was not; verification answers once, on iff the probe answered and off iff it did not; waking publishes nothing |
| LegacyAgent.LegacyIgnoresUnknown | main.py:61-103 | any input outside the six-topic table, or whose payload does not read as "true", publishes nothing |
| LegacyAgent.LegacyAgent.Setup | main.py:115-121 | start-up attaches and subscribes to the six topics, publishing nothing |
| LegacyAgent.LegacyAgent.ConnectBroker | main.py:34-54 | after the connect loop, the session is attached and subscribed to exactly the six routed topics |
| LegacyAgent.LegacyAgent.BrokerLost | main.py:124 | a dropped session holds no subscriptions |
| LegacyAgent.LegacyAgent.RawPublish | main.py:69 | a client publish is logged iff a session is attached |
| LegacyAgent.LegacyAgent.SendWakePacket | main.py:105-113 | the packet for the compiled-in MAC is always built and sent with no probe first; returns true iff the UDP send succeeded |
| LegacyAgent.LegacyAgent.HandleMessage | main.py:56-103 | the callback publishes LegacyCallbackReplies when attached, sends the wake packet on a routed wake, and restarts on a routed restart |
| LegacyAgent.LegacyAgent.Step | main.py:123-126 | one loop pass reattaches if needed, then handles the queued message: log, packets sent, waiting and the restart flag change exactly as the callback does, and not at all without a message |

## Left out

- The chat gateway is not part of this model: none of its code is among the files modelled.
- The Wi-Fi association loop and the broker connect loop retry without bound over library status calls. Only their end state is modelled (`ConnectWiFi`, `ConnectBroker`). The static IP configuration is left out.
- TLS set-up, UDP socket calls, reachability probes, and the TCP connect and HTTP request to the computer's endpoint (path, token, host header) are library I/O. Their results are inputs. The IP addresses and ports are not modelled, so the packet log does not record the broadcast address or port 9.
- The HTTP firmware-update server and the flashing it does are left out. Only the "update server active" announcement at start-up is kept.
- `ESP.restart()` is a flag. The chip rebooting and running start-up again is not modelled.
- Serial logging is left out.
- The Arduino core's `String` class is not part of this model. Its `==` against a literal is modelled as a C-string comparison that stops at the first NUL (`CString`); the byte-for-byte copy of the payload keeps NULs.
- `elapsed` counts only `delay` calls in the handlers. Time spent inside probes, connects and the connect loops is not counted: 500 ms per Wi-Fi poll, 2000 ms per failed broker attempt, and up to 10 s in `reconectarWiFi`.
- Messages are compared by identity. IP, SSID, emoji and the help-menu text are not modelled. The status report carries its uptime, RSSI and quality as values.
- `verificarPC` calls the client's `loop()` from inside the handler, which could deliver another message re-entrantly. That call is not modelled.
- `reconectarWiFi` is never called by the firmware: the line in `loop()` that names it is a declaration. It is modelled as a standalone method.
- The later firmware's MAC address comes from a configuration header that is not part of this model. It is a constructor parameter.
- `Step` hands the callback at most one queued message per pass. The client library may deliver several.
- The probe oracle of a wake or reboot supplies exactly five answers, one for each probe the confirmation loop may send. Answers after the first success are unused.
- Status.UptimeMonotone: holds only while the 32-bit millisecond counter has not wrapped between the two readings.
- The RSSI reading is an unbounded integer rather than the driver's 8-bit value; the thresholds are unaffected.
