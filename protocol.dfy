/** The message-topic contract between the chat gateway and the agent: the
    command topics the agent listens on, the response topics it writes to,
    the commands, and the identities of the messages it publishes. */
module Protocol {
  import opened Status

  /** The payload that triggers a command; anything else is ignored or refused. */
  const TruePayload: string := "true"

  /** The pause that lets the restart announcement leave before the chip
      restarts, in milliseconds. */
  const RestartPause: nat := 1000

  /** The text a C-string comparison sees: everything before the first NUL
      character. The callback copies the payload byte for byte, NULs
      included, and the string `==` against a literal compares as C strings. */
  function CString(s: string): (c: string)
    ensures c <= s
    ensures '\0' !in c
    ensures |c| < |s| ==> s[|c|] == '\0'
  {
    if s == [] || s[0] == '\0' then [] else [s[0]] + CString(s[1..])
  }

  /** A payload reads as "true" exactly when it is "true", or "true"
      followed by a NUL and anything at all. */
  lemma {:induction false} CStringIsTrue(payload: string)
    ensures CString(payload) == TruePayload <==> payload == TruePayload || TruePayload + ['\0'] <= payload
  {
    var c := CString(payload);
    if c == TruePayload {
      if |payload| > |c| {
        assert payload[..5] == TruePayload + ['\0'];
      } else {
        assert payload == c;
      }
    }
    if payload == TruePayload || TruePayload + ['\0'] <= payload {
      assert payload[..4] == TruePayload;
      CStringOfPrefix(payload, 4);
    }
  }

  /** When the first `n` characters hold no NUL and are followed by one (or
      by the end), the C-string view is exactly those `n` characters. */
  lemma {:induction false} CStringOfPrefix(s: string, n: nat)
    requires n <= |s|
    requires forall i :: 0 <= i < n ==> s[i] != '\0'
    requires n < |s| ==> s[n] == '\0'
    ensures CString(s) == s[..n]
    decreases n
  {
  }

  const TopicWake: string := "mqtt/pc/encender"
  const TopicVerify: string := "mqtt/pc/verificar"
  const TopicAgentStatus: string := "mqtt/pc/estado_esp32"
  const TopicAgentRestart: string := "mqtt/pc/reiniciar_esp32"
  const TopicShutdown: string := "mqtt/pc/apagar"
  const TopicReboot: string := "mqtt/pc/reiniciar_pc"
  const TopicHelp: string := "mqtt/pc/ayuda"

  const ReplyVerify: string := "mqtt/respuesta/verificar"
  const ReplyAgentStatus: string := "mqtt/respuesta/estado_esp32"
  const ReplyAgentRestart: string := "mqtt/respuesta/reiniciar_esp32"
  const ReplyShutdown: string := "mqtt/respuesta/apagar"
  const ReplyReboot: string := "mqtt/respuesta/reiniciar_pc"
  const ReplyWifi: string := "mqtt/respuesta/reconexion_wifi"
  const ReplyOta: string := "mqtt/respuesta/ota_estado"
  const ReplyHelp: string := "mqtt/respuesta/ayuda"
  const ReplyError: string := "mqtt/respuesta/error"

  datatype Command = Wake | Verify | AgentStatus | AgentRestart | Shutdown | Reboot | Help

  /** The topic each command arrives on. */
  function CommandTopic(c: Command): string {
    match c
    case Wake => TopicWake
    case Verify => TopicVerify
    case AgentStatus => TopicAgentStatus
    case AgentRestart => TopicAgentRestart
    case Shutdown => TopicShutdown
    case Reboot => TopicReboot
    case Help => TopicHelp
  }

  /** The topic each command's answers go to; waking answers on the
      verification topic. */
  function ReplyTopic(c: Command): string {
    match c
    case Wake => ReplyVerify
    case Verify => ReplyVerify
    case AgentStatus => ReplyAgentStatus
    case AgentRestart => ReplyAgentRestart
    case Shutdown => ReplyShutdown
    case Reboot => ReplyReboot
    case Help => ReplyHelp
  }

  /** Distinct commands arrive on distinct topics. */
  lemma CommandTopicInjective(c: Command, d: Command)
    ensures CommandTopic(c) == CommandTopic(d) <==> c == d
  {
  }

  /** What the agent says, by identity (emoji, IP and SSID text aside). */
  datatype Message =
    | AlreadyOn            // the computer already answered the pre-wake probe
    | WolSent              // the wake packet left the UDP socket
    | WolSendError         // the UDP socket refused the wake packet
    | WolFailed            // the final "could not send wake packet" report
    | PoweredOnByWol       // a probe answered after the wake packet
    | WolNoResponse        // no probe answered after the wake packet
    | PcOn | PcOff         // the verification probe answered / did not
    | ShutdownDone | ShutdownUnconfirmed | ShutdownUnreachable | ShutdownRequested
    | RebootDone | RebootUnconfirmed | RebootUnreachable | RebootRequested
    | StatusReport(uptime: Uptime, rssi: int, quality: Quality)
    | PlainStatusReport(uptimeSeconds: nat, rssi: int)
    | Restarting
    | HelpMenu
    | UnknownCommand(topic: string)
    | WifiConnected | WifiReconnected | OtaActive

  /** One message handed to the broker client. */
  datatype Outgoing = Outgoing(topic: string, message: Message)
}
