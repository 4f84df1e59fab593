/** The confirmation sequence shared by wake and reboot: after the action,
    probe the computer's reachability at most five times, three seconds
    apart, and stop at the first probe that answers. */
module Confirmation {

  import opened Wrappers

  /** Number of probes before giving up. */
  const PollLimit: nat := 5
  /** Wait before each probe, in milliseconds. */
  const PollInterval: nat := 3000

  /** Index of the first probe that answered, if any. */
  function FirstReply(replies: seq<bool>): Option<nat> {
    if replies == [] then None
    else if replies[0] then Some(0)
    else match FirstReply(replies[1..])
      case None => None
      case Some(k) => Some(k + 1)
  }

  /** Some probe among `replies` answered. */
  predicate Confirmed(replies: seq<bool>) {
    exists i :: 0 <= i < |replies| && replies[i]
  }

  /** How many probes the sequence sends: up to and including the first one
      that answers, or all of them. */
  function Probes(replies: seq<bool>): nat {
    match FirstReply(replies)
    case Some(k) => k + 1
    case None => |replies|
  }

  /** `FirstReply` finds the first answering probe, and finds none exactly
      when no probe answered. */
  lemma {:induction false} FirstReplySpec(replies: seq<bool>)
    ensures FirstReply(replies).None? <==> !Confirmed(replies)
    ensures FirstReply(replies).Some? ==>
      var k := FirstReply(replies).value;
      k < |replies| && replies[k] && forall j :: 0 <= j < k ==> !replies[j]
  {
    if replies != [] && !replies[0] {
      var rest := replies[1..];
      FirstReplySpec(rest);
      if Confirmed(replies) {
        var i :| 0 <= i < |replies| && replies[i];
        assert rest[i - 1];
      }
      if Confirmed(rest) {
        var i :| 0 <= i < |rest| && rest[i];
        assert replies[i + 1];
      }
      if FirstReply(rest).Some? {
        var k := FirstReply(rest).value;
        forall j | 0 <= j < k + 1 ensures !replies[j] {
          if j > 0 { assert replies[j] == rest[j - 1]; }
        }
      }
    }
  }

  /** Probing stops early exactly when a probe answered. */
  lemma ProbesBound(replies: seq<bool>)
    ensures 0 < Probes(replies) <= |replies| || replies == []
    ensures Probes(replies) < |replies| ==> Confirmed(replies)
  {
    FirstReplySpec(replies);
  }

  /** Runs the polling loop over the probe answers `replies` (the i-th entry
      is what the i-th probe would return). Returns whether some probe
      answered and how many probes were sent. */
  method AwaitReply(replies: seq<bool>) returns (verified: bool, probes: nat)
    requires |replies| == PollLimit
    ensures verified == Confirmed(replies)
    ensures probes == Probes(replies)
    ensures 1 <= probes <= PollLimit
    ensures verified ==> replies[probes - 1] && forall j :: 0 <= j < probes - 1 ==> !replies[j]
    ensures !verified ==> probes == PollLimit
  {
    FirstReplySpec(replies);
    verified, probes := false, 0;
    var i := 0;
    while i < PollLimit
      invariant 0 <= i <= PollLimit
      invariant probes == i
      invariant forall j :: 0 <= j < i ==> !replies[j]
    {
      probes := probes + 1;
      if replies[i] {
        verified := true;
        break;
      }
      i := i + 1;
    }
  }
}
