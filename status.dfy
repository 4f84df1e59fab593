/** The arithmetic of the agent-status report: uptime split into hours,
    minutes and seconds, and the received signal strength bucketed into
    four quality levels. */
module Status {

  /** An Arduino `unsigned long` on the ESP32: 32 bits. `millis()` returns one. */
  type U32 = x: int | 0 <= x < 0x1_0000_0000

  datatype Uptime = Uptime(hours: nat, minutes: nat, seconds: nat)

  /** Whole seconds an uptime stands for. */
  function TotalSeconds(u: Uptime): nat {
    u.hours * 3600 + u.minutes * 60 + u.seconds
  }

  /** A well-formed clock reading: minutes and seconds below 60. */
  predicate Normal(u: Uptime) {
    u.minutes < 60 && u.seconds < 60
  }

  /** Uptime of the agent given the current `millis()` reading: whole seconds
      are `millis / 1000`, then hours, minutes and seconds of those. */
  function UptimeOf(millis: U32): (u: Uptime)
    ensures Normal(u)
    ensures TotalSeconds(u) == millis / 1000
  {
    var up := millis / 1000;
    Uptime(up / 3600, (up % 3600) / 60, up % 60)
  }

  /** The decomposition is unique: any normal reading of the same number of
      seconds is the one `UptimeOf` returns. */
  lemma UptimeUnique(millis: U32, u: Uptime)
    requires Normal(u) && TotalSeconds(u) == millis / 1000
    ensures u == UptimeOf(millis)
  {
    var up := millis / 1000;
    var v := UptimeOf(millis);
    assert u.minutes * 60 + u.seconds < 3600;
    assert v.minutes * 60 + v.seconds < 3600;
    assert u.hours == up / 3600 == v.hours;
    assert u.minutes * 60 + u.seconds == v.minutes * 60 + v.seconds;
    assert u.seconds == (u.minutes * 60 + u.seconds) % 60;
    assert u.seconds == v.seconds;
  }

  /** Lexicographic order of clock readings. */
  predicate NotLater(a: Uptime, b: Uptime) {
    a.hours < b.hours
    || (a.hours == b.hours && a.minutes < b.minutes)
    || (a.hours == b.hours && a.minutes == b.minutes && a.seconds <= b.seconds)
  }

  /** Two reports taken in order (and without the 32-bit counter wrapping in
      between) show uptimes in the same order. */
  lemma UptimeMonotone(earlier: U32, later: U32)
    requires earlier <= later
    ensures NotLater(UptimeOf(earlier), UptimeOf(later))
  {
    var a, b := UptimeOf(earlier), UptimeOf(later);
    assert earlier / 1000 <= later / 1000;
    assert TotalSeconds(a) <= TotalSeconds(b);
    assert a.minutes * 60 + a.seconds < 3600 && b.minutes * 60 + b.seconds < 3600;
    if a.hours == b.hours && a.minutes == b.minutes {
      assert a.seconds <= b.seconds;
    }
  }

  /** The signal-quality labels of the status report. */
  datatype Quality = Excelente | Buena | Regular | Mala

  /** Position of a label on the scale, best first. */
  function Rank(q: Quality): nat {
    match q
    case Excelente => 0
    case Buena => 1
    case Regular => 2
    case Mala => 3
  }

  /** Bucketing of an RSSI reading (dBm) into four quality levels. */
  function QualityOf(rssi: int): (q: Quality)
    ensures q == Excelente <==> -60 <= rssi
    ensures q == Buena <==> -70 <= rssi < -60
    ensures q == Regular <==> -80 <= rssi < -70
    ensures q == Mala <==> rssi < -80
  {
    if rssi >= -60 then Excelente
    else if rssi >= -70 then Buena
    else if rssi >= -80 then Regular
    else Mala
  }

  /** A stronger signal never gets a worse label. */
  lemma QualityMonotone(weaker: int, stronger: int)
    requires weaker <= stronger
    ensures Rank(QualityOf(stronger)) <= Rank(QualityOf(weaker))
  {
  }

  /** -65 dBm is reported as a good signal. */
  lemma QualityExample()
    ensures QualityOf(-65) == Buena
    ensures QualityOf(-60) == Excelente && QualityOf(-80) == Regular && QualityOf(-81) == Mala
  {
  }
}
