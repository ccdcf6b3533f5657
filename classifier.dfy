/**
 * The per-reading classifier of the flood node: the five-step rain-intensity
 * ladder, the rain-gated flood-status rule and the distance produced by the
 * ultrasonic sensor, including the sentinel used when no echo comes back.
 */
module Classifier {
  import opened Wrappers

  /** Rain intensity, from driest to wettest. */
  datatype Intensity = NoRain | LightRain | ModerateRain | HeavyRain | TorrentialRain {
    /** Position on the ladder: 0 for NO RAIN up to 4 for TORRENTIAL RAIN. */
    function Severity(): (n: nat)
      ensures n <= 4
      ensures n == 0 <==> this == NoRain
      ensures n == 4 <==> this == TorrentialRain
    {
      match this
      case NoRain => 0
      case LightRain => 1
      case ModerateRain => 2
      case HeavyRain => 3
      case TorrentialRain => 4
    }
  }

  /** Flood status, from calmest to most severe. */
  datatype Status = Normal | RainAlert | FloodRisk | CriticalFlood {
    /** Position on the ladder: 0 for NORMAL up to 3 for CRITICAL FLOOD. */
    function Level(): (n: nat)
      ensures n <= 3
      ensures n == 0 <==> this == Normal
      ensures n == 3 <==> this == CriticalFlood
    {
      match this
      case Normal => 0
      case RainAlert => 1
      case FloodRisk => 2
      case CriticalFlood => 3
    }
  }

  /** Distance reported when the echo pin times out. */
  const NoEchoDistance: real := 400.0

  /**
   * The distance in centimetres computed from an echo pulse length in
   * microseconds; a pulse length of 0 means that no echo arrived.
   * The conversion is stated over exact reals.
   */
  function EchoDistance(duration: int): (d: real)
    ensures duration == 0 ==> d == NoEchoDistance
    ensures duration > 0 ==> 0.0 < d && d * 2.0 == duration as real * 0.034
  {
    if duration == 0 then NoEchoDistance else (duration as real * 0.034) / 2.0
  }

  /**
   * The rain-intensity ladder on the raw analog value (higher is drier).
   * Each comparison is a strict "greater than", so a value that sits exactly
   * on a cutoff gets the wetter label.
   */
  function RainIntensity(raw: int): (r: Intensity)
    ensures r == NoRain <==> 3600 < raw
    ensures r == LightRain <==> 3000 < raw <= 3600
    ensures r == ModerateRain <==> 2400 < raw <= 3000
    ensures r == HeavyRain <==> 1800 < raw <= 2400
    ensures r == TorrentialRain <==> raw <= 1800
  {
    if raw > 3600 then NoRain
    else if raw > 3000 then LightRain
    else if raw > 2400 then ModerateRain
    else if raw > 1800 then HeavyRain
    else TorrentialRain
  }

  /**
   * The flood-status rule: only rain below 2400 can raise the status above
   * NORMAL, and the water distance then picks the level.
   */
  function FloodStatus(raw: int, distance: real): (r: Status)
    ensures r == Normal <==> 2400 <= raw
    ensures r == RainAlert <==> raw < 2400 && 20.0 <= distance
    ensures r == FloodRisk <==> raw < 2400 && 10.0 <= distance < 20.0
    ensures r == CriticalFlood <==> raw < 2400 && distance < 10.0
  {
    if raw < 2400 && distance < 10.0 then CriticalFlood
    else if raw < 2400 && distance < 20.0 then FloodRisk
    else if raw < 2400 then RainAlert
    else Normal
  }

  /** The text the node stores and sends for an intensity. */
  function IntensityLabel(i: Intensity): (s: string)
    ensures |s| > 0 && '"' !in s
  {
    match i
    case NoRain => "NO RAIN"
    case LightRain => "LIGHT RAIN"
    case ModerateRain => "MODERATE RAIN"
    case HeavyRain => "HEAVY RAIN"
    case TorrentialRain => "TORRENTIAL RAIN"
  }

  /** The text the node stores and sends for a flood status. */
  function StatusLabel(st: Status): (s: string)
    ensures |s| > 0 && '"' !in s
  {
    match st
    case Normal => "NORMAL"
    case RainAlert => "RAIN ALERT"
    case FloodRisk => "FLOOD RISK"
    case CriticalFlood => "CRITICAL FLOOD"
  }

  /** Reads an intensity label back; the inverse of IntensityLabel. */
  function IntensityFromLabel(s: string): (r: Option<Intensity>)
    ensures r.Some? ==> IntensityLabel(r.value) == s
  {
    if s == "NO RAIN" then Some(NoRain)
    else if s == "LIGHT RAIN" then Some(LightRain)
    else if s == "MODERATE RAIN" then Some(ModerateRain)
    else if s == "HEAVY RAIN" then Some(HeavyRain)
    else if s == "TORRENTIAL RAIN" then Some(TorrentialRain)
    else None
  }

  /** Reads a flood-status label back; the inverse of StatusLabel. */
  function StatusFromLabel(s: string): (r: Option<Status>)
    ensures r.Some? ==> StatusLabel(r.value) == s
  {
    if s == "NORMAL" then Some(Normal)
    else if s == "RAIN ALERT" then Some(RainAlert)
    else if s == "FLOOD RISK" then Some(FloodRisk)
    else if s == "CRITICAL FLOOD" then Some(CriticalFlood)
    else None
  }

  // ---- Properties of the intensity ladder ----

  /** A wetter reading (smaller raw value) never gets a milder intensity. */
  lemma IntensityMonotone(raw1: int, raw2: int)
    requires raw1 <= raw2
    ensures RainIntensity(raw2).Severity() <= RainIntensity(raw1).Severity()
  {
  }

  /** The cutoffs themselves fall on the wetter side. */
  lemma CutoffsTakeWetterLabel()
    ensures RainIntensity(3601) == NoRain && RainIntensity(3600) == LightRain
    ensures RainIntensity(3001) == LightRain && RainIntensity(3000) == ModerateRain
    ensures RainIntensity(2401) == ModerateRain && RainIntensity(2400) == HeavyRain
    ensures RainIntensity(1801) == HeavyRain && RainIntensity(1800) == TorrentialRain
  {
  }

  /** Distinct intensities have distinct labels, and every label reads back. */
  lemma IntensityLabelRoundTrip(i: Intensity)
    ensures IntensityFromLabel(IntensityLabel(i)) == Some(i)
  {
  }

  /** Distinct statuses have distinct labels, and every label reads back. */
  lemma StatusLabelRoundTrip(st: Status)
    ensures StatusFromLabel(StatusLabel(st)) == Some(st)
  {
  }

  // ---- Properties of the flood-status rule ----

  /** Rain at or above 2400 keeps the status NORMAL whatever the water level. */
  lemma RainGatesFlood(raw: int, distance: real)
    requires 2400 <= raw
    ensures FloodStatus(raw, distance) == Normal
  {
  }

  /** Under the rain gate, the distance alone decides the status. */
  lemma DistanceDecidesUnderGate(raw1: int, raw2: int, distance: real)
    requires raw1 < 2400 && raw2 < 2400
    ensures FloodStatus(raw1, distance) == FloodStatus(raw2, distance)
    ensures FloodStatus(raw1, distance) != Normal
  {
  }

  /** With rain fixed, a closer water surface never lowers the status. */
  lemma FloodMonotoneInDistance(raw: int, near: real, far: real)
    requires near <= far
    ensures FloodStatus(raw, far).Level() <= FloodStatus(raw, near).Level()
  {
  }

  /** With distance fixed, wetter rain never lowers the status. */
  lemma FloodMonotoneInRain(wetter: int, drier: int, distance: real)
    requires wetter <= drier
    ensures FloodStatus(drier, distance).Level() <= FloodStatus(wetter, distance).Level()
  {
  }

  /**
   * Any status above NORMAL comes with HEAVY or TORRENTIAL rain. The converse
   * fails at exactly one raw value: 2400 is HEAVY RAIN (the ladder uses
   * "> 2400") but NORMAL (the flood rule uses "< 2400").
   */
  lemma FloodNeedsHeavyRain(raw: int, distance: real)
    ensures FloodStatus(raw, distance) != Normal ==> RainIntensity(raw).Severity() >= 3
    ensures (RainIntensity(raw).Severity() >= 3 && FloodStatus(raw, distance) == Normal) <==> raw == 2400
  {
  }

  /** A missing echo can never raise FLOOD RISK or CRITICAL FLOOD. */
  lemma NoEchoNeverEscalates(raw: int)
    ensures FloodStatus(raw, EchoDistance(0)) == if raw < 2400 then RainAlert else Normal
  {
  }

  /** A longer echo pulse means a water surface that is at least as far away. */
  lemma EchoDistanceMonotone(d1: int, d2: int)
    requires 0 < d1 <= d2
    ensures EchoDistance(d1) <= EchoDistance(d2)
  {
  }

  /**
   * The exact distance of an integer pulse length is never within 0.004 cm
   * of the 10 cm or 20 cm threshold: pulse lengths up to 588 give at most
   * 9.996, from 589 at least 10.013; up to 1176 at most 19.992, from 1177 at
   * least 20.009. So any rounding error below 0.004, such as that of a 32-bit
   * float, leaves the flood status unchanged.
   */
  lemma EchoRoundingHarmless(raw: int, duration: int, err: real)
    requires 0 <= duration
    requires -0.004 < err < 0.004
    ensures FloodStatus(raw, EchoDistance(duration) + err) == FloodStatus(raw, EchoDistance(duration))
  {
  }

  /** Worked readings; 2800 lies between 2400 and 3000 and so is MODERATE RAIN. */
  lemma SampleReadings()
    ensures RainIntensity(2180) == HeavyRain && FloodStatus(2180, 9.5) == CriticalFlood
    ensures RainIntensity(2800) == ModerateRain && FloodStatus(2800, 25.3) == Normal
    ensures RainIntensity(2200) == HeavyRain && FloodStatus(2200, 15.0) == FloodRisk
  {
  }
}
