/**
 * One flood node: the globals that loop() overwrites on every cycle and the
 * cycle itself (read both sensors, classify, and send when the link is up).
 */
module SmartNode {
  import opened Wrappers
  import opened Classifier
  import opened JsonText
  import opened NodePayload

  /** Identifier this node sends in every payload. */
  const NodeId: string := "floodnode_01"

  /** The node's sensor and classification state. */
  class Node {
    var duration: int
    var distanceCM: real
    var rainAnalog: int
    var rainIntensity: string
    var floodStatus: string

    /** The power-on state: every global zero or empty. */
    constructor ()
      ensures duration == 0 && distanceCM == 0.0 && rainAnalog == 0
      ensures rainIntensity == "" && floodStatus == ""
    {
      duration := 0;
      distanceCM := 0.0;
      rainAnalog := 0;
      rainIntensity := "";
      floodStatus := "";
    }

    /** The stored labels and distance are those the classifier gives for the stored readings. */
    ghost predicate Classified()
      reads this
    {
      && distanceCM == EchoDistance(duration)
      && rainIntensity == IntensityLabel(RainIntensity(rainAnalog))
      && floodStatus == StatusLabel(FloodStatus(rainAnalog, distanceCM))
    }

    /** Records the echo pulse length and returns the distance it stands for. */
    method GetUltrasonic(echo: int) returns (d: real)
      modifies this`duration
      ensures duration == echo
      ensures d == EchoDistance(echo)
      ensures echo == 0 ==> d == NoEchoDistance
    {
      duration := echo;
      d := EchoDistance(echo);
    }

    /**
     * One cycle: store the raw rain value and the distance, overwrite both
     * labels, and build the payload when the link is up. Classification
     * happens whether or not the payload can be sent.
     */
    method Step(rawRain: int, echo: int, linkUp: bool, format: real -> string)
      returns (sent: Option<string>)
      modifies this
      ensures rainAnalog == rawRain && duration == echo
      ensures distanceCM == EchoDistance(echo)
      ensures rainIntensity == IntensityLabel(RainIntensity(rawRain))
      ensures floodStatus == StatusLabel(FloodStatus(rawRain, distanceCM))
      ensures Classified()
      ensures sent == if linkUp then Some(Payload(NodeId, rainAnalog, rainIntensity,
                                                  format(distanceCM), floodStatus))
                      else None
      ensures sent.Some? && IsNumberLexeme(format(distanceCM)) ==>
                DecodeReading(sent.value)
                == Some(Reading(NodeId, rawRain, RainIntensity(rawRain), format(distanceCM),
                                FloodStatus(rawRain, distanceCM)))
    {
      rainAnalog := rawRain;
      distanceCM := GetUltrasonic(echo);
      rainIntensity := IntensityLabel(RainIntensity(rainAnalog));
      floodStatus := StatusLabel(FloodStatus(rainAnalog, distanceCM));
      if linkUp {
        sent := Some(Payload(NodeId, rainAnalog, rainIntensity, format(distanceCM), floodStatus));
        if IsNumberLexeme(format(distanceCM)) {
          ReadingRoundTrip(NodeId, rawRain, distanceCM, format(distanceCM));
        }
      } else {
        sent := None;
      }
    }
  }

  /**
   * The labels a classified node holds agree with each other: a flood label
   * other than NORMAL only beside HEAVY RAIN or TORRENTIAL RAIN, and without
   * an echo nothing above RAIN ALERT.
   */
  lemma ClassifiedLabels(n: Node)
    requires n.Classified()
    ensures n.floodStatus != "NORMAL" ==>
              n.rainIntensity == "HEAVY RAIN" || n.rainIntensity == "TORRENTIAL RAIN"
    ensures n.duration == 0 ==> n.floodStatus == "NORMAL" || n.floodStatus == "RAIN ALERT"
  {
  }
}
