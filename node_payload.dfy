/**
 * The JSON payload a flood node sends after each reading: the text as the
 * firmware concatenates it, the members it is meant to carry, and the proof
 * that a reader recovers those members and the reading from the text.
 */
module NodePayload {
  import opened Wrappers
  import opened Classifier
  import opened DecimalText
  import opened JsonText

  /** The payload keys, in the order the node writes them. */
  const PayloadKeys: seq<string> :=
    ["node_id", "rain_analog", "rain_intensity", "water_distance_cm", "flood_status"]

  /**
   * The payload text, concatenated piece by piece as the node does.
   * `distanceText` is the text the firmware makes of the distance.
   */
  function Payload(nodeId: string, rainAnalog: int, rainIntensity: string,
                   distanceText: string, floodStatus: string): (r: string)
    ensures |r| == 88 + |nodeId| + |IntText(rainAnalog)| + |rainIntensity| + |distanceText|
                   + |floodStatus|
    ensures r[0] == '{' && r[|r| - 1] == '}'
  {
    "{\"node_id\":\"" + nodeId + "\",\"rain_analog\":" + IntText(rainAnalog)
    + ",\"rain_intensity\":\"" + rainIntensity + "\",\"water_distance_cm\":" + distanceText
    + ",\"flood_status\":\"" + floodStatus + "\"}"
  }

  /** The members the payload is meant to carry. */
  function PayloadMembers(nodeId: string, rainAnalog: int, rainIntensity: string,
                          distanceText: string, floodStatus: string): (ms: seq<Member>)
    ensures Keys(ms) == PayloadKeys
  {
    [Member("node_id", Text(nodeId)),
     Member("rain_analog", Number(IntText(rainAnalog))),
     Member("rain_intensity", Text(rainIntensity)),
     Member("water_distance_cm", Number(distanceText)),
     Member("flood_status", Text(floodStatus))]
  }

  /**
   * The payload text regrouped from the right, piece by piece. Like the
   * literal lemmas below, this states no property of the node; it only
   * keeps the layout proof small for the solver.
   */
  lemma PayloadNested(nodeId: string, rainAnalog: int, rainIntensity: string,
                      distanceText: string, floodStatus: string)
    ensures Payload(nodeId, rainAnalog, rainIntensity, distanceText, floodStatus)
         == "{\"node_id\":\"" + (nodeId + ("\",\"rain_analog\":" + (IntText(rainAnalog)
            + (",\"rain_intensity\":\"" + (rainIntensity + ("\",\"water_distance_cm\":"
            + (distanceText + (",\"flood_status\":\"" + (floodStatus + "\"}")))))))))
  {
    var p0 := "{\"node_id\":\"" + nodeId;
    var p1 := p0 + "\",\"rain_analog\":";
    var p2 := p1 + IntText(rainAnalog);
    var p3 := p2 + ",\"rain_intensity\":\"";
    var p4 := p3 + rainIntensity;
    var p5 := p4 + "\",\"water_distance_cm\":";
    var p6 := p5 + distanceText;
    var p7 := p6 + ",\"flood_status\":\"";
    var t9 := floodStatus + "\"}";
    ConcatAssoc(p7, floodStatus, "\"}");
    var t8 := ",\"flood_status\":\"" + t9;
    ConcatAssoc(p6, ",\"flood_status\":\"", t9);
    var t7 := distanceText + t8;
    ConcatAssoc(p5, distanceText, t8);
    var t6 := "\",\"water_distance_cm\":" + t7;
    ConcatAssoc(p4, "\",\"water_distance_cm\":", t7);
    var t5 := rainIntensity + t6;
    ConcatAssoc(p3, rainIntensity, t6);
    var t4 := ",\"rain_intensity\":\"" + t5;
    ConcatAssoc(p2, ",\"rain_intensity\":\"", t5);
    var t3 := IntText(rainAnalog) + t4;
    ConcatAssoc(p1, IntText(rainAnalog), t4);
    var t2 := "\",\"rain_analog\":" + t3;
    ConcatAssoc(p0, "\",\"rain_analog\":", t3);
    ConcatAssoc("{\"node_id\":\"", nodeId, t2);
  }

  // Each literal piece of the payload equals the member writer's pieces:
  // the separator, the quoted key and the colon (and a string's opening quote).
  // These and the suffix lemmas below state no property of the node; each
  // literal equality is a lemma of its own so that every step of the layout
  // proof stays small for the solver.

  lemma KeyDistance()
    ensures "," + "\"" + "water_distance_cm" + "\":" == ",\"water_distance_cm\":"
  {
  }

  lemma KeyIntensity()
    ensures "," + "\"" + "rain_intensity" + "\":\"" == ",\"rain_intensity\":\""
  {
  }

  lemma QuoteDistance()
    ensures "\"" + ",\"water_distance_cm\":" == "\",\"water_distance_cm\":"
  {
  }

  lemma KeyRain()
    ensures "," + "\"" + "rain_analog" + "\":" == ",\"rain_analog\":"
  {
  }

  lemma KeyNode()
    ensures "{" + "\"" + "node_id" + "\":\"" == "{\"node_id\":\""
  {
  }

  lemma QuoteRain()
    ensures "\"" + ",\"rain_analog\":" == "\",\"rain_analog\":"
  {
  }

  lemma KeyFlood()
    ensures "," + "\"" + "flood_status" + "\":\"" == ",\"flood_status\":\""
  {
  }

  // The writer's text for the members from the fifth, the fourth, ... on,
  // each preceded by the comma that separates it from the member before,
  // regrouped to match the payload's pieces.

  lemma FromFifth(floodStatus: string)
    ensures "," + EncodeMembers([Member("flood_status", Text(floodStatus))])
         == ",\"flood_status\":\"" + (floodStatus + "\"}")
  {
    TextOnly(",", "flood_status", floodStatus);
    KeyFlood();
  }

  lemma FromFourth(distanceText: string, floodStatus: string)
    ensures "," + EncodeMembers([Member("water_distance_cm", Number(distanceText)),
                                 Member("flood_status", Text(floodStatus))])
         == ",\"water_distance_cm\":" + (distanceText + (",\"flood_status\":\"" + (floodStatus + "\"}")))
  {
    var m3 := Member("water_distance_cm", Number(distanceText));
    var m4 := Member("flood_status", Text(floodStatus));
    NumberFirst(",", "water_distance_cm", distanceText, [m4]);
    FromFifth(floodStatus);
    KeyDistance();
    calc {
      "," + EncodeMembers([m3, m4]);
      { assert [m3, m4] == [m3] + [m4]; }
      "," + EncodeMembers([m3] + [m4]);
      ("," + "\"" + "water_distance_cm" + "\":") + (distanceText + ("," + EncodeMembers([m4])));
      ",\"water_distance_cm\":" + (distanceText + (",\"flood_status\":\"" + (floodStatus + "\"}")));
    }
  }

  lemma FromThird(rainIntensity: string, distanceText: string, floodStatus: string)
    ensures "," + EncodeMembers([Member("rain_intensity", Text(rainIntensity)),
                                 Member("water_distance_cm", Number(distanceText)),
                                 Member("flood_status", Text(floodStatus))])
         == ",\"rain_intensity\":\"" + (rainIntensity + ("\",\"water_distance_cm\":"
            + (distanceText + (",\"flood_status\":\"" + (floodStatus + "\"}")))))
  {
    var m2 := Member("rain_intensity", Text(rainIntensity));
    var rest := [Member("water_distance_cm", Number(distanceText)), Member("flood_status", Text(floodStatus))];
    var later := distanceText + (",\"flood_status\":\"" + (floodStatus + "\"}"));
    TextFirst(",", "rain_intensity", rainIntensity, rest);
    FromFourth(distanceText, floodStatus);
    ConcatAssoc("\"", ",\"water_distance_cm\":", later);
    KeyIntensity();
    QuoteDistance();
    calc {
      "," + EncodeMembers([m2, rest[0], rest[1]]);
      { assert [m2, rest[0], rest[1]] == [m2] + rest; }
      "," + EncodeMembers([m2] + rest);
      ("," + "\"" + "rain_intensity" + "\":\"") + (rainIntensity + ("\"" + ("," + EncodeMembers(rest))));
      ",\"rain_intensity\":\"" + (rainIntensity + ("\"" + (",\"water_distance_cm\":" + later)));
      ",\"rain_intensity\":\"" + (rainIntensity + (("\"" + ",\"water_distance_cm\":") + later));
      ",\"rain_intensity\":\"" + (rainIntensity + ("\",\"water_distance_cm\":" + later));
    }
  }

  lemma FromSecond(rainText: string, rainIntensity: string, distanceText: string, floodStatus: string)
    ensures "," + EncodeMembers([Member("rain_analog", Number(rainText)),
                                 Member("rain_intensity", Text(rainIntensity)),
                                 Member("water_distance_cm", Number(distanceText)),
                                 Member("flood_status", Text(floodStatus))])
         == ",\"rain_analog\":" + (rainText
            + (",\"rain_intensity\":\"" + (rainIntensity + ("\",\"water_distance_cm\":"
            + (distanceText + (",\"flood_status\":\"" + (floodStatus + "\"}")))))))
  {
    var m1 := Member("rain_analog", Number(rainText));
    var rest := [Member("rain_intensity", Text(rainIntensity)),
                 Member("water_distance_cm", Number(distanceText)),
                 Member("flood_status", Text(floodStatus))];
    NumberFirst(",", "rain_analog", rainText, rest);
    FromThird(rainIntensity, distanceText, floodStatus);
    KeyRain();
    calc {
      "," + EncodeMembers([m1, rest[0], rest[1], rest[2]]);
      { assert [m1, rest[0], rest[1], rest[2]] == [m1] + rest; }
      "," + EncodeMembers([m1] + rest);
      ("," + "\"" + "rain_analog" + "\":") + (rainText + ("," + EncodeMembers(rest)));
      { assert rest == [rest[0], rest[1], rest[2]]; }
      ",\"rain_analog\":" + (rainText + ("," + EncodeMembers([rest[0], rest[1], rest[2]])));
    }
  }

  lemma FromFirst(nodeId: string, rest: seq<Member>)
    requires |rest| > 0
    ensures EncodeObject([Member("node_id", Text(nodeId))] + rest)
         == "{\"node_id\":\"" + (nodeId + ("\"" + ("," + EncodeMembers(rest))))
  {
    TextFirst("{", "node_id", nodeId, rest);
    KeyNode();
  }

  /** The payload is exactly the JSON object of those five members, in that order. */
  lemma PayloadLayout(nodeId: string, rainAnalog: int, rainIntensity: string,
                      distanceText: string, floodStatus: string)
    ensures Payload(nodeId, rainAnalog, rainIntensity, distanceText, floodStatus)
         == EncodeObject(PayloadMembers(nodeId, rainAnalog, rainIntensity, distanceText, floodStatus))
  {
    var ms := PayloadMembers(nodeId, rainAnalog, rainIntensity, distanceText, floodStatus);
    var rainText := IntText(rainAnalog);
    var tail := rainText
            + (",\"rain_intensity\":\"" + (rainIntensity + ("\",\"water_distance_cm\":"
            + (distanceText + (",\"flood_status\":\"" + (floodStatus + "\"}"))))));
    PayloadNested(nodeId, rainAnalog, rainIntensity, distanceText, floodStatus);
    FromSecond(rainText, rainIntensity, distanceText, floodStatus);
    FromFirst(nodeId, ms[1..]);
    ConcatAssoc("\"", ",\"rain_analog\":", tail);
    QuoteRain();
    calc {
      EncodeObject(ms);
      { assert ms == [ms[0]] + ms[1..]; }
      EncodeObject([ms[0]] + ms[1..]);
      "{\"node_id\":\"" + (nodeId + ("\"" + ("," + EncodeMembers(ms[1..]))));
      { assert ms[1..] == [ms[1], ms[2], ms[3], ms[4]]; }
      "{\"node_id\":\"" + (nodeId + ("\"" + (",\"rain_analog\":" + tail)));
      "{\"node_id\":\"" + (nodeId + (("\"" + ",\"rain_analog\":") + tail));
      "{\"node_id\":\"" + (nodeId + ("\",\"rain_analog\":" + tail));
      Payload(nodeId, rainAnalog, rainIntensity, distanceText, floodStatus);
    }
  }

  /** The reading a payload carries, once its labels and number are read back. */
  datatype Reading = Reading(nodeId: string, rainAnalog: int, intensity: Intensity,
                             distanceText: string, status: Status)

  /** Reads a payload back: the five keys in order, both labels and the rain value. */
  function DecodeReading(p: string): Option<Reading> {
    match ParseObject(p)
    case None => None
    case Some(ms) =>
      if Keys(ms) == PayloadKeys && ms[0].value.Text? && ms[1].value.Number?
         && ms[2].value.Text? && ms[3].value.Number? && ms[4].value.Text? then
        match (ParseInt(ms[1].value.lexeme), IntensityFromLabel(ms[2].value.text),
               StatusFromLabel(ms[4].value.text))
        case (Some(rain), Some(i), Some(st)) =>
          Some(Reading(ms[0].value.text, rain, i, ms[3].value.lexeme, st))
        case _ => None
      else None
  }

  /**
   * A payload carries exactly the five members, in order, with the labels as
   * written; in particular it has no timestamp member.
   */
  lemma PayloadRoundTrip(nodeId: string, rainAnalog: int, rainIntensity: string,
                         distanceText: string, floodStatus: string)
    requires '"' !in nodeId && '"' !in rainIntensity && '"' !in floodStatus
    requires IsNumberLexeme(distanceText)
    ensures ParseObject(Payload(nodeId, rainAnalog, rainIntensity, distanceText, floodStatus))
         == Some(PayloadMembers(nodeId, rainAnalog, rainIntensity, distanceText, floodStatus))
    ensures "timestamp" !in PayloadKeys
  {
    var ms := PayloadMembers(nodeId, rainAnalog, rainIntensity, distanceText, floodStatus);
    MembersWellFormed(nodeId, rainAnalog, rainIntensity, distanceText, floodStatus);
    NoTimestampKey();
    PayloadLayout(nodeId, rainAnalog, rainIntensity, distanceText, floodStatus);
    ObjectRoundTrip(ms);
  }

  lemma NoTimestampKey()
    ensures "timestamp" !in PayloadKeys
  {
  }

  lemma MembersWellFormed(nodeId: string, rainAnalog: int, rainIntensity: string,
                          distanceText: string, floodStatus: string)
    requires '"' !in nodeId && '"' !in rainIntensity && '"' !in floodStatus
    requires IsNumberLexeme(distanceText)
    ensures var ms := PayloadMembers(nodeId, rainAnalog, rainIntensity, distanceText, floodStatus);
            forall i :: 0 <= i < |ms| ==> WellFormedMember(ms[i])
  {
    RainTextIsNumber(rainAnalog);
  }

  /** The text of a rain value is a bare JSON number. */
  lemma RainTextIsNumber(n: int)
    ensures IsNumberLexeme(IntText(n))
  {
  }

  /** What a node sends for a reading decodes to that reading's values and labels. */
  lemma ReadingRoundTrip(nodeId: string, rainAnalog: int, distance: real, distanceText: string)
    requires '"' !in nodeId
    requires IsNumberLexeme(distanceText)
    ensures DecodeReading(Payload(nodeId, rainAnalog, IntensityLabel(RainIntensity(rainAnalog)),
                                  distanceText, StatusLabel(FloodStatus(rainAnalog, distance))))
         == Some(Reading(nodeId, rainAnalog, RainIntensity(rainAnalog), distanceText,
                         FloodStatus(rainAnalog, distance)))
  {
    var i := RainIntensity(rainAnalog);
    var st := FloodStatus(rainAnalog, distance);
    PayloadRoundTrip(nodeId, rainAnalog, IntensityLabel(i), distanceText, StatusLabel(st));
    IntTextRoundTrip(rainAnalog);
    IntensityLabelRoundTrip(i);
    StatusLabelRoundTrip(st);
  }
}
