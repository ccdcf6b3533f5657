# Smart flood node classifier — a Dafny model

This project models the per-reading logic of the ESP32 flood node (`smartnode.c`).
On every cycle the node reads a raw rain value and an ultrasonic echo. It turns a missing echo
into the fixed distance 400 cm. It puts the rain value on a five-step intensity ladder
(NO RAIN … TORRENTIAL RAIN). It then derives a flood status (NORMAL, RAIN ALERT, FLOOD RISK,
CRITICAL FLOOD), where rain below 2400 gates any escalation and the water distance picks the level.
Finally it concatenates a JSON payload with five members in a fixed order.

Modules:

- `Classifier` (`classifier.dfy`): the two ladders as pure functions, `RainIntensity(raw)` and
  `FloodStatus(raw, distance)`; the echo-to-distance conversion with its no-echo sentinel; the
  label texts; and lemmas covering the partition, the boundary ties, monotonicity, the rain gate,
  the 2400 boundary asymmetry and the sentinel.
- `DecimalText` (`decimal_text.dfy`): the base-10 text of an integer, as the payload writes the
  rain value, plus a reader proved to invert it.
- `JsonText` (`json_text.dfy`): the flat JSON object shape (quoted strings without escaping, bare
  numbers), plus a reader proved to recover every well-formed member list in order.
- `NodePayload` (`node_payload.dfy`): the payload text exactly as the firmware concatenates it.
  It is proved to be the JSON object of the five members `node_id`, `rain_analog`,
  `rain_intensity`, `water_distance_cm`, `flood_status` in that order. It is also proved that
  decoding a sent payload recovers the rain value and both classifications.
- `SmartNode` (`smartnode.dfy`): the `Node` class. Its fields mirror the firmware globals
  (`duration`, `distanceCM`, `rainAnalog`, `rainIntensity`, `floodStatus`). `GetUltrasonic`
  records the pulse length. `Step` is one cycle of `loop()`: it overwrites the globals through
  the two ladder functions and returns the payload when the link is up.

Distances are exact `real`s. The raw rain value and the echo pulse length are inputs: the
hardware reads are not modelled.

Two constants of the firmware appear as Dafny constants: the node identifier `floodnode_01`
(`SmartNode.NodeId`, smartnode.c:15) and the no-echo distance 400 cm
(`Classifier.NoEchoDistance`, smartnode.c:76).

A rain value of 2800 is MODERATE RAIN because it is above 2400 but not above 3000
(`Classifier.SampleReadings`).

## Model

| member | source | states |
|---|---|---|
| `Classifier.RainIntensity` | smartnode.c:88-97 | Each of the five labels holds exactly on its own range: NO RAIN iff raw > 3600, LIGHT iff 3000 < raw <= 3600, MODERATE iff 2400 < raw <= 3000, HEAVY iff 1800 < raw <= 2400, TORRENTIAL iff raw <= 1800. So every raw value gets exactly one label. |
| `Classifier.FloodStatus` | smartnode.c:100-107 | NORMAL iff raw >= 2400. CRITICAL FLOOD iff raw < 2400 and distance < 10. FLOOD RISK iff raw < 2400 and 10 <= distance < 20. RAIN ALERT iff raw < 2400 and distance >= 20. |
| `Classifier.EchoDistance` | smartnode.c:76-78 | A pulse length of 0 gives exactly the sentinel 400. A positive pulse length gives a positive distance d with 2·d = duration·0.034. |
| `Classifier.IntensityLabel` | smartnode.c:88-97 | Every intensity label is non-empty and contains no double quote, so it can be embedded verbatim in a JSON string. |
| `Classifier.StatusLabel` | smartnode.c:100-107 | Every flood-status label is non-empty and contains no double quote. |
| `Classifier.IntensityLabelRoundTrip` | smartnode.c:88-97 | Reading an intensity label back gives that intensity, so the five labels are pairwise distinct. |
| `Classifier.StatusLabelRoundTrip` | smartnode.c:100-107 | Reading a status label back gives that status, so the four labels are pairwise distinct. |
| `Classifier.IntensityMonotone` | smartnode.c:88-97 | A larger raw value never gets a more severe intensity. |
| `Classifier.CutoffsTakeWetterLabel` | smartnode.c:88-97 | A value on a cutoff gets the wetter label: 3600 is LIGHT, 3000 MODERATE, 2400 HEAVY, 1800 TORRENTIAL. The value one above each cutoff gets the drier label. |
| `Classifier.RainGatesFlood` | smartnode.c:100-107 | With raw >= 2400 the status is NORMAL for every distance. |
| `Classifier.DistanceDecidesUnderGate` | smartnode.c:100-105 | Below 2400, two raw values give the same status at the same distance, and that status is never NORMAL. |
| `Classifier.FloodMonotoneInDistance` | smartnode.c:100-107 | With rain fixed, a smaller distance never gives a lower status. |
| `Classifier.FloodMonotoneInRain` | smartnode.c:100-107 | With distance fixed, a smaller raw value never gives a lower status. |
| `Classifier.FloodNeedsHeavyRain` | smartnode.c:92-107 | A status other than NORMAL implies HEAVY or TORRENTIAL rain. HEAVY-or-worse rain with NORMAL status happens exactly at raw == 2400, because the ladder uses "> 2400" and the flood rule uses "< 2400". |
| `Classifier.NoEchoNeverEscalates` | smartnode.c:100-107 | With the no-echo distance (line 76), the status is RAIN ALERT below 2400 and NORMAL otherwise. It is never FLOOD RISK or CRITICAL FLOOD. |
| `Classifier.EchoDistanceMonotone` | smartnode.c:78 | A longer echo pulse never gives a shorter distance. |
| `Classifier.SampleReadings` | smartnode.c:88-107 | (2180, 9.5) is HEAVY and CRITICAL FLOOD. (2800, 25.3) is MODERATE and NORMAL. (2200, 15) is HEAVY and FLOOD RISK. |
| `Classifier.EchoRoundingHarmless` | smartnode.c:78-105 | The exact distance of any pulse length is never within 0.004 cm of the 10 cm or 20 cm threshold, so adding any error smaller than 0.004 cm to it leaves the flood status unchanged. |
| `DecimalText.IntText` | smartnode.c:140 | The text of `String(rainAnalog)` is non-empty. It begins with '-' exactly when the value is negative. Every other character is a digit. There is no leading zero: a multi-digit unsigned text does not start with '0', and a '-' is followed by a non-zero digit (so zero is never "-0"). |
| `DecimalText.NatTextRoundTrip` | smartnode.c:140 | The digits of a natural number read back as that number. |
| `DecimalText.IntTextRoundTrip` | smartnode.c:140 | The text of every integer reads back as that integer. |
| `JsonText.ObjectRoundTrip` | smartnode.c:140 | A flat object whose keys and strings contain no quote and whose numbers are bare text reads back as the same members, in the same order. |
| `NodePayload.Payload` | smartnode.c:140 | The payload text, concatenated exactly as line 140 does. Its contract gives its length (the five values plus 88 literal characters) and that it opens with `{` and closes with `}`. What the text means is stated by `PayloadLayout` and `PayloadRoundTrip` below. |
| `NodePayload.PayloadMembers` | smartnode.c:140 | The payload's member keys are node_id, rain_analog, rain_intensity, water_distance_cm, flood_status, in that order. |
| `NodePayload.PayloadLayout` | smartnode.c:140 | The payload, concatenated piece by piece as the firmware does it, is exactly the JSON object of those five members. |
| `NodePayload.PayloadRoundTrip` | smartnode.c:140 | Reading the payload back gives exactly those five members, in order, with the node id and both labels verbatim. There is no timestamp member. |
| `NodePayload.ReadingRoundTrip` | smartnode.c:140 | Decoding the payload of a classified reading gives back the node id, the raw rain value, the intensity, the distance text and the flood status. |
| `SmartNode.Node.constructor` | smartnode.c:17-21 | The power-on globals: zero pulse length, distance and rain value, and empty labels. |
| `SmartNode.Node.GetUltrasonic` | smartnode.c:67-79 | Stores the pulse length in `duration` and returns its distance. No echo returns 400. |
| `SmartNode.Node.Step` | smartnode.c:81-153 | Stores the raw rain value, the pulse length and the distance, and overwrites both labels with the ladders' results. This happens whether or not the link is up. With the link up it returns the payload of the new globals (otherwise nothing), and that payload decodes to the reading. |
| `SmartNode.ClassifiedLabels` | smartnode.c:88-107 | In a classified node, a flood label other than NORMAL sits only beside HEAVY RAIN or TORRENTIAL RAIN. With no echo, the flood label is NORMAL or RAIN ALERT. |

## Left out

- WiFi connection and reconnection (`setup`, `checkWiFi`, lines 23-64) are network I/O. Whether the link is up, and whether the TLS client was allocated (line 133), are folded into the `linkUp` argument of `Step`.
- GPIO and pulse timing are hardware calls with no visible semantics: `pinMode`, `digitalWrite`, `delayMicroseconds`, `pulseIn` and `analogRead`. Their results are the `rawRain` and `echo` arguments of `Step`.
- The HTTPS client, the POST and its response code (lines 131-150) are transport. Serial console output (lines 110-126) and the 4-second `delay` (line 152) are I/O and timing.
- The Wi-Fi credentials, the server URL and the pin numbers (lines 7-14) only configure the hardware and the transport.
- Classifier.EchoDistance: uses exact real arithmetic for `(duration * 0.034) / 2.0` (line 78), so float and double rounding are not modelled. Likewise `distanceCM` is a `real`, not a 32-bit float. This does not change any classification: by `Classifier.EchoRoundingHarmless`, an error below 0.004 cm never moves a distance across the 10 cm or 20 cm threshold. A 32-bit float's rounding at the distances the sensor reports (a few metres) is far smaller than that, around 1e-5 cm.
- SmartNode.Node.Step: the text of `String(distanceCM)` (line 140) is not modelled. It comes from the `format` argument. The payload round trip is proved for any format result that is a bare number without ',' or '}'.
- DecimalText.IntText: models `String(int)` as unbounded base-10 text. The 32-bit range of `int` is not modelled. `analogRead` gives 0-4095, so the range never matters here.
- The backend risk aggregator (24-hour window, averaging, 4-level severity, risk percentage) is not part of this model. None of its source is available to model from.
