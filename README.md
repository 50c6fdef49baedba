# Pothole danger report — Dafny model

This project models the decision logic of a pothole-detection web service
(`app.py`). A detector gives back bounding boxes with confidence scores. For
each box the service works out width, height and area and grades the pothole.
It does this with `analyze_pothole_danger`: a first-match-wins cascade over the
pixel area chooses a risk tier, and the tier fixes a risk label, an impact
narrative, a severity, a repair urgency and a cost range. A confidence below
0.6 then qualifies the label and forces the severity to 25%. Last, the
service rates the whole road from the number of boxes alone.

Two modules:

- `Danger` (`danger.dfy`) is the classifier. `TierOf` is the area cascade and
  `Analyze` is the whole classifier. An `Assessment` value holds the tier, the
  override flag and the severity. The five texts of the source's tuple are
  looked up from it, and each text is a named constant holding the exact
  string of the source.
- `Report` (`report.dfy`) is the per-box loop of `predict`, written as the
  method `BuildRecords` with loop invariants, plus the count-only overall
  verdict `OverallRisk` and the method `Predict` that puts them together.
  Each box holds integer corner coordinates and a confidence. `Describes` says
  what record k must hold for box k.

Two points on what `app.py` does and does not do:

- app.py:90-92 does not clamp degenerate boxes. Width, height and area keep
  their raw values, which can be zero or negative, and such an area falls in
  the low tier (`DegenerateBoxes`).
- The loop keeps every box the detector returns. It skips none, and the
  report holds no separate detection count.

The texts the service shows are lookups: `TierLabel`, `TierImpact`,
`TierSeverity`, `TierUrgency` and `TierCost` give each tier's row, and
`OverallLabel` gives the text of the road verdict.

## Model

| member | source | states |
|---|---|---|
| `Danger.TierOf` | app.py:13-36 | Each integer area, zero and negative ones included, lands in exactly one tier. Extreme iff area > 15000, High iff 10000 < area <= 15000, Medium iff 5000 < area <= 10000, Low iff area <= 5000. |
| `Danger.Analyze` | app.py:11-42 | The tier, and so impact, urgency and cost, comes from the area alone. The label is marked low-confidence iff confidence < 0.6, and severity is 25 iff confidence < 0.6. Otherwise severity is the tier's own. |
| `Danger.Assessment.Risk` | app.py:13-39 | The risk label is exactly the tier's label, or the tier's label followed by " (Low Confidence)" when the override fired: its length is the label's plus the suffix's when flagged, it starts with the tier's label, and it ends with the suffix exactly when flagged. |
| `Danger.RiskLabel` | app.py:13-39 | For every area, a confidence at or above 0.6 gives exactly the area tier's label, and one below 0.6 gives that label followed by " (Low Confidence)". |
| `Danger.LabelsDistinct` | app.py:14-32 | The four tier labels differ, so equal labels mean equal tiers. |
| `Danger.TierRowsDistinct` | app.py:13-36 | Each tier's impact narrative, urgency and cost range are its own, so equal texts mean equal tiers. |
| `Danger.SeverityByRank` | app.py:13-40 | Tier severities rise strictly up the cascade, and every one of them is above the 25 forced by a low confidence. |
| `Danger.BoundaryExactness` | app.py:13-36 | The comparisons are strict. 15000, 10000 and 5000 fall into the tier below. One pixel more crosses into the tier above. Zero and negative areas are Low. |
| `Danger.ExtremeRow` | app.py:13-18 | A confident detection with area > 15000 gets the extreme label, impact, severity 95, urgency "IMMEDIATE (Within 24 hours)" and cost "₹15,000 - ₹50,000". |
| `Danger.ConfidentLowRow` | app.py:31-36 | A confident detection with area <= 5000 gets the whole low row with severity 30. |
| `Danger.LowConfidenceExtremeRow` | app.py:13-42 | An area > 15000 seen with confidence < 0.6 has label "🚨 EXTREME RISK (Low Confidence)" and severity 25. It keeps the extreme impact, urgency and cost. |
| `Danger.OverrideKeepsTierFields` | app.py:38-42 | Two detections of equal area have equal impact, urgency and cost, whatever their confidences. |
| `Danger.LowConfidenceMarked` | app.py:38-39 | The risk label ends in " (Low Confidence)" exactly when confidence < 0.6. |
| `Danger.LabelDeterminesTier` | app.py:13-39 | Equal risk labels mean equal tiers and the same side of the 0.6 threshold. |
| `Danger.SeverityMonotone` | app.py:13-36 | For confidence >= 0.6, severity and tier rank never decrease as the area grows. |
| `Danger.LowConfidenceNeverRaises` | app.py:38-40 | For the same area, a confidence below 0.6 gives a strictly lower severity than one at or above it. |
| `Report.BuildRecords` | app.py:86-108 | One record per box, in box order. Record k has id k + 1 and keeps box k. Its width is x2 - x1, its height y2 - y1 and its area their product, with no clamping. Its assessment is `Analyze(area, conf)`. |
| `Report.OverallRisk` | app.py:110-112 | Clear iff there are no records, Moderate iff 1 or 2, High iff 3 to 5, Extreme iff 6 or more. |
| `Report.Predict` | app.py:86-114 | The report's records describe the boxes, its verdict is the count rule over those records, and its timestamp is the caller's. |
| `Report.IdsAreOneToN` | app.py:87-97 | Ids lie in 1..n, strictly increase, and run from 1 to n. |
| `Report.RecordsDeterministic` | app.py:86-108 | Two record lists that both describe the same boxes are equal, so running the loop twice gives identical records. |
| `Report.RecordDeterministic` | app.py:88-106 | Two records that describe the same box at the same position are equal. |
| `Report.OverallMonotone` | app.py:110-112 | The road verdict never falls as the number of records grows. |
| `Report.OverallDependsOnlyOnCount` | app.py:110-112 | Two record lists of the same length get the same verdict, whatever the records hold. |
| `Report.OverallIgnoresTiers` | app.py:110-112 | Six low-tier records rate the road Extreme, and one extreme-tier record alone rates it Moderate. |
| `Report.OverallLabelsDistinct` | app.py:110-112 | The four verdict texts differ, so the text shown identifies the verdict. |
| `Report.TwoSmallBoxes` | app.py:86-112 | Boxes (10,10,112,34) at 0.9224 and (50,50,124,79) at 0.8998 have areas 2448 and 2146. Both are low risk at 30 and the road is Moderate. |
| `Report.LargeLowConfidenceBox` | app.py:86-112 | A 160 x 100 box at confidence 0.55 has area 16000 and label "🚨 EXTREME RISK (Low Confidence)". Its severity is 25 and it keeps the extreme urgency and cost. The road is Moderate. |
| `Report.DegenerateBoxes` | app.py:90-94 | A box with a zero extent has area 0. A box inverted along one axis and upright along the other has a negative area. Both are low tier. A box inverted along both axes has the positive area of the upright box it mirrors. |

## Left out

- The Flask application, its routes and the HTML templates (app.py:8, 44-69, 116-153): presentation and HTTP plumbing.
- Loading the YOLO model, running it, and drawing the annotated image (app.py:9, 79-82): foreign library calls. The detector's output is the input sequence of boxes.
- The detector's confidence cut-off `conf=0.5` (app.py:79): the detector drops boxes below 0.5 before the loop sees them, so in the running service the low-confidence override fires only for confidences in [0.5, 0.6). The model accepts any confidence in [0, 1], and `Analyze` accepts any real.
- Image decoding and encoding with OpenCV, and base64 encoding (app.py:75-77, 83-84): I/O and third-party codecs.
- The clock read `datetime.now()` (app.py:114): the timestamp is a parameter of `Predict`.
- The float-to-int truncation of the box corners (app.py:89): the corners are integers from the start. The confidence is a real in [0, 1], as the detector promises, and is not converted.
- The text forms: the confidence as a percentage with two decimals (app.py:98), the severity as text with a percent sign (held as its number), and the location string (app.py:107), kept as the four coordinates in the record's box.
- The catch-all exception handler that returns an error string (app.py:154-155): plumbing, not decision logic.
