/** The road-damage report built from the detector's boxes: one record per
    box, in detector order, with its geometry and danger assessment, and an
    overall road verdict that depends on the number of records alone. */
module Report {
  import Danger

  /** A detector confidence score. */
  type Confidence = c: real | 0.0 <= c <= 1.0

  /** One detector box: corners in integer pixel coordinates, as the detector
      delivers them after truncation, and its confidence. Nothing orders the
      corners: x2 < x1 or y2 < y1 is possible. */
  datatype Box = Box(x1: int, y1: int, x2: int, y2: int, conf: Confidence)

  /** One entry of the report. The box keeps the coordinates the location
      text is made from and the confidence shown as a percentage. */
  datatype Record = Record(
    id: int,
    box: Box,
    width: int,
    height: int,
    area: int,
    danger: Danger.Assessment)

  /** The road-level verdict. */
  datatype Overall = Clear | Moderate | High | Extreme

  /** The finished report; `generatedAt` is the timestamp the caller read. */
  datatype RoadReport = RoadReport(generatedAt: string, overall: Overall, records: seq<Record>)

  function OverallLabel(o: Overall): string
  {
    match o
    case Extreme => "🚨 EXTREME"
    case High => "⚠️ HIGH"
    case Moderate => "🟡 MODERATE"
    case Clear => "✅ CLEAR"
  }

  function OverallRank(o: Overall): nat
  {
    match o
    case Clear => 0
    case Moderate => 1
    case High => 2
    case Extreme => 3
  }

  /** Record r describes box b, the k-th box: its id is k + 1, width and
      height are the unclamped coordinate differences, area is their product
      (zero or negative for degenerate boxes), and the danger is the
      classifier's verdict on that area and the box's confidence. */
  predicate DescribesBox(k: int, b: Box, r: Record)
  {
    r.id == k + 1 &&
    r.box == b &&
    r.width == b.x2 - b.x1 &&
    r.height == b.y2 - b.y1 &&
    r.area == r.width * r.height &&
    r.danger == Danger.Analyze(r.area, b.conf)
  }

  /** One record per box, in box order. */
  predicate Describes(boxes: seq<Box>, records: seq<Record>)
  {
    |records| == |boxes| &&
    forall k :: 0 <= k < |records| ==> DescribesBox(k, boxes[k], records[k])
  }

  /** The per-box loop: enumerate the boxes in detector order and append one
      record per box. */
  method BuildRecords(boxes: seq<Box>) returns (records: seq<Record>)
    ensures Describes(boxes, records)
  {
    records := [];
    var i := 0;
    while i < |boxes|
      invariant 0 <= i <= |boxes|
      invariant |records| == i
      invariant forall k :: 0 <= k < i ==> DescribesBox(k, boxes[k], records[k])
    {
      var b := boxes[i];
      var width := b.x2 - b.x1;
      var height := b.y2 - b.y1;
      var area := width * height;
      var danger := Danger.Analyze(area, b.conf);
      var r := Record(i + 1, b, width, height, area, danger);
      assert DescribesBox(i, b, r);
      records := records + [r];
      i := i + 1;
    }
  }

  /** The overall verdict counts records and looks at nothing else: more than
      five is extreme, three to five high, one or two moderate, none clear. */
  function OverallRisk(records: seq<Record>): (o: Overall)
    ensures o == Clear <==> |records| == 0
    ensures o == Moderate <==> 1 <= |records| <= 2
    ensures o == High <==> 3 <= |records| <= 5
    ensures o == Extreme <==> |records| >= 6
  {
    var n := |records|;
    if n > 5 then Extreme
    else if n > 2 then High
    else if n > 0 then Moderate
    else Clear
  }

  /** The analysis of one image: the records of its boxes, the verdict over
      them and the caller's timestamp. */
  method Predict(boxes: seq<Box>, generatedAt: string) returns (report: RoadReport)
    ensures Describes(boxes, report.records)
    ensures report.overall == OverallRisk(report.records)
    ensures report.generatedAt == generatedAt
  {
    var records := BuildRecords(boxes);
    report := RoadReport(generatedAt, OverallRisk(records), records);
  }

  /** The ids of a described list run from 1 up to n without gaps or
      repeats: the first is 1, the last is n, and they strictly increase. */
  lemma IdsAreOneToN(boxes: seq<Box>, records: seq<Record>)
    requires Describes(boxes, records)
    ensures forall k :: 0 <= k < |records| ==> 1 <= records[k].id <= |boxes|
    ensures forall j, k :: 0 <= j < k < |records| ==> records[j].id < records[k].id
    ensures |records| > 0 ==> records[0].id == 1 && records[|records| - 1].id == |boxes|
  {
  }

  /** The boxes fix the records completely: two runs of the loop over the
      same boxes produce identical lists. */
  lemma {:induction false} RecordsDeterministic(boxes: seq<Box>, r1: seq<Record>, r2: seq<Record>)
    requires Describes(boxes, r1) && Describes(boxes, r2)
    ensures r1 == r2
  {
    forall k | 0 <= k < |r1|
      ensures r1[k] == r2[k]
    {
      RecordDeterministic(k, boxes[k], r1[k], r2[k]);
    }
  }

  lemma RecordDeterministic(k: int, b: Box, r1: Record, r2: Record)
    requires DescribesBox(k, b, r1) && DescribesBox(k, b, r2)
    ensures r1 == r2
  {
    assert r1.area == r2.area;
  }

  /** The verdict never falls as the number of records grows. */
  lemma OverallMonotone(r1: seq<Record>, r2: seq<Record>)
    requires |r1| <= |r2|
    ensures OverallRank(OverallRisk(r1)) <= OverallRank(OverallRisk(r2))
  {
  }

  /** The verdict depends on the number of records alone: lists of equal
      length get the same verdict, whatever the records hold. */
  lemma OverallDependsOnlyOnCount(r1: seq<Record>, r2: seq<Record>)
    requires |r1| == |r2|
    ensures OverallRisk(r1) == OverallRisk(r2)
  {
  }

  /** The verdict ignores the tiers: six low-tier records rate the road
      extreme, while one extreme-tier record alone rates it moderate. */
  lemma OverallIgnoresTiers(six: seq<Record>, one: seq<Record>)
    requires |six| == 6 && forall k :: 0 <= k < 6 ==> six[k].danger.tier == Danger.Low
    requires |one| == 1 && one[0].danger.tier == Danger.Extreme
    ensures OverallRisk(six) == Extreme
    ensures OverallRisk(one) == Moderate
  {
  }

  /** The text shown for each verdict is different, so the text identifies
      the verdict. */
  lemma OverallLabelsDistinct(o1: Overall, o2: Overall)
    ensures OverallLabel(o1) == OverallLabel(o2) ==> o1 == o2
  {
    if o1 != o2 {
      match o1
      case Extreme => assert OverallLabel(o1)[2] == 'E';
      case High => assert OverallLabel(o1)[3] == 'H';
      case Moderate => assert OverallLabel(o1)[2] == 'M';
      case Clear => assert OverallLabel(o1)[2] == 'C';
    }
  }

  /** Two confident small boxes: areas 102 * 24 = 2448 and 74 * 29 = 2146,
      both low risk at 30 percent, and a moderate road. */
  lemma TwoSmallBoxes(records: seq<Record>)
    requires Describes([Box(10, 10, 112, 34, 0.9224), Box(50, 50, 124, 79, 0.8998)], records)
    ensures records[0].area == 2448 && records[1].area == 2146
    ensures records[0].danger.Risk() == Danger.LowLabel && records[0].danger.severity == 30
    ensures records[1].danger.Risk() == Danger.LowLabel && records[1].danger.severity == 30
    ensures OverallRisk(records) == Moderate
  {
    var r0, r1 := records[0], records[1];
    assert r0.area == 2448 && r0.danger == Danger.Analyze(2448, 0.9224) by {
      assert DescribesBox(0, Box(10, 10, 112, 34, 0.9224), r0);
    }
    assert r1.area == 2146 && r1.danger == Danger.Analyze(2146, 0.8998) by {
      assert DescribesBox(1, Box(50, 50, 124, 79, 0.8998), r1);
    }
    Danger.ConfidentLowRow(2448, 0.9224);
    Danger.ConfidentLowRow(2146, 0.8998);
  }

  /** One large box seen with confidence 0.55, above the detector's own 0.5
      cut-off but below 0.6: the extreme row keeps its urgency and cost, but
      the label is qualified and severity is 25. */
  lemma LargeLowConfidenceBox(records: seq<Record>)
    requires Describes([Box(0, 0, 160, 100, 0.55)], records)
    ensures records[0].area == 16000
    ensures records[0].danger.Risk() == "🚨 EXTREME RISK (Low Confidence)"
    ensures records[0].danger.severity == 25
    ensures records[0].danger.Urgency() == Danger.ExtremeUrgency
    ensures records[0].danger.Cost() == Danger.ExtremeCost
    ensures OverallRisk(records) == Moderate
  {
    var r := records[0];
    assert r.area == 16000 && r.danger == Danger.Analyze(16000, 0.55) by {
      assert DescribesBox(0, Box(0, 0, 160, 100, 0.55), r);
    }
    Danger.LowConfidenceExtremeRow(16000, 0.55);
  }

  /** Nothing clamps or reorders the corners. A box with a zero extent has
      area 0, a box inverted along one axis and upright along the other has
      a negative area, and both fall into the low tier. A box inverted along
      both axes has the positive area of the upright box it mirrors. */
  lemma DegenerateBoxes(k: int, b: Box, r: Record)
    requires DescribesBox(k, b, r)
    ensures b.x1 == b.x2 || b.y1 == b.y2 ==> r.area == 0
    ensures (b.x2 < b.x1 && b.y1 < b.y2) || (b.x1 < b.x2 && b.y2 < b.y1) ==> r.area < 0
    ensures r.area <= 0 ==> r.danger.tier == Danger.Low
    ensures b.x2 < b.x1 && b.y2 < b.y1 ==> r.area == (b.x1 - b.x2) * (b.y1 - b.y2) > 0
  {
  }
}
