/** The per-detection danger assessment of the pothole detector: a
    first-match-wins cascade over the pixel area of a detection box picks a
    tier, each tier selects a fixed row of text (risk label, impact narrative,
    severity, repair urgency, cost range), and a low detector confidence then
    qualifies the label and forces the severity down. */
module Danger {

  /** The four area tiers, from the cascade's last branch to its first. */
  datatype Tier = Low | Medium | High | Extreme

  /** Area thresholds of the cascade; every comparison against them is strict. */
  const ExtremeAbove: int := 15000
  const HighAbove: int := 10000
  const MediumAbove: int := 5000

  /** Below this confidence the assessment is marked as low confidence. */
  const ConfidenceFloor: real := 0.6

  /** Severity, in percent, forced on every low-confidence assessment. */
  const LowConfidenceSeverity: nat := 25

  /** Text appended to the risk label of a low-confidence assessment. */
  const LowConfidenceSuffix: string := " (Low Confidence)"

  /** What the classifier returns for one detection: the tier the area
      falls in, whether the low-confidence override fired, and the severity
      shown before the percent sign ("95%" is 95). The five texts of the
      returned tuple are looked up from these. */
  datatype Assessment = Assessment(tier: Tier, lowConfidence: bool, severity: nat)
  {
    /** The risk label: exactly the tier's label, followed by the
        low-confidence suffix when the override fired. */
    function Risk(): (r: string)
      ensures |r| == |TierLabel(tier)| + (if lowConfidence then |LowConfidenceSuffix| else 0)
      ensures |TierLabel(tier)| <= |r| && r[..|TierLabel(tier)|] == TierLabel(tier)
      ensures EndsWith(r, LowConfidenceSuffix) <==> lowConfidence
    {
      NoLabelEndsWithSuffix(tier);
      AppendEndsWith(TierLabel(tier), LowConfidenceSuffix);
      if lowConfidence then TierLabel(tier) + LowConfidenceSuffix else TierLabel(tier)
    }

    function Impact(): string { TierImpact(tier) }

    function Urgency(): string { TierUrgency(tier) }

    function Cost(): string { TierCost(tier) }
  }

  /** The cascade over the area: the first threshold the area exceeds wins,
      and an area that exceeds none (zero and negative areas included) is Low. */
  function TierOf(area: int): (t: Tier)
    ensures t == Extreme <==> area > 15000
    ensures t == High <==> 10000 < area <= 15000
    ensures t == Medium <==> 5000 < area <= 10000
    ensures t == Low <==> area <= 5000
  {
    if area > ExtremeAbove then Extreme
    else if area > HighAbove then High
    else if area > MediumAbove then Medium
    else Low
  }

  /** Position of a tier in the cascade, Low lowest. */
  function Rank(t: Tier): nat
  {
    match t
    case Low => 0
    case Medium => 1
    case High => 2
    case Extreme => 3
  }

  // The fixed row of text each tier selects, one constant per entry.

  const ExtremeLabel: string := "🚨 EXTREME RISK"
  const HighLabel: string := "🚨 HIGH RISK"
  const MediumLabel: string := "⚠️ MEDIUM RISK"
  const LowLabel: string := "✅ LOW RISK"

  const ExtremeImpact: string := "• Vehicle damage guaranteed\n• Tire bursts likely\n• Suspension destruction\n• High accident risk\n• Immediate repair required"
  const HighImpact: string := "• Significant vehicle damage\n• Tire damage probable\n• Suspension stress\n• Accident risk\n• Urgent repair needed"
  const MediumImpact: string := "• Moderate vehicle wear\n• Wheel alignment issues\n• Uncomfortable ride\n• Repair recommended"
  const LowImpact: string := "• Minor vehicle wear\n• Reduced ride quality\n• Maintenance suggested"

  const ExtremeUrgency: string := "IMMEDIATE (Within 24 hours)"
  const HighUrgency: string := "URGENT (Within 48 hours)"
  const MediumUrgency: string := "PRIORITY (Within 1 week)"
  const LowUrgency: string := "SCHEDULED (Within 2 weeks)"

  const ExtremeCost: string := "₹15,000 - ₹50,000"
  const HighCost: string := "₹8,000 - ₹20,000"
  const MediumCost: string := "₹3,000 - ₹10,000"
  const LowCost: string := "₹1,000 - ₹5,000"

  function TierLabel(t: Tier): string
  {
    match t
    case Extreme => ExtremeLabel
    case High => HighLabel
    case Medium => MediumLabel
    case Low => LowLabel
  }

  function TierImpact(t: Tier): string
  {
    match t
    case Extreme => ExtremeImpact
    case High => HighImpact
    case Medium => MediumImpact
    case Low => LowImpact
  }

  function TierSeverity(t: Tier): nat
  {
    match t
    case Extreme => 95
    case High => 80
    case Medium => 60
    case Low => 30
  }

  function TierUrgency(t: Tier): string
  {
    match t
    case Extreme => ExtremeUrgency
    case High => HighUrgency
    case Medium => MediumUrgency
    case Low => LowUrgency
  }

  function TierCost(t: Tier): string
  {
    match t
    case Extreme => ExtremeCost
    case High => HighCost
    case Medium => MediumCost
    case Low => LowCost
  }

  /** The danger assessment of one detection of the given area and
      confidence. The tier, and with it impact, urgency and cost, comes from
      the area alone; a confidence below 0.6 marks the label and forces the
      severity to 25, below every tier's own severity. */
  function Analyze(area: int, confidence: real): (a: Assessment)
    ensures a.tier == TierOf(area)
    ensures a.lowConfidence <==> confidence < 0.6
    ensures a.severity == 25 <==> confidence < 0.6
    ensures confidence >= 0.6 ==> a.severity == TierSeverity(TierOf(area))
  {
    var t := TierOf(area);
    var low := confidence < ConfidenceFloor;
    Assessment(t, low, if low then LowConfidenceSeverity else TierSeverity(t))
  }

  /** The strict boundaries: each threshold itself belongs to the tier below,
      and one pixel more crosses into the tier above. */
  lemma BoundaryExactness()
    ensures TierOf(15001) == Extreme && TierOf(15000) == High
    ensures TierOf(10001) == High && TierOf(10000) == Medium
    ensures TierOf(5001) == Medium && TierOf(5000) == Low
    ensures TierOf(0) == Low && TierOf(-1) == Low
  {
  }

  /** A confident detection larger than 15000 square pixels gets the whole
      extreme row. */
  lemma ExtremeRow(area: int, confidence: real)
    requires area > 15000 && confidence >= 0.6
    ensures Analyze(area, confidence).Risk() == ExtremeLabel
    ensures Analyze(area, confidence).Impact() == ExtremeImpact
    ensures Analyze(area, confidence).severity == 95
    ensures Analyze(area, confidence).Urgency() == ExtremeUrgency
    ensures Analyze(area, confidence).Cost() == ExtremeCost
  {
  }

  /** A confident detection of at most 5000 square pixels, zero and
      negative areas included, gets the low row. */
  lemma ConfidentLowRow(area: int, confidence: real)
    requires area <= 5000 && confidence >= 0.6
    ensures Analyze(area, confidence).Risk() == LowLabel
    ensures Analyze(area, confidence).Impact() == LowImpact
    ensures Analyze(area, confidence).severity == 30
    ensures Analyze(area, confidence).Urgency() == LowUrgency
    ensures Analyze(area, confidence).Cost() == LowCost
  {
  }

  /** A large detection seen with low confidence keeps the extreme row's
      impact, urgency and cost, but its label is qualified and its severity
      is 25. */
  lemma LowConfidenceExtremeRow(area: int, confidence: real)
    requires area > 15000 && confidence < 0.6
    ensures Analyze(area, confidence).Risk() == "🚨 EXTREME RISK (Low Confidence)"
    ensures Analyze(area, confidence).severity == 25
    ensures Analyze(area, confidence).Impact() == ExtremeImpact
    ensures Analyze(area, confidence).Urgency() == ExtremeUrgency
    ensures Analyze(area, confidence).Cost() == ExtremeCost
  {
    assert Analyze(area, confidence).Risk() == ExtremeLabel + LowConfidenceSuffix;
  }

  /** Two detections of the same area share impact, urgency and cost whatever
      their confidences: the low-confidence override never touches them. */
  lemma OverrideKeepsTierFields(area: int, c1: real, c2: real)
    ensures Analyze(area, c1).Impact() == Analyze(area, c2).Impact()
    ensures Analyze(area, c1).Urgency() == Analyze(area, c2).Urgency()
    ensures Analyze(area, c1).Cost() == Analyze(area, c2).Cost()
  {
  }

  /** For every area, the label is the area tier's label, followed by the
      low-confidence suffix when the confidence is below 0.6. */
  lemma RiskLabel(area: int, confidence: real)
    ensures confidence >= 0.6 ==> Analyze(area, confidence).Risk() == TierLabel(TierOf(area))
    ensures confidence < 0.6 ==> Analyze(area, confidence).Risk() == TierLabel(TierOf(area)) + LowConfidenceSuffix
  {
  }

  /** The label carries the low-confidence suffix exactly when the
      confidence is below 0.6. */
  lemma {:induction false} LowConfidenceMarked(area: int, confidence: real)
    ensures EndsWith(Analyze(area, confidence).Risk(), LowConfidenceSuffix) <==> confidence < 0.6
  {
    var t := TierOf(area);
    if confidence >= ConfidenceFloor {
      NoLabelEndsWithSuffix(t);
    } else {
      AppendEndsWith(TierLabel(t), LowConfidenceSuffix);
    }
  }

  predicate EndsWith(s: string, suffix: string)
  {
    |suffix| <= |s| && s[|s| - |suffix|..] == suffix
  }

  lemma AppendEndsWith(s: string, suffix: string)
    ensures EndsWith(s + suffix, suffix)
  {
    assert (s + suffix)[|s|..] == suffix;
  }

  lemma NoLabelEndsWithSuffix(t: Tier)
    ensures !EndsWith(TierLabel(t), LowConfidenceSuffix)
  {
    // Every tier label is shorter than the suffix.
  }

  /** The risk label identifies the tier and whether the override fired:
      equal labels mean equal tiers and the same side of the threshold. */
  lemma {:induction false} LabelDeterminesTier(a1: int, c1: real, a2: int, c2: real)
    requires Analyze(a1, c1).Risk() == Analyze(a2, c2).Risk()
    ensures TierOf(a1) == TierOf(a2)
    ensures c1 < 0.6 <==> c2 < 0.6
  {
    LowConfidenceMarked(a1, c1);
    LowConfidenceMarked(a2, c2);
    var t1, t2 := TierOf(a1), TierOf(a2);
    if c1 < ConfidenceFloor {
      var r := Analyze(a1, c1).Risk();
      assert r[..|r| - |LowConfidenceSuffix|] == TierLabel(t1);
      assert r[..|r| - |LowConfidenceSuffix|] == TierLabel(t2);
    }
    LabelsDistinct(t1, t2);
  }

  lemma LabelsDistinct(t1: Tier, t2: Tier)
    ensures TierLabel(t1) == TierLabel(t2) ==> t1 == t2
  {
    if t1 != t2 {
      match t1
      case Extreme => assert TierLabel(t1)[2] == 'E';
      case High => assert TierLabel(t1)[2] == 'H';
      case Medium => assert TierLabel(t1)[3] == 'M';
      case Low => assert TierLabel(t1)[2] == 'L';
    }
  }

  /** Each tier's impact narrative, urgency and cost range are its own:
      equal texts mean equal tiers. */
  lemma TierRowsDistinct(t1: Tier, t2: Tier)
    ensures TierImpact(t1) == TierImpact(t2) ==> t1 == t2
    ensures TierUrgency(t1) == TierUrgency(t2) ==> t1 == t2
    ensures TierCost(t1) == TierCost(t2) ==> t1 == t2
  {
    ImpactLengths();
    UrgencyInitials();
    CostDigits();
  }

  // The impact narratives have four different lengths.
  lemma ImpactLengths()
    ensures |ExtremeImpact| == 122 && |HighImpact| == 110
    ensures |MediumImpact| == 90 && |LowImpact| == 67
  {
  }

  // The urgencies start with four different letters.
  lemma UrgencyInitials()
    ensures ExtremeUrgency[0] == 'I' && HighUrgency[0] == 'U'
    ensures MediumUrgency[0] == 'P' && LowUrgency[0] == 'S'
  {
  }

  // The cost ranges differ in their first two characters after the rupee sign.
  lemma CostDigits()
    ensures ExtremeCost[1..3] == "15" && HighCost[1..3] == "8,"
    ensures MediumCost[1..3] == "3," && LowCost[1..3] == "1,"
  {
  }

  /** Tier severities rise strictly up the cascade (30, 60, 80, 95) and all
      lie above the 25 forced by a low confidence. */
  lemma {:induction false} SeverityByRank(t1: Tier, t2: Tier)
    ensures Rank(t1) < Rank(t2) <==> TierSeverity(t1) < TierSeverity(t2)
    ensures TierSeverity(t1) > LowConfidenceSeverity
  {
  }

  /** Among confident detections the severity never decreases as the area
      grows (30, 60, 80, 95 up the cascade). */
  lemma SeverityMonotone(a1: int, c1: real, a2: int, c2: real)
    requires a1 <= a2 && c1 >= 0.6 && c2 >= 0.6
    ensures Analyze(a1, c1).severity <= Analyze(a2, c2).severity
    ensures Rank(TierOf(a1)) <= Rank(TierOf(a2))
  {
  }

  /** A low confidence never raises the severity of a detection. */
  lemma LowConfidenceNeverRaises(area: int, low: real, high: real)
    requires low < 0.6 <= high
    ensures Analyze(area, low).severity < Analyze(area, high).severity
  {
  }
}
