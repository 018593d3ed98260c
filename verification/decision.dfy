/** The decision agent: a fixed policy from classification to defensive
    action, risk tier and alert flag. */
module DecisionAgent {
  import opened Scoring
  import opened DetectionAgent

  datatype Action = Allow | Restrict | Deceive

  datatype Risk = Low | Medium | High

  /** Which explanation accompanies a decision; the text also quotes the
      confidence, which the decision carries alongside. */
  datatype ReasonKind = HighConfidenceAuthentic | SuspiciousInput | DeepfakeDetected

  datatype Reason = Reason(kind: ReasonKind, confidence: real)

  datatype Decision = Decision(action: Action, reason: Reason, alert: bool, risk: Risk)

  /** The sensitivity the caller passes when it does not choose one. */
  const DefaultRiskLevel: int := 3

  /** Rank of a risk tier, on the same scale as classification severity. */
  function RiskRank(r: Risk): nat
  {
    match r
    case Low => 0
    case Medium => 1
    case High => 2
  }

  /** Authentic is allowed at low risk without alert; Suspicious is
      restricted at medium risk; anything else is deceived at high risk.
      Both non-allowing actions raise an alert.  `riskLevel` is accepted and
      has no effect. */
  function Decide(result: DetectionResult, riskLevel: int): (d: Decision)
    ensures d.action == Allow <==> result.classification == Authentic
    ensures d.action == Restrict <==> result.classification == Suspicious
    ensures d.action == Deceive <==> result.classification == Fake
    ensures d.alert <==> d.action != Allow
    ensures RiskRank(d.risk) == Severity(result.classification)
    ensures d.reason.confidence == result.confidence
    ensures d.reason.kind == HighConfidenceAuthentic <==> d.action == Allow
    ensures d.reason.kind == DeepfakeDetected <==> d.action == Deceive
  {
    var c := result.confidence;
    match result.classification
    case Authentic => Decision(Allow, Reason(HighConfidenceAuthentic, c), false, Low)
    case Suspicious => Decision(Restrict, Reason(SuspiciousInput, c), true, Medium)
    case Fake => Decision(Deceive, Reason(DeepfakeDetected, c), true, High)
  }

  /** The risk level is inert: every sensitivity yields the same decision. */
  lemma DecideIgnoresRiskLevel(result: DetectionResult, level1: int, level2: int)
    ensures Decide(result, level1) == Decide(result, level2)
  {
  }

  /** Over well-formed results, a lower confidence never leads to a milder
      risk tier. */
  lemma DecideMonotone(lower: DetectionResult, higher: DetectionResult, riskLevel: int)
    requires WellFormed(lower) && WellFormed(higher)
    requires lower.confidence <= higher.confidence
    ensures RiskRank(Decide(higher, riskLevel).risk) <= RiskRank(Decide(lower, riskLevel).risk)
  {
    ClassifyMonotone(lower.confidence, higher.confidence);
  }
}
