/** One pass through the three agents: detect, decide, defend.  There is no
    feedback between the stages and a detection failure never stops the
    pass. */
module Pipeline {
  import opened Wrappers
  import opened Scoring
  import opened DetectionAgent
  import opened DecisionAgent
  import opened DefenseAgent

  /** Everything one pass produces, and the defense agent afterwards. */
  datatype PassResult = PassResult(
    detection: DetectionResult,
    decision: Decision,
    outcome: DefenseOutcome,
    defender: Defender
  )

  /** What a caller supplies for one pass. `decoded`, `videoDraw` and
      `noise` stand for the foreign feature extraction and random draws. */
  datatype Invocation = Invocation(
    fileType: string,
    scenario: Option<string>,
    decoded: Option<AudioFeatures>,
    videoDraw: VideoFeatures,
    noise: DemoNoise,
    riskLevel: int,
    source: string,
    timestamp: string
  )

  /** A demo invocation of a named scenario, as the scenario launcher issues
      it: audio file type, no sample, default sensitivity and source. */
  function DemoInvocation(name: string, noise: DemoNoise, videoDraw: VideoFeatures, timestamp: string): Invocation
  {
    Invocation("audio", Some(name), None, videoDraw, noise, DefaultRiskLevel, DefaultSource, timestamp)
  }

  /** One pass: the honeypot is engaged exactly when detection says Fake, an
      alert is raised exactly when it does not say Authentic, and the log
      gains exactly one entry. */
  function Run(detector: Detector, defender: Defender, inv: Invocation): (r: PassResult)
    ensures WellFormed(r.detection)
    ensures AppendsOne(defender, r.defender, r.outcome.log)
    ensures r.outcome.log.source == inv.source
    ensures r.outcome.honeypot <==> r.detection.classification == Fake
    ensures r.decision.alert <==> r.detection.classification != Authentic
    ensures r.outcome.status == LightsOn <==> r.detection.confidence > 80.0
  {
    var detection := Analyze(detector, inv.fileType, inv.scenario, inv.decoded, inv.videoDraw, inv.noise);
    var decision := Decide(detection, inv.riskLevel);
    var acted := Act(defender, decision, inv.source, inv.timestamp);
    PassResult(detection, decision, acted.outcome, acted.agent)
  }

  /** "Deepfake Attack" always ends in the honeypot, whatever the random
      draws. */
  lemma DeepfakeAttackEngagesHoneypot(defender: Defender, noise: DemoNoise, videoDraw: VideoFeatures, timestamp: string)
    ensures var r := Run(NewDetector, defender, DemoInvocation(DeepfakeAttack, noise, videoDraw, timestamp));
            && r.detection.classification == Fake
            && r.decision.action == Deceive
            && r.outcome.honeypot
  {
  }

  /** "Legitimate Owner" is always allowed, and never meets the honeypot. */
  lemma LegitimateOwnerIsAllowed(defender: Defender, noise: DemoNoise, videoDraw: VideoFeatures, timestamp: string)
    ensures var r := Run(NewDetector, defender, DemoInvocation(LegitimateOwner, noise, videoDraw, timestamp));
            && r.detection.classification == Authentic
            && r.decision.action == Allow
            && !r.outcome.honeypot
  {
  }

  /** "Suspicious Voice" (score 67) and any unknown scenario name (score 75)
      are restricted with an alert and no honeypot. */
  lemma SuspiciousAndUnknownAreRestricted(name: string, defender: Defender, noise: DemoNoise, videoDraw: VideoFeatures, timestamp: string)
    requires name == SuspiciousVoice || (name != "" && name !in ScenarioScores)
    ensures var r := Run(NewDetector, defender, DemoInvocation(name, noise, videoDraw, timestamp));
            && r.detection.classification == Suspicious
            && r.decision.action == Restrict
            && r.decision.alert
            && !r.outcome.honeypot
  {
  }

  /** An audio sample that cannot be decoded, outside a demo scenario, is
      treated as a deepfake and deceived. */
  lemma UndecodableAudioIsDeceived(detector: Detector, defender: Defender, inv: Invocation)
    requires inv.fileType == "audio" && inv.decoded.None?
    requires !(detector.demoMode && ScenarioGiven(inv.scenario))
    ensures var r := Run(detector, defender, inv);
            && r.detection.confidence == 23.0
            && r.decision.action == Deceive
            && r.outcome.honeypot
  {
  }

  /** A decodable audio sample is deceived exactly when the penalties that
      apply to it add up to 35 points or more, i.e. bring 85 down to 50 or
      below. */
  lemma DecodedAudioHoneypotIffPenalties(detector: Detector, defender: Defender, inv: Invocation)
    requires inv.fileType == "audio" && inv.decoded.Some?
    requires !(detector.demoMode && ScenarioGiven(inv.scenario))
    ensures var r := Run(detector, defender, inv);
            r.outcome.honeypot <==> TotalWeight(Triggered(AllPenalties, inv.decoded.value)) >= 35.0
  {
    ScoreIsPenaltySum(inv.decoded.value);
  }
}
