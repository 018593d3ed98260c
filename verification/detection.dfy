/** The detection agent: turns a sample, or the name of a demo scenario, into
    a confidence score, the measurements behind it, and a classification.

    Feature extraction and the random draws of the Python program are foreign calls;
    here they arrive as parameters.  `decoded` is the outcome of decoding and
    measuring an audio sample (`None` when decoding fails), `videoDraw` the
    three values the fixed-seed generator yields for the video path, and
    `noise` the cosmetic values the demo path draws. */
module DetectionAgent {
  import opened Wrappers
  import opened Scoring

  /** The four named demo scenarios, spelled exactly as the lookup table
      spells them, emoji prefix included. */
  const LegitimateOwner: string := "\U{1F7E2} Legitimate Owner"
  const SuspiciousVoice: string := "\U{1F7E1} Suspicious Voice"
  const DeepfakeAttack: string := "\U{1F534} Deepfake Attack"
  const VideoCommand: string := "\U{1F3A5} Video Command"

  /** Target confidence of each named scenario. */
  const ScenarioScores: map<string, real> := map[
    LegitimateOwner := 92.0,
    SuspiciousVoice := 67.0,
    DeepfakeAttack := 23.0,
    VideoCommand := 45.0
  ]

  /** Confidence given to a scenario name that is not in the table. */
  const DefaultDemoScore: real := 75.0

  /** The measurements a result reports.  Demo results carry, besides the
      cosmetic draws, the complement of the target score. */
  datatype Features =
    | AudioMeasured(audio: AudioFeatures)
    | VideoMeasured(video: VideoFeatures)
    | AudioDemo(audio: AudioFeatures, anomalyScore: real)
    | VideoDemo(video: VideoFeatures, deepfakeScore: real)

  /** The cosmetic values the demo path draws at random: the audio four when
      the file type is audio, the video three otherwise. */
  datatype DemoNoise = DemoNoise(audio: AudioFeatures, video: VideoFeatures)

  datatype DetectionResult = DetectionResult(
    confidence: real,
    features: Features,
    classification: Classification
  )

  /** The agent's only state: whether demo scenarios are honoured.  A freshly
      constructed agent has demo mode switched on. */
  datatype Detector = Detector(demoMode: bool)

  const NewDetector: Detector := Detector(true)

  /** A result is well formed when its confidence is a percentage and its
      classification is the one its confidence calls for. */
  predicate WellFormed(r: DetectionResult)
  {
    && 0.0 <= r.confidence <= 100.0
    && r.classification == Classify(r.confidence)
  }

  /** A scenario argument selects the demo path only when it is present and
      non-empty (an empty name is falsy, like an absent one). */
  predicate ScenarioGiven(scenario: Option<string>)
  {
    scenario.Some? && scenario.value != ""
  }

  /** The target confidence of a scenario name. */
  function DemoScore(name: string): (r: real)
    ensures name in ScenarioScores ==> r == ScenarioScores[name]
    ensures name !in ScenarioScores ==> r == DefaultDemoScore
    ensures 0.0 <= r <= 100.0
  {
    if name in ScenarioScores then ScenarioScores[name] else DefaultDemoScore
  }

  /** The demo path: a fixed score by scenario name, classified, with the
      random draws attached as display values only. */
  function DemoAnalysis(scenario: string, fileType: string, noise: DemoNoise): (r: DetectionResult)
    ensures WellFormed(r)
    ensures r.confidence == DemoScore(scenario)
    ensures r.features.AudioDemo? <==> fileType == "audio"
    ensures r.features.AudioDemo? ==> r.features.anomalyScore == 100.0 - r.confidence
    ensures r.features.VideoDemo? || r.features.AudioDemo?
    ensures r.features.VideoDemo? ==> r.features.deepfakeScore == 100.0 - r.confidence
  {
    var score := DemoScore(scenario);
    var features :=
      if fileType == "audio" then AudioDemo(noise.audio, 100.0 - score)
      else VideoDemo(noise.video, 100.0 - score);
    DetectionResult(score, features, Classify(score))
  }

  /** The live audio path.  A sample that cannot be decoded is not an error
      for the caller: it is answered with the "Deepfake Attack" demo result. */
  function AnalyzeAudio(decoded: Option<AudioFeatures>, noise: DemoNoise): (r: DetectionResult)
    ensures WellFormed(r)
    ensures decoded.Some? ==> r.features == AudioMeasured(decoded.value)
    ensures decoded.Some? ==> r.confidence == Score(decoded.value)
    ensures decoded.None? ==> r.confidence == 23.0 && r.classification == Fake
    ensures decoded.None? ==> r.features.AudioDemo? && r.features.audio == noise.audio
  {
    match decoded
    case Some(f) =>
      var score := Score(f);
      DetectionResult(score, AudioMeasured(f), Classify(score))
    case None =>
      DemoAnalysis(DeepfakeAttack, "audio", noise)
  }

  /** The video path: the sample itself is not read; the three measurements
      come from the fixed-seed generator. */
  function AnalyzeVideo(draw: VideoFeatures): (r: DetectionResult)
    ensures WellFormed(r)
    ensures r.features == VideoMeasured(draw)
    ensures r.confidence == VideoAuthenticity(draw)
  {
    var score := VideoAuthenticity(draw);
    DetectionResult(score, VideoMeasured(draw), Classify(score))
  }

  /** Routing: a demo scenario wins when demo mode is on and a scenario is
      given; otherwise a file type of exactly "audio" takes the audio path and
      every other file type takes the video path. */
  function Analyze(
    agent: Detector,
    fileType: string,
    scenario: Option<string>,
    decoded: Option<AudioFeatures>,
    videoDraw: VideoFeatures,
    noise: DemoNoise
  ): (r: DetectionResult)
    ensures WellFormed(r)
    ensures agent.demoMode && ScenarioGiven(scenario) ==>
              r.confidence == DemoScore(scenario.value)
              && (r.features.AudioDemo? || r.features.VideoDemo?)
              && (r.features.AudioDemo? <==> fileType == "audio")
    ensures !(agent.demoMode && ScenarioGiven(scenario)) && fileType == "audio" && decoded.Some? ==>
              r.features == AudioMeasured(decoded.value) && r.confidence == Score(decoded.value)
    ensures !(agent.demoMode && ScenarioGiven(scenario)) && fileType == "audio" && decoded.None? ==>
              r.confidence == 23.0 && r.classification == Fake
              && r.features.AudioDemo? && r.features.audio == noise.audio
              && r.features.anomalyScore == 77.0
    ensures !(agent.demoMode && ScenarioGiven(scenario)) && fileType != "audio" ==>
              r.features == VideoMeasured(videoDraw) && r.confidence == VideoAuthenticity(videoDraw)
  {
    if agent.demoMode && ScenarioGiven(scenario) then DemoAnalysis(scenario.value, fileType, noise)
    else if fileType == "audio" then AnalyzeAudio(decoded, noise)
    else AnalyzeVideo(videoDraw)
  }

  /** The random draws of the demo path never reach the score or the
      classification: two runs of one scenario differ at most in the display
      values. */
  lemma DemoIgnoresNoise(scenario: string, fileType: string, n1: DemoNoise, n2: DemoNoise)
    ensures DemoAnalysis(scenario, fileType, n1).confidence == DemoAnalysis(scenario, fileType, n2).confidence
    ensures DemoAnalysis(scenario, fileType, n1).classification == DemoAnalysis(scenario, fileType, n2).classification
  {
  }

  /** What each named scenario is classified as, and the fallback for names
      outside the table. */
  lemma ScenarioClassifications(name: string, fileType: string, noise: DemoNoise)
    ensures name == LegitimateOwner ==> DemoAnalysis(name, fileType, noise).classification == Authentic
    ensures name == SuspiciousVoice ==> DemoAnalysis(name, fileType, noise).classification == Suspicious
    ensures name == DeepfakeAttack ==> DemoAnalysis(name, fileType, noise).classification == Fake
    ensures name == VideoCommand ==> DemoAnalysis(name, fileType, noise).classification == Fake
    ensures name !in ScenarioScores ==>
              DemoAnalysis(name, fileType, noise).confidence == 75.0
              && DemoAnalysis(name, fileType, noise).classification == Suspicious
  {
  }
}
