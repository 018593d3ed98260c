# SentinelAI decision pipeline

A Dafny model of the three-agent pipeline that screens a voice or video
command for a smart-home device and answers it with a defensive action:

1. the **detection agent** turns a sample (or a named demo scenario) into a
   confidence score, the measurements behind it, and a classification
   Authentic / Suspicious / Fake;
2. the **decision agent** maps the classification to an action
   (Allow / Restrict / Deceive), a risk tier and an alert flag;
3. the **defense agent** carries the action out symbolically (lights on,
   second factor required, honeypot) and appends one entry to its log.

Files, one module each:

- `scoring.dfy` (`Scoring`): the audio penalty score, the video
  authenticity formula, the clamp they share, and the classification
  thresholds. The audio score is given a reference definition: 85 minus the
  summed weights of the penalties that apply.
- `detection.dfy` (`DetectionAgent`): the scenario table, the demo path,
  the audio path with its decode-failure fallback, the video path and the
  routing between them.
- `decision.dfy` (`DecisionAgent`): the decision table.
- `defense.dfy` (`DefenseAgent`): `act`, its log, and repeated calls on one
  agent.
- `pipeline.dfy` (`Pipeline`): one pass through all three agents, and the
  end-to-end facts about the demo scenarios and the fallback.
- `wrappers.dfy` (`Wrappers`): the `Option` type.

Modelling choices:

- Scores and features are `real`, so the arithmetic is exact rather than
  IEEE floating point.
- The emoji-labelled strings the source compares by substring
  (`"Authentic" in label`, `"ALLOW" in action`) are enums, matched
  exhaustively.
- Scenario names stay strings, spelled with their emoji prefix, because the
  source looks them up by exact key.
- Foreign computations are parameters:
  - the librosa decoding and measurement of an audio sample is
    `decoded: Option<AudioFeatures>`, with `None` for a sample that fails to
    decode;
  - the three fixed-seed draws of the video path are `videoDraw`;
  - the cosmetic random draws of the demo path are `noise`.
  None of them is constrained, so every property holds for all values they
  could take.
- A log entry is its timestamp, its kind and its source address. The
  timestamp is a parameter, because the clock is not modelled.
- The decision's reason is its kind plus the confidence it quotes. The
  one-decimal formatting of the text is not modelled.
- A demo scenario counts as given only when it is present and non-empty,
  because the source tests the argument's truthiness.

The model follows the code on these points:

- Every file type other than exactly `"audio"` takes the video path. No
  invalid-modality error exists.
- The decode-failure fallback returns exactly the "Deepfake Attack" demo
  result (confidence 23, Fake, audio demo features). The result carries no
  marker that a fallback was used.
- `riskLevel` has no effect on the decision.

## Model

| member | source | states |
|---|---|---|
| Scoring.Clamp | app.py:87 | the result lies in [lo, hi] and equals the input when the input already does |
| Scoring.Score | app.py:94-100 | the audio score always lies in [15, 85] and the clamp to [0, 100] never changes it |
| Scoring.ScoreIsPenaltySum | app.py:94-99 | the audio score is 85 minus the total weight of exactly the penalties that apply (mfcc outside [10,50]: 20, abs chroma below 0.1: 15, rolloff above 0.8: 10, zero-crossing above 0.15: 25), so the four tests act independently |
| Scoring.TotalWeightConcat | app.py:95-99 | penalty weights add up over a concatenation, so consecutive decrements compose |
| Scoring.PenaltyDependsOnOwnFeature | app.py:96-99 | whether each penalty applies depends only on its own feature |
| Scoring.MfccRangeIsClosed | app.py:96 | an MFCC variance of exactly 10 or 50 incurs no penalty, and with no other penalty the score stays 85 |
| Scoring.VideoAuthenticity | app.py:86-87 | the video confidence lies in [0, 100] for any measurements, equals the raw formula when that is in range, is 0 when the formula goes negative and 100 when it exceeds 100 |
| Scoring.Classify | app.py:102-105 | Authentic iff score > 80, Suspicious iff 50 < score <= 80, Fake iff score <= 50 |
| Scoring.ClassifyBoundaries | app.py:102-105 | 80 is Suspicious, 81 Authentic, 50 Fake, 51 Suspicious |
| Scoring.ClassifyMonotone | app.py:102-105 | a lower score never gets a less severe classification |
| DetectionAgent.DemoScore | app.py:37-43 | a scenario name in the table gets its table score, any other name gets 75, and the score is a percentage |
| DetectionAgent.DemoAnalysis | app.py:35-65 | the demo result's confidence is the scenario's score and its classification follows from it; audio features are reported iff the file type is "audio"; the reported anomaly or deepfake score is 100 minus the confidence |
| DetectionAgent.DemoIgnoresNoise | app.py:45-65 | the random draws never change the demo confidence or classification |
| DetectionAgent.ScenarioClassifications | app.py:37-43 | Legitimate Owner is Authentic, Suspicious Voice is Suspicious, Deepfake Attack and Video Command are Fake, and an unknown name scores 75 and is Suspicious |
| DetectionAgent.AnalyzeAudio | app.py:67-79 | a decoded sample is reported with its own features and the audio score; a decode failure yields confidence 23, Fake, with the demo audio features |
| DetectionAgent.AnalyzeVideo | app.py:81-92 | the video result reports the drawn features and the clamped authenticity, classified |
| DetectionAgent.Analyze | app.py:29-33 | every result is a percentage classified by its own confidence; the demo table is used iff demo mode is on and a non-empty scenario is given, reporting audio demo features iff the file type is "audio"; otherwise "audio" takes the audio path (with the 23/Fake fallback and the demo audio features) and any other file type the video path |
| DecisionAgent.Decide | app.py:108-116 | Allow iff Authentic, Restrict iff Suspicious, Deceive iff Fake; alert iff not Allow; the risk tier ranks exactly as the classification's severity; the reason quotes the confidence |
| DecisionAgent.DecideIgnoresRiskLevel | app.py:108-116 | any two risk levels give the same decision |
| DecisionAgent.DecideMonotone | app.py:102-116 | for well-formed results, a lower confidence never gives a milder risk tier |
| DefenseAgent.Act | app.py:122-145 | exactly one entry is appended and earlier entries are unchanged; the entry carries the given source and time; honeypot iff Deceive; status and log kind match the action |
| DefenseAgent.ActAll | app.py:118-145 | over repeated calls on one agent, the log grows by one entry per call, the old prefix is kept, and the new entries appear in call order, each being exactly the outcome `act` gives for its request (status, honeypot flag, log kind, source and time) |
| Pipeline.Run | app.py:289-296 | one pass yields a well-formed detection, appends exactly one log entry, engages the honeypot iff the classification is Fake, alerts iff it is not Authentic, and turns the lights on iff confidence > 80 |
| Pipeline.DeepfakeAttackEngagesHoneypot | app.py:37-43 | the "Deepfake Attack" scenario is always Fake, deceived and honeypotted, whatever the random draws |
| Pipeline.LegitimateOwnerIsAllowed | app.py:37-43 | the "Legitimate Owner" scenario is always Authentic and allowed, never honeypotted |
| Pipeline.SuspiciousAndUnknownAreRestricted | app.py:37-43 | "Suspicious Voice" (67) and any unknown scenario (75) are Suspicious, restricted, alerted, and not honeypotted |
| Pipeline.UndecodableAudioIsDeceived | app.py:78-79 | an undecodable audio sample outside demo mode scores 23 and is deceived |
| Pipeline.DecodedAudioHoneypotIffPenalties | app.py:94-116 | a decoded audio sample is honeypotted iff its applicable penalties total at least 35 points |

## Left out

- The Streamlit user interface is not modelled: page layout, tabs,
  charts, the file uploader, progress animation and balloons. The session
  reset, the dashboard's log counting and its newest-first display are
  presentation and are not modelled either.
- Feature extraction with librosa and numpy is a foreign library call on
  audio data. It is modelled only by its outcome: features, or failure to
  decode.
- numpy random generation, including the fixed seed of the video path, is
  not modelled. The drawn values are unconstrained parameters, so the
  model does not pin down the concrete video confidence the seed produces.
- A NaN chroma correlation, which floating point can produce, is not
  modelled. Scores are exact reals.
- Timestamps come from the clock and are a parameter. The text
  formatting of log lines and reasons is not modelled: log lines keep their
  timestamp, kind and source, and reasons keep their kind and confidence.
- `load_demo_data` (cosmetic random threat history) is not modelled.
- Neither an invalid-modality error nor a "fallback used" marker is
  modelled: the code has neither (every file type other than "audio" takes
  the video path, app.py:33, and the fallback result is the demo result,
  app.py:79).
- Concurrency is not modelled. The code has none.
