/** Numeric heuristics of the detection agent: the audio penalty score, the
    video authenticity formula, the clamp both of them apply, and the
    three-tier classification of a confidence score.

    All quantities are Dafny `real`s, i.e. exact rationals; the floating-point
    rounding of the Python program is not modelled. */
module Scoring {

  /** The four measurements the audio path extracts from a waveform. */
  datatype AudioFeatures = AudioFeatures(
    mfccVar: real,          // variance of the MFCC matrix
    chromaCorr: real,       // correlation of the first two chroma rows
    spectralRolloff: real,  // mean spectral rolloff
    zeroCrossingRate: real  // mean zero-crossing rate
  )

  /** The three measurements the video path works with. */
  datatype VideoFeatures = VideoFeatures(
    blinkRatio: real,
    lipSync: real,
    faceConsistency: real
  )

  /** The three tiers a confidence score is sorted into. */
  datatype Classification = Authentic | Suspicious | Fake

  /** How alarming a tier is: larger is worse. */
  function Severity(c: Classification): nat
  {
    match c
    case Authentic => 0
    case Suspicious => 1
    case Fake => 2
  }

  function Abs(x: real): (r: real)
    ensures r >= 0.0
    ensures r == x || r == -x
  {
    if x < 0.0 then -x else x
  }

  /** `max(lo, min(hi, x))`: the value pushed into the closed interval
      [lo, hi], and left alone when it is already there. */
  function Clamp(x: real, lo: real, hi: real): (r: real)
    requires lo <= hi
    ensures lo <= r <= hi
    ensures lo <= x <= hi ==> r == x
    ensures x < lo ==> r == lo
    ensures hi < x ==> r == hi
  {
    var capped := if hi < x then hi else x;
    if capped < lo then lo else capped
  }

  // ---------------------------------------------------------------------------
  // Audio score
  // ---------------------------------------------------------------------------

  /** The score every audio sample starts from before penalties. */
  const BaseScore: real := 85.0

  /** The four independent penalties of the audio heuristic. */
  datatype Penalty = MfccOutOfRange | WeakChroma | HighRolloff | HighZeroCrossing

  const AllPenalties: seq<Penalty> := [MfccOutOfRange, WeakChroma, HighRolloff, HighZeroCrossing]

  /** How many points a penalty costs. */
  function Weight(p: Penalty): real
  {
    match p
    case MfccOutOfRange => 20.0
    case WeakChroma => 15.0
    case HighRolloff => 10.0
    case HighZeroCrossing => 25.0
  }

  /** Whether a penalty applies to a feature set.  The MFCC range [10, 50] is
      closed: exactly 10 or exactly 50 is not penalised. */
  predicate Triggers(p: Penalty, f: AudioFeatures)
  {
    match p
    case MfccOutOfRange => f.mfccVar > 50.0 || f.mfccVar < 10.0
    case WeakChroma => Abs(f.chromaCorr) < 0.1
    case HighRolloff => f.spectralRolloff > 0.8
    case HighZeroCrossing => f.zeroCrossingRate > 0.15
  }

  /** The penalties among `ps` that apply to `f`, in the order of `ps`. */
  function Triggered(ps: seq<Penalty>, f: AudioFeatures): (t: seq<Penalty>)
    ensures forall p :: p in t <==> p in ps && Triggers(p, f)
    ensures |t| <= |ps|
  {
    if ps == [] then []
    else (if Triggers(ps[0], f) then [ps[0]] else []) + Triggered(ps[1..], f)
  }

  /** Total cost of a list of penalties. */
  function TotalWeight(ps: seq<Penalty>): real
  {
    if ps == [] then 0.0 else Weight(ps[0]) + TotalWeight(ps[1..])
  }

  lemma {:induction false} TotalWeightConcat(a: seq<Penalty>, b: seq<Penalty>)
    ensures TotalWeight(a + b) == TotalWeight(a) + TotalWeight(b)
  {
    if a == [] {
      assert a + b == b;
    } else {
      assert (a + b)[1..] == a[1..] + b;
      TotalWeightConcat(a[1..], b);
    }
  }

  /** The penalty-weighted score before the final clamp, computed the way the
      Python program does: one conditional decrement per feature, in order. */
  function UnclampedScore(f: AudioFeatures): real
  {
    var s0 := BaseScore;
    var s1 := if f.mfccVar > 50.0 || f.mfccVar < 10.0 then s0 - 20.0 else s0;
    var s2 := if Abs(f.chromaCorr) < 0.1 then s1 - 15.0 else s1;
    var s3 := if f.spectralRolloff > 0.8 then s2 - 10.0 else s2;
    if f.zeroCrossingRate > 0.15 then s3 - 25.0 else s3
  }

  /** The audio authenticity score of a feature set.  The penalties never
      exceed 70 points in total, so the clamp to [0, 100] never binds and the
      score always lies in [15, 85]. */
  function Score(f: AudioFeatures): (r: real)
    ensures 15.0 <= r <= BaseScore
    ensures r == UnclampedScore(f)
  {
    Clamp(UnclampedScore(f), 0.0, 100.0)
  }

  /** The score is the base of 85 minus the summed weights of exactly the
      penalties that apply: each feature test is evaluated independently of
      the others, and none of them is skipped or applied twice. */
  lemma ScoreIsPenaltySum(f: AudioFeatures)
    ensures Score(f) == BaseScore - TotalWeight(Triggered(AllPenalties, f))
  {
    var m := if Triggers(MfccOutOfRange, f) then [MfccOutOfRange] else [];
    var c := if Triggers(WeakChroma, f) then [WeakChroma] else [];
    var o := if Triggers(HighRolloff, f) then [HighRolloff] else [];
    var z := if Triggers(HighZeroCrossing, f) then [HighZeroCrossing] else [];
    var tail1, tail2, tail3 := AllPenalties[1..], AllPenalties[2..], AllPenalties[3..];
    assert tail1[1..] == tail2 && tail2[1..] == tail3 && tail3[1..] == [];
    assert Triggered(tail3, f) == z + Triggered([], f);
    assert Triggered(tail2, f) == o + z;
    assert Triggered(tail1, f) == c + (o + z);
    assert Triggered(AllPenalties, f) == m + (c + (o + z));
    TotalWeightConcat(m, c + (o + z));
    TotalWeightConcat(c, o + z);
    TotalWeightConcat(o, z);
  }

  /** Whether a penalty is applied is decided by its own feature alone:
      two feature sets that agree on one measurement agree on that penalty. */
  lemma PenaltyDependsOnOwnFeature(f: AudioFeatures, g: AudioFeatures)
    ensures f.mfccVar == g.mfccVar ==> (Triggers(MfccOutOfRange, f) <==> Triggers(MfccOutOfRange, g))
    ensures f.chromaCorr == g.chromaCorr ==> (Triggers(WeakChroma, f) <==> Triggers(WeakChroma, g))
    ensures f.spectralRolloff == g.spectralRolloff ==> (Triggers(HighRolloff, f) <==> Triggers(HighRolloff, g))
    ensures f.zeroCrossingRate == g.zeroCrossingRate ==> (Triggers(HighZeroCrossing, f) <==> Triggers(HighZeroCrossing, g))
  {
  }

  /** A feature set with no penalty keeps the full base score, and in
      particular an MFCC variance of exactly 10 or exactly 50 costs nothing. */
  lemma MfccRangeIsClosed(f: AudioFeatures)
    requires f.mfccVar == 10.0 || f.mfccVar == 50.0
    ensures !Triggers(MfccOutOfRange, f)
    ensures Abs(f.chromaCorr) >= 0.1 && f.spectralRolloff <= 0.8 && f.zeroCrossingRate <= 0.15
            ==> Score(f) == BaseScore
  {
  }

  // ---------------------------------------------------------------------------
  // Video score
  // ---------------------------------------------------------------------------

  /** The video formula before clamping: 85 minus the blink-ratio distance
      from 0.3 (scaled by 100), minus lip-sync and face-consistency shortfalls
      from 1 (scaled by 30 and 25). */
  function UnclampedAuthenticity(v: VideoFeatures): real
  {
    BaseScore - Abs(v.blinkRatio - 0.3) * 100.0 - (1.0 - v.lipSync) * 30.0 - (1.0 - v.faceConsistency) * 25.0
  }

  /** The video authenticity score: a percentage for any measurements at all,
      equal to the raw formula whenever that is already a percentage. */
  function VideoAuthenticity(v: VideoFeatures): (r: real)
    ensures 0.0 <= r <= 100.0
    ensures 0.0 <= UnclampedAuthenticity(v) <= 100.0 ==> r == UnclampedAuthenticity(v)
    ensures UnclampedAuthenticity(v) < 0.0 ==> r == 0.0
    ensures UnclampedAuthenticity(v) > 100.0 ==> r == 100.0
  {
    Clamp(UnclampedAuthenticity(v), 0.0, 100.0)
  }

  // ---------------------------------------------------------------------------
  // Classification
  // ---------------------------------------------------------------------------

  /** Sorts a score into a tier with strict thresholds: above 80 is
      Authentic, above 50 (up to and including 80) is Suspicious, and 50 or
      below is Fake. */
  function Classify(score: real): (c: Classification)
    ensures c == Authentic <==> score > 80.0
    ensures c == Suspicious <==> 50.0 < score <= 80.0
    ensures c == Fake <==> score <= 50.0
  {
    if score > 80.0 then Authentic
    else if score > 50.0 then Suspicious
    else Fake
  }

  /** The thresholds themselves belong to the lower tier. */
  lemma ClassifyBoundaries()
    ensures Classify(80.0) == Suspicious && Classify(81.0) == Authentic
    ensures Classify(50.0) == Fake && Classify(51.0) == Suspicious
  {
  }

  /** A lower score is never classified as less severe. */
  lemma ClassifyMonotone(lower: real, higher: real)
    requires lower <= higher
    ensures Severity(Classify(higher)) <= Severity(Classify(lower))
  {
  }
}
