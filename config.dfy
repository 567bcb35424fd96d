/** The wheel constants of config.py, and the facts about them that the spin
    engine relies on. */
module Config {

  /** Python's math.pi, written as the decimal it prints as. Angles are exact
      reals here, so this one constant stands for the float. */
  const Pi: real := 3.141592653589793

  /** One full turn, 2 * math.pi. */
  const TwoPi: real := 2.0 * Pi

  /** N_SEGMENTS: the wheel has eight equal segments. */
  const NSegments: nat := 8

  /** SEGMENT_LABELS: even segments read "Dulce", odd ones "Truco". */
  function SegmentLabels(): (labels: seq<string>)
    ensures |labels| == NSegments
    ensures forall i :: 0 <= i < |labels| ==> labels[i] == "Dulce" || labels[i] == "Truco"
  {
    seq(NSegments, i => if i % 2 == 0 then "Dulce" else "Truco")
  }

  /** SEGMENT_ANGLE: the width of one segment, in radians. */
  const SegmentAngle: real := TwoPi / NSegments as real

  /** SPIN_MIN_TURNS and SPIN_MAX_TURNS: bounds of the random number of turns. */
  const SpinMinTurns: real := 6.2
  const SpinMaxTurns: real := 12.4

  /** SPIN_DURATION and RESULT_TIME, in seconds. */
  const SpinDuration: real := 6.2
  const ResultTime: real := 2.4

  /** There is exactly one label per segment. */
  lemma LabelsPerSegment()
    ensures |SegmentLabels()| == NSegments
  {
  }

  /** Label i is "Dulce" exactly when i is even, and "Truco" otherwise. */
  lemma LabelParity(i: int)
    requires 0 <= i < NSegments
    ensures SegmentLabels()[i] == "Dulce" <==> i % 2 == 0
    ensures SegmentLabels()[i] == "Truco" <==> i % 2 == 1
  {
  }

  /** Every label is one of the two prizes, and each prize has four segments. */
  lemma LabelCounts()
    ensures forall l :: l in SegmentLabels() ==> l == "Dulce" || l == "Truco"
    ensures multiset(SegmentLabels())["Dulce"] == 4
    ensures multiset(SegmentLabels())["Truco"] == 4
  {
    assert SegmentLabels()
        == ["Dulce", "Truco", "Dulce", "Truco", "Dulce", "Truco", "Dulce", "Truco"];
  }

  /** The segments are non-empty and together cover exactly one turn. */
  lemma SegmentsCoverTurn()
    ensures SegmentAngle > 0.0
    ensures SegmentAngle * NSegments as real == TwoPi
  {
  }

  /** The turn range sampled for a spin is non-empty and positive. */
  lemma TurnRangeNonEmpty()
    ensures 0.0 < SpinMinTurns <= SpinMaxTurns
  {
  }

  /** The spin duration (a divisor) and the result window are positive. */
  lemma TimesPositive()
    ensures SpinDuration > 0.0
    ensures ResultTime > 0.0
  {
  }
}
