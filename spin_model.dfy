/** The spin and calibration state of a `Wheel` in wheel.py as a value, with
    one function per operation that changes it. The `Wheel` class (module
    Wheels) is proved to make exactly these transitions; the lemmas here say
    what a sequence of them does. */
module SpinModel {
  import opened Config
  import opened WheelMath

  datatype Option<T> = None | Some(value: T)

  /** The fields of `Wheel` the engine reads and writes. `labelsOffset` is the
      image offset the cached label layer (`labels_base`) was last built with. */
  datatype WheelState = WheelState(
    angle: real,
    isSpinning: bool,
    startTime: real,
    duration: real,
    startAngle: real,
    totalRotation: real,
    result: Option<string>,
    resultUntil: real,
    imageOffset: real,
    pointerOffset: real,
    offX: int,
    offY: int,
    labelsOffset: real)

  /** `SPIN_MIN_TURNS * 2π` and `SPIN_MAX_TURNS * 2π`: the range of a spin's rotation. */
  const MinRotation: real := SpinMinTurns * 2.0 * Pi
  const MaxRotation: real := SpinMaxTurns * 2.0 * Pi

  /** What every reachable state satisfies: both offsets are wrapped, the
      label layer matches the image offset, an idle wheel sits inside one turn,
      a running spin has the configured duration, a start inside one turn and
      a forward rotation of the configured size, and a result is a label. */
  predicate WellFormed(s: WheelState) {
    && InTurn(s.imageOffset)
    && InTurn(s.pointerOffset)
    && s.labelsOffset == s.imageOffset
    && (!s.isSpinning ==> InTurn(s.angle))
    && (s.isSpinning ==>
          s.duration == SpinDuration && InTurn(s.startAngle)
          && MinRotation <= s.totalRotation <= MaxRotation)
    && (s.result.Some? ==> s.result.value in SegmentLabels())
  }

  /** The state `Wheel.__init__` leaves behind. */
  function Init(): (s: WheelState)
    ensures WellFormed(s)
    ensures !s.isSpinning && s.result == None && s.angle == 0.0
  {
    WheelState(0.0, false, 0.0, 0.0, 0.0, 0.0, None, 0.0, 5.515, 0.0, 0, 0, 5.515)
  }

  /** `start_spin`, with the clock reading `now` and the sampled number of
      turns `turns`; the caller only starts a spin on an idle wheel. */
  function StartSpin(s: WheelState, now: real, turns: real): (r: WheelState)
    requires WellFormed(s) && !s.isSpinning
    requires SpinMinTurns <= turns <= SpinMaxTurns
    ensures WellFormed(r)
    ensures r.isSpinning && r.startTime == now && r.duration == SpinDuration
    ensures r.startAngle == s.angle && r.angle == s.angle
    ensures MinRotation <= r.totalRotation <= MaxRotation
    ensures r.(isSpinning := false, startTime := s.startTime, duration := s.duration,
               startAngle := s.startAngle, totalRotation := s.totalRotation) == s
  {
    s.(isSpinning := true, startTime := now, duration := SpinDuration,
       startAngle := s.angle, totalRotation := turns * 2.0 * Pi)
  }

  /** `update` at clock reading `now`. */
  function Update(s: WheelState, now: real): (r: WheelState)
    requires WellFormed(s)
    ensures WellFormed(r)
    ensures !s.isSpinning ==> r == s
    ensures r.(angle := s.angle, isSpinning := s.isSpinning, result := s.result,
               resultUntil := s.resultUntil) == s
  {
    if !s.isSpinning then s
    else
      var t := Progress(now, s.startTime, s.duration);
      var angle := SpinAngle(s.startAngle, s.totalRotation, t);
      if t >= 1.0 then
        var settled := NormalizeAngle(angle);
        s.(isSpinning := false, angle := settled,
           result := Some(SegmentLabels()[ResolveIndex(settled, s.pointerOffset)]),
           resultUntil := now + ResultTime)
      else
        s.(angle := angle)
  }

  /** `adjust_image_offset`; the label layer is rebuilt with the new offset. */
  function AdjustImageOffset(s: WheelState, delta: real): (r: WheelState)
    ensures InTurn(r.imageOffset) && r.labelsOffset == r.imageOffset
    ensures r.(imageOffset := s.imageOffset, labelsOffset := s.labelsOffset) == s
    ensures WellFormed(s) ==> WellFormed(r)
  {
    var o := NormalizeAngle(s.imageOffset + delta);
    s.(imageOffset := o, labelsOffset := o)
  }

  /** `adjust_pointer_offset`. */
  function AdjustPointerOffset(s: WheelState, delta: real): (r: WheelState)
    ensures InTurn(r.pointerOffset)
    ensures r.(pointerOffset := s.pointerOffset) == s
    ensures WellFormed(s) ==> WellFormed(r)
  {
    s.(pointerOffset := NormalizeAngle(s.pointerOffset + delta))
  }

  /** `nudge`: moves the drawn wheel by (dx, dy) pixels. */
  function Nudge(s: WheelState, dx: int, dy: int): (r: WheelState)
    ensures r.offX - s.offX == dx && r.offY - s.offY == dy
    ensures r.(offX := s.offX, offY := s.offY) == s
    ensures WellFormed(s) ==> WellFormed(r)
  {
    s.(offX := s.offX + dx, offY := s.offY + dy)
  }

  /** The reset key: both offsets back to 0 and the label layer rebuilt. */
  function Reset(s: WheelState): (r: WheelState)
    ensures r.imageOffset == 0.0 && r.pointerOffset == 0.0 && r.labelsOffset == 0.0
    ensures r.(imageOffset := s.imageOffset, pointerOffset := s.pointerOffset,
               labelsOffset := s.labelsOffset) == s
    ensures WellFormed(s) ==> WellFormed(r)
  {
    s.(imageOffset := 0.0, pointerOffset := 0.0, labelsOffset := 0.0)
  }

  /** Before the spin's time is up, `update` only moves the angle, along the
      eased curve and between the start angle and the start angle plus the
      whole rotation. */
  lemma UpdateWhileRunning(s: WheelState, now: real)
    requires WellFormed(s) && s.isSpinning
    requires s.startTime <= now < s.startTime + s.duration
    ensures var r := Update(s, now);
            && r == s.(angle := SpinAngle(s.startAngle, s.totalRotation, Progress(now, s.startTime, s.duration)))
            && s.startAngle <= r.angle <= s.startAngle + s.totalRotation
  {
    SpinAngleBounds(s.startAngle, s.totalRotation, Progress(now, s.startTime, s.duration));
  }

  /** Once the spin's time is up, `update` stops the spin, lands on the end of
      the rotation normalised into one turn, and publishes the label of the
      segment the resolver picks, for RESULT_TIME seconds. */
  lemma UpdateFinishes(s: WheelState, now: real)
    requires WellFormed(s) && s.isSpinning
    requires now >= s.startTime + s.duration
    ensures var r := Update(s, now);
            && !r.isSpinning
            && r.angle == NormalizeAngle(s.startAngle + s.totalRotation)
            && InTurn(r.angle)
            && r.result == Some(SegmentLabels()[ResolveIndex(r.angle, s.pointerOffset)])
            && r.resultUntil == now + ResultTime
  {
    EaseEndpoints();
  }

  /** The finish happens exactly once: after it, further `update` calls at any
      time leave the state, and so the angle and the result, as they are. */
  lemma FinishIsFinal(s: WheelState, now: real, later: real)
    requires WellFormed(s) && s.isSpinning
    requires now >= s.startTime + s.duration
    ensures Update(Update(s, now), later) == Update(s, now)
  {
    UpdateFinishes(s, now);
  }

  /** The angle during a spin is a function of the clock alone: an earlier
      frame that did not finish the spin leaves no trace on the next one. */
  lemma UpdateForgetsFrames(s: WheelState, now1: real, now2: real)
    requires WellFormed(s) && s.isSpinning
    requires now1 < s.startTime + s.duration
    ensures Update(Update(s, now1), now2) == Update(s, now2)
  {
  }

  /** While the spin runs, a later clock reading never gives a smaller angle. */
  lemma AngleNeverDecreases(s: WheelState, now1: real, now2: real)
    requires WellFormed(s) && s.isSpinning
    requires now1 <= now2 < s.startTime + s.duration
    ensures Update(s, now1).angle <= Update(s, now2).angle
  {
    ProgressMonotone(now1, now2, s.startTime, s.duration);
    SpinAngleMonotone(s.startAngle, s.totalRotation,
                      Progress(now1, s.startTime, s.duration), Progress(now2, s.startTime, s.duration));
  }

  /** A spin started at `now` and updated once its duration has passed lands
      on `angle + turns * 2π` read inside one turn, and its result is the label
      of the segment the resolver assigns to the pointer at that angle. */
  lemma SpinLands(s: WheelState, now: real, turns: real, later: real)
    requires WellFormed(s) && !s.isSpinning
    requires SpinMinTurns <= turns <= SpinMaxTurns
    requires later >= now + SpinDuration
    ensures var r := Update(StartSpin(s, now, turns), later);
            var settled := NormalizeAngle(s.angle + turns * 2.0 * Pi);
            && !r.isSpinning && r.angle == settled
            && r.result == Some(SegmentLabels()[ResolveIndex(settled, s.pointerOffset)])
            && r.resultUntil == later + ResultTime
  {
    UpdateFinishes(StartSpin(s, now, turns), later);
  }

  /** The result depends on the pointer offset but not on the image offset:
      changing the image offset changes nothing about any `update` but the
      image offset itself. */
  lemma UpdateIgnoresImageOffset(s: WheelState, now: real, o: real)
    requires WellFormed(s) && InTurn(o)
    ensures var s' := s.(imageOffset := o, labelsOffset := o);
            Update(s', now) == Update(s, now).(imageOffset := o, labelsOffset := o)
  {
  }

  /** Four adjustments of the pointer offset by π, half a turn each,
      bring a wrapped offset back to where it was. */
  lemma PointerOffsetFourHalfTurns(s: WheelState)
    requires InTurn(s.pointerOffset)
    ensures AdjustPointerOffset(AdjustPointerOffset(AdjustPointerOffset(
              AdjustPointerOffset(s, Pi), Pi), Pi), Pi) == s
  {
    var p := s.pointerOffset;
    NormalizeThenAdd(p + Pi, Pi);
    NormalizeThenAdd(p + 2.0 * Pi, Pi);
    NormalizeThenAdd(p + 3.0 * Pi, Pi);
    NormalizeAddTurns(p, 2);
    NormalizeInTurn(p);
  }

  /** The same closure holds for the image offset, and the label layer follows it. */
  lemma ImageOffsetFourHalfTurns(s: WheelState)
    requires InTurn(s.imageOffset) && s.labelsOffset == s.imageOffset
    ensures AdjustImageOffset(AdjustImageOffset(AdjustImageOffset(
              AdjustImageOffset(s, Pi), Pi), Pi), Pi) == s
  {
    var p := s.imageOffset;
    NormalizeThenAdd(p + Pi, Pi);
    NormalizeThenAdd(p + 2.0 * Pi, Pi);
    NormalizeThenAdd(p + 3.0 * Pi, Pi);
    NormalizeAddTurns(p, 2);
    NormalizeInTurn(p);
  }
}
