/** The `Wheel` object of wheel.py: its spin, result and calibration fields,
    updated in place by the same methods as in the source. Each method is
    proved to make the transition SpinModel gives for it, so every lemma about
    those transitions holds of the object. */
module Wheels {
  import opened Config
  import opened WheelMath
  import opened SpinModel

  class Wheel {
    // Spin state
    var angle: real
    var isSpinning: bool
    var startTime: real
    var duration: real
    var startAngle: real
    var totalRotation: real

    // Result banner
    var result: Option<string>
    var resultUntil: real

    // Calibration offsets, live-adjustable
    var imageOffset: real
    var pointerOffset: real

    // Pixel offset of the drawn wheel and labels
    var offX: int
    var offY: int

    // Image offset the cached label layer was last built with
    var labelsOffset: real

    /** The object's fields as a SpinModel state. */
    function State(): WheelState
      reads this
    {
      WheelState(angle, isSpinning, startTime, duration, startAngle, totalRotation,
                 result, resultUntil, imageOffset, pointerOffset, offX, offY, labelsOffset)
    }

    ghost predicate Valid()
      reads this
    {
      WellFormed(State())
    }

    /** `__init__`, without the screen, images and fonts. */
    constructor ()
      ensures Valid()
      ensures State() == Init()
    {
      angle := 0.0;
      isSpinning := false;
      startTime := 0.0;
      duration := 0.0;
      startAngle := 0.0;
      totalRotation := 0.0;
      result := None;
      resultUntil := 0.0;
      imageOffset := 5.515;
      pointerOffset := 0.0;
      offX := 0;
      offY := 0;
      labelsOffset := imageOffset;
    }

    /** `nudge`: moves the wheel and its labels together. */
    method Nudge(dx: int, dy: int)
      requires Valid()
      modifies this
      ensures Valid()
      ensures State() == SpinModel.Nudge(old(State()), dx, dy)
    {
      offX := offX + dx;
      offY := offY + dy;
    }

    /** `rebuild_labels`: the label layer is redrawn with the current image offset. */
    method RebuildLabels()
      modifies this`labelsOffset
      ensures labelsOffset == imageOffset
    {
      labelsOffset := imageOffset;
    }

    /** `start_spin`: `now` stands for `time.time()` and `turns` for the value
        of `random.uniform(SPIN_MIN_TURNS, SPIN_MAX_TURNS)`. The key handler
        only calls it on an idle wheel. */
    method StartSpin(now: real, turns: real)
      requires Valid() && !isSpinning
      requires SpinMinTurns <= turns <= SpinMaxTurns
      modifies this
      ensures Valid() && isSpinning
      ensures State() == SpinModel.StartSpin(old(State()), now, turns)
    {
      isSpinning := true;
      startTime := now;
      duration := SpinDuration;
      startAngle := angle;
      var extra := turns * 2.0 * Pi;
      totalRotation := extra;
    }

    /** `update`: `now` stands for `time.time()`. */
    method Update(now: real)
      requires Valid()
      modifies this
      ensures Valid()
      ensures State() == SpinModel.Update(old(State()), now)
    {
      if !isSpinning {
        return;
      }
      var t := Progress(now, startTime, duration);
      angle := startAngle + totalRotation * EaseOutCubic(t);
      if t >= 1.0 {
        isSpinning := false;
        angle := NormalizeAngle(angle);
        var idx := ResolveIndex(angle, pointerOffset);
        result := Some(SegmentLabels()[idx]);
        resultUntil := now + ResultTime;
      }
    }

    /** `adjust_image_offset`. */
    method AdjustImageOffset(delta: real)
      requires Valid()
      modifies this
      ensures Valid()
      ensures State() == SpinModel.AdjustImageOffset(old(State()), delta)
    {
      imageOffset := NormalizeAngle(imageOffset + delta);
      RebuildLabels();
    }

    /** `adjust_pointer_offset`. */
    method AdjustPointerOffset(delta: real)
      requires Valid()
      modifies this
      ensures Valid()
      ensures State() == SpinModel.AdjustPointerOffset(old(State()), delta)
    {
      pointerOffset := NormalizeAngle(pointerOffset + delta);
    }

    /** The reset key of the event loop: both offsets to 0, then the label
        layer is rebuilt. */
    method Reset()
      requires Valid()
      modifies this
      ensures Valid()
      ensures State() == SpinModel.Reset(old(State()))
    {
      imageOffset := 0.0;
      pointerOffset := 0.0;
      RebuildLabels();
    }
  }

  /** One press of the space key on an idle wheel, followed by frames at
      `frame1 <= frame2` within the spin and a last frame once its time is up:
      the wheel ends idle at its old angle plus `turns` full turns, wrapped
      into one turn, with the label the resolver assigns to that angle as the
      result, shown until `last + RESULT_TIME`. */
  method SpinToResult(w: Wheel, press: real, turns: real, frame1: real, frame2: real, last: real)
    requires w.Valid() && !w.isSpinning
    requires SpinMinTurns <= turns <= SpinMaxTurns
    requires press <= frame1 <= frame2 < press + SpinDuration <= last
    modifies w
    ensures w.Valid() && !w.isSpinning && InTurn(w.angle)
    ensures w.angle == NormalizeAngle(old(w.angle) + turns * 2.0 * Pi)
    ensures w.result == Some(SegmentLabels()[ResolveIndex(w.angle, old(w.pointerOffset))])
    ensures w.resultUntil == last + ResultTime
  {
    w.StartSpin(press, turns);
    ghost var started := w.State();
    w.Update(frame1);
    ghost var a1 := w.angle;
    w.Update(frame2);
    ghost var a2 := w.angle;
    AngleNeverDecreases(started, frame1, frame2);
    assert a1 <= a2;
    w.Update(last);
    UpdateForgetsFrames(started, frame1, frame2);
    UpdateForgetsFrames(started, frame1, last);
    UpdateForgetsFrames(started, frame2, last);
    SpinLands(old(w.State()), press, turns, last);
    ghost var settled := w.State();
    w.Update(last + 1.0);
    assert w.State() == settled;
  }
}
