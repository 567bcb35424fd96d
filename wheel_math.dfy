/** The pure arithmetic of wheel.py: Python's floored `%` by one turn, the
    ease-out cubic curve, the clamped progress of a spin and the resolution of
    the segment index the code assigns to the pointer position. */
module WheelMath {
  import opened Config

  /** An angle inside one turn, [0, 2π). */
  predicate InTurn(x: real) {
    0.0 <= x < TwoPi
  }

  /** `x % (2 * math.pi)`: Python's `%` on floats floors, so the remainder is
      never negative for a positive modulus. */
  function NormalizeAngle(x: real): (r: real)
    ensures InTurn(r)
  {
    x - TwoPi * (x / TwoPi).Floor as real
  }

  /** The remainder is the only angle in [0, 2π) that differs from x by whole turns. */
  lemma NormalizeAngleUnique(x: real, y: real, k: int)
    requires InTurn(y)
    requires x == y + k as real * TwoPi
    ensures NormalizeAngle(x) == y
  {
    assert x / TwoPi == y / TwoPi + k as real;
    assert 0.0 <= y / TwoPi < 1.0;
    assert (x / TwoPi).Floor == k;
  }

  /** Normalising an angle already inside one turn leaves it alone. */
  lemma NormalizeInTurn(x: real)
    requires InTurn(x)
    ensures NormalizeAngle(x) == x
  {
    NormalizeAngleUnique(x, x, 0);
  }

  /** Whole turns do not change the normalised angle. */
  lemma NormalizeAddTurns(x: real, k: int)
    ensures NormalizeAngle(x + k as real * TwoPi) == NormalizeAngle(x)
  {
    var f := (x / TwoPi).Floor;
    NormalizeAngleUnique(x + k as real * TwoPi, NormalizeAngle(x), f + k);
  }

  /** Normalising before adding a delta gives the same angle as normalising once after. */
  lemma NormalizeThenAdd(x: real, d: real)
    ensures NormalizeAngle(NormalizeAngle(x) + d) == NormalizeAngle(x + d)
  {
    var f := (x / TwoPi).Floor;
    assert NormalizeAngle(x) + d + f as real * TwoPi == x + d;
    NormalizeAddTurns(NormalizeAngle(x) + d, f);
  }

  /** `ease_out_cubic`: 1 + (t - 1)^3, the decelerating curve of a spin. */
  function EaseOutCubic(t: real): (r: real)
    ensures 0.0 <= t <= 1.0 ==> 0.0 <= r <= 1.0
  {
    var u := t - 1.0;
    assert -1.0 <= u <= 0.0 ==> -1.0 <= u * u * u <= 0.0 by {
      if -1.0 <= u <= 0.0 {
        var w := -u;
        assert 0.0 <= w * w <= w by { assert w * (1.0 - w) >= 0.0; }
        assert 0.0 <= w * w * w <= w * w by { assert (w * w) * (1.0 - w) >= 0.0; }
        assert u * u * u == -(w * w * w);
      }
    }
    u * u * u + 1.0
  }

  /** The curve starts at 0 and ends at 1. */
  lemma EaseEndpoints()
    ensures EaseOutCubic(0.0) == 0.0
    ensures EaseOutCubic(1.0) == 1.0
  {
  }

  /** The curve never goes back: it is nondecreasing on all of the reals. */
  lemma EaseMonotone(a: real, b: real)
    requires a <= b
    ensures EaseOutCubic(a) <= EaseOutCubic(b)
  {
    var u, v := a - 1.0, b - 1.0;
    var q := v * v + u * v + u * u;
    assert q >= 0.0 by {
      var w := v + u / 2.0;
      assert q == w * w + 3.0 * (u * u) / 4.0;
    }
    assert v * v * v - u * u * u == (v - u) * q;
    assert (v - u) * q >= 0.0;
  }

  /** `min((now - start_time) / duration, 1.0)`: how far the spin has got. */
  function Progress(now: real, startTime: real, duration: real): (t: real)
    requires duration > 0.0
    ensures t <= 1.0
    ensures t == 1.0 <==> now >= startTime + duration
    ensures now >= startTime ==> 0.0 <= t
  {
    var e := (now - startTime) / duration;
    assert e * duration == now - startTime;
    assert e >= 1.0 <==> now - startTime >= duration by {
      if e >= 1.0 {
        assert (e - 1.0) * duration >= 0.0;
      } else {
        assert (1.0 - e) * duration > 0.0;
      }
    }
    assert now >= startTime ==> e >= 0.0 by {
      if e < 0.0 {
        assert (-e) * duration > 0.0;
      }
    }
    if e < 1.0 then e else 1.0
  }

  /** Progress never decreases as the clock moves forward. */
  lemma ProgressMonotone(now1: real, now2: real, startTime: real, duration: real)
    requires duration > 0.0
    requires now1 <= now2
    ensures Progress(now1, startTime, duration) <= Progress(now2, startTime, duration)
  {
    var e1, e2 := (now1 - startTime) / duration, (now2 - startTime) / duration;
    assert e2 - e1 == (now2 - now1) / duration;
    assert e1 <= e2;
  }

  lemma MulNonNegative(a: real, b: real)
    requires a >= 0.0 && b >= 0.0
    ensures a * b >= 0.0
  {
  }

  /** `start_angle + total_rotation * ease_out_cubic(t)`: the angle at progress t. */
  function SpinAngle(startAngle: real, totalRotation: real, t: real): (a: real)
    ensures t == 0.0 ==> a == startAngle
    ensures t == 1.0 ==> a == startAngle + totalRotation
  {
    startAngle + totalRotation * EaseOutCubic(t)
  }

  /** Between the start and the end of a forward spin the angle stays between
      the start angle and the start angle plus the whole rotation. */
  lemma SpinAngleBounds(startAngle: real, totalRotation: real, t: real)
    requires totalRotation >= 0.0
    requires 0.0 <= t <= 1.0
    ensures startAngle <= SpinAngle(startAngle, totalRotation, t) <= startAngle + totalRotation
  {
    var e := EaseOutCubic(t);
    MulNonNegative(totalRotation, e);
    MulNonNegative(totalRotation, 1.0 - e);
  }

  /** A forward spin never turns back as its progress grows. */
  lemma SpinAngleMonotone(startAngle: real, totalRotation: real, t1: real, t2: real)
    requires totalRotation >= 0.0
    requires t1 <= t2
    ensures SpinAngle(startAngle, totalRotation, t1) <= SpinAngle(startAngle, totalRotation, t2)
  {
    EaseMonotone(t1, t2);
    MulNonNegative(totalRotation, EaseOutCubic(t2) - EaseOutCubic(t1));
  }

  /** The 1e-7 bias added before the floor division. */
  const Epsilon: real := 0.0000001

  /** The conceptual pointer, straight up (-90 degrees). */
  const PointerBase: real := -Pi / 2.0

  /** `(pointer - angle) % (2 * math.pi)` with `pointer = -math.pi/2 + pointer_offset`:
      the pointer's position measured on the unrotated wheel. */
  function PointerOnWheel(angle: real, pointerOffset: real): (raw: real)
    ensures InTurn(raw)
  {
    NormalizeAngle(PointerBase + pointerOffset - angle)
  }

  /** `int((raw + 1e-7) // SEGMENT_ANGLE)`, before the final `% N_SEGMENTS`.
      For a position inside one turn it is a segment index, or N_SEGMENTS
      when the bias carries it past the full turn. */
  function SegmentQuotient(raw: real): (q: int)
    requires InTurn(raw)
    ensures 0 <= q <= NSegments
    ensures q == NSegments <==> raw + Epsilon >= TwoPi
  {
    ((raw + Epsilon) / SegmentAngle).Floor
  }

  /** The index computed at the end of `update`: the segment the pointer position
      falls in. */
  function ResolveIndex(angle: real, pointerOffset: real): (idx: int)
    ensures 0 <= idx < NSegments
  {
    SegmentQuotient(PointerOnWheel(angle, pointerOffset)) % NSegments
  }

  /** The resolved segment is the one whose arc holds the biased pointer
      position, read modulo one turn; when the bias pushes it past a full turn
      it is segment 0, the one just after the seam. */
  lemma ResolveIndexSegment(angle: real, pointerOffset: real)
    ensures var idx, p := ResolveIndex(angle, pointerOffset),
                          NormalizeAngle(PointerOnWheel(angle, pointerOffset) + Epsilon);
            idx as real * SegmentAngle <= p < (idx + 1) as real * SegmentAngle
    ensures PointerOnWheel(angle, pointerOffset) + Epsilon >= TwoPi ==> ResolveIndex(angle, pointerOffset) == 0
  {
    var raw := PointerOnWheel(angle, pointerOffset);
    var b := raw + Epsilon;
    var q := SegmentQuotient(raw);
    assert q as real <= b / SegmentAngle < q as real + 1.0;
    assert q as real * SegmentAngle <= b < (q + 1) as real * SegmentAngle;
    if b < TwoPi {
      NormalizeInTurn(b);
      assert 0 <= q < NSegments;
    } else {
      NormalizeAngleUnique(b, b - TwoPi, 1);
      assert b / SegmentAngle >= 8.0;
      assert b / SegmentAngle < 9.0;
      assert q == NSegments;
    }
  }

  /** The final `% N_SEGMENTS` is needed: for some angles the quotient before
      it is N_SEGMENTS, one past the last index. */
  lemma QuotientReachesSegmentCount()
    ensures var a := PointerBase - TwoPi + Epsilon / 2.0;
            SegmentQuotient(PointerOnWheel(a, 0.0)) == NSegments && ResolveIndex(a, 0.0) == 0
  {
    var a := PointerBase - TwoPi + Epsilon / 2.0;
    NormalizeInTurn(TwoPi - Epsilon / 2.0);
    assert PointerOnWheel(a, 0.0) == TwoPi - Epsilon / 2.0;
  }

  /** Whole turns of the wheel or of the pointer offset do not change the result. */
  lemma ResolveIndexPeriodic(angle: real, pointerOffset: real, k: int, j: int)
    ensures ResolveIndex(angle + k as real * TwoPi, pointerOffset + j as real * TwoPi)
         == ResolveIndex(angle, pointerOffset)
  {
    var x := PointerBase + pointerOffset - angle;
    assert PointerBase + (pointerOffset + j as real * TwoPi) - (angle + k as real * TwoPi)
        == x + (j - k) as real * TwoPi;
    NormalizeAddTurns(x, j - k);
  }

  /** Adding a whole number to a real adds it to its floor. */
  lemma FloorAddInt(y: real, n: int)
    ensures (y + n as real).Floor == y.Floor + n
  {
  }

  /** Shifting a quotient by whole turns of segments does not change its index. */
  lemma ModShift(q: int, k: int)
    ensures (q + 1 - NSegments * k) % NSegments == (q % NSegments + 1) % NSegments
  {
    var r := q % NSegments;
    assert q == NSegments * (q / NSegments) + r;
    assert q + 1 - NSegments * k == NSegments * (q / NSegments - k) + (r + 1);
    if r + 1 < NSegments {
      assert (q + 1 - NSegments * k) % NSegments == r + 1;
    } else {
      assert q + 1 - NSegments * k == NSegments * (q / NSegments - k + 1);
    }
  }

  /** Moving the pointer by one segment width moves the pointer's position on
      the wheel by the same amount, read modulo one turn. */
  lemma PointerOnWheelShift(angle: real, pointerOffset: real)
    ensures var raw, raw' := PointerOnWheel(angle, pointerOffset),
                            PointerOnWheel(angle, pointerOffset + SegmentAngle);
            raw' == raw + SegmentAngle - (if raw + SegmentAngle < TwoPi then 0.0 else TwoPi)
  {
    var raw := PointerOnWheel(angle, pointerOffset);
    var x := PointerBase + pointerOffset - angle;
    assert PointerBase + (pointerOffset + SegmentAngle) - angle == x + SegmentAngle;
    NormalizeThenAdd(x, SegmentAngle);
    if raw + SegmentAngle < TwoPi {
      NormalizeInTurn(raw + SegmentAngle);
    } else {
      NormalizeAngleUnique(raw + SegmentAngle, raw + SegmentAngle - TwoPi, 1);
    }
  }

  /** The index follows the pointer offset: moving the pointer forward by one
      segment width moves the result to the next segment, wrapping after the last. */
  lemma PointerOffsetShiftsIndex(angle: real, pointerOffset: real)
    ensures ResolveIndex(angle, pointerOffset + SegmentAngle)
         == (ResolveIndex(angle, pointerOffset) + 1) % NSegments
  {
    var raw := PointerOnWheel(angle, pointerOffset);
    var raw' := PointerOnWheel(angle, pointerOffset + SegmentAngle);
    PointerOnWheelShift(angle, pointerOffset);
    var k := if raw + SegmentAngle < TwoPi then 0 else 1;
    var y := (raw + Epsilon) / SegmentAngle;
    assert (raw' + Epsilon) / SegmentAngle == y + (1 - NSegments * k) as real;
    FloorAddInt(y, 1 - NSegments * k);
    assert SegmentQuotient(raw') == SegmentQuotient(raw) + 1 - NSegments * k;
    ModShift(SegmentQuotient(raw), k);
  }

  /** With the wheel at 0 and no pointer offset the pointer sits at 3π/2 on
      the wheel, segment 6. */
  lemma WorkedExample()
    ensures PointerOnWheel(0.0, 0.0) == 3.0 * Pi / 2.0
    ensures ResolveIndex(0.0, 0.0) == 6
    ensures SegmentLabels()[ResolveIndex(0.0, 0.0)] == "Dulce"
  {
    NormalizeAngleUnique(PointerBase, 3.0 * Pi / 2.0, -1);
  }
}
