/**
 * Input handling of the tunnel game (tunneltilt/events.js).
 *
 * The script's globals (`useMouse`, `mouseDown`, `mouseStart`, `mouseX`,
 * `currentRotationSpeed`) are the fields of one `Input` object; the global
 * `ball` and `cylinder` the handlers update are passed in. Browser events are
 * reduced to the numbers the handlers read: `event.clientX`, the elapsed time,
 * and the accelerometer's reading `getAccelX()`.
 */
module Events {
  import Geometry

  /** `MOUSE_SENSITIVITY`: speed gained per pixel dragged. */
  const MouseSensitivity: real := 0.008
  /** `ACCELEROMETER_SENSITIVITY`: speed per unit of sideways tilt. */
  const AccelerometerSensitivity: real := 8.0
  /** `DECELERATION`: speed lost per second once the pointer is released. */
  const Deceleration: real := 2.0
  /** `BALLGLOW_OFFSET_FACTOR`: glow displacement per unit of speed. */
  const BallGlowOffsetFactor: real := 0.075

  function Min(a: real, b: real): real
  {
    if a <= b then a else b
  }

  function Max(a: real, b: real): real
  {
    if a >= b then a else b
  }

  function Abs(x: real): real
  {
    if x < 0.0 then -x else x
  }

  // ------------------------------------------------------------------ clamp

  /** `clamp(val, min, max)`: `Math.max(min, Math.min(max, val))`. */
  function Clamp(val: real, min: real, max: real): (r: real)
    ensures min <= max ==> min <= r <= max
    ensures min <= val <= max ==> r == val
  {
    Max(min, Min(max, val))
  }

  /** With `min <= max` the clamped value lies in `[min, max]`. */
  lemma ClampInRange(val: real, min: real, max: real)
    requires min <= max
    ensures min <= Clamp(val, min, max) <= max
  {
  }

  /** A value already inside `[min, max]` is returned unchanged. */
  lemma ClampFixes(val: real, min: real, max: real)
    requires min <= val <= max
    ensures Clamp(val, min, max) == val
  {
  }

  /** The clamped value is the point of `[min, max]` nearest to `val`. */
  lemma ClampNearest(val: real, min: real, max: real, y: real)
    requires min <= y <= max
    ensures Abs(Clamp(val, min, max) - val) <= Abs(y - val)
  {
  }

  /** Clamping twice is clamping once. */
  lemma ClampIdempotent(val: real, min: real, max: real)
    requires min <= max
    ensures Clamp(Clamp(val, min, max), min, max) == Clamp(val, min, max)
  {
    ClampInRange(val, min, max);
    ClampFixes(Clamp(val, min, max), min, max);
  }

  /** With the bounds the wrong way round, `Math.max` has the last word: the result is `min`. */
  lemma ClampInverted(val: real, min: real, max: real)
    requires max < min
    ensures Clamp(val, min, max) == min
  {
  }

  // ---------------------------------------------------------- speed updates

  /** The speed while the pointer is held: the speed at the press plus the drag, clamped to the ball's limit. */
  function HeldSpeed(current: real, start: real, x: real, maxSpeed: real): real
  {
    Clamp(current + MouseSensitivity * (start - x), -maxSpeed, maxSpeed)
  }

  /** The speed under the accelerometer: the tilt, scaled and clamped to the ball's limit. */
  function TiltSpeed(accelX: real, maxSpeed: real): real
  {
    Clamp(AccelerometerSensitivity * accelX, -maxSpeed, maxSpeed)
  }

  /** The speed after `elapsed` seconds released: toward 0 by `DECELERATION * elapsed`, stopping at 0. */
  function Decelerate(speed: real, elapsed: real): real
  {
    if speed > 0.0 then Max(0.0, speed - Deceleration * elapsed)
    else if speed < 0.0 then Min(0.0, speed + Deceleration * elapsed)
    else speed
  }

  /**
   * Released, the speed's magnitude drops by `DECELERATION * elapsed` down to 0
   * and no further: it never grows and never changes sign.
   */
  lemma DecelerateTowardZero(speed: real, elapsed: real)
    requires elapsed >= 0.0
    ensures Abs(Decelerate(speed, elapsed)) == Max(0.0, Abs(speed) - Deceleration * elapsed)
    ensures Abs(Decelerate(speed, elapsed)) <= Abs(speed)
    ensures speed >= 0.0 ==> Decelerate(speed, elapsed) >= 0.0
    ensures speed <= 0.0 ==> Decelerate(speed, elapsed) <= 0.0
  {
  }

  /** The ball comes to rest once `elapsed` covers the speed: `|speed| <= DECELERATION * elapsed`. */
  lemma DecelerateStops(speed: real, elapsed: real)
    requires Abs(speed) <= Deceleration * elapsed
    ensures Decelerate(speed, elapsed) == 0.0
  {
  }

  /** Two releases in a row decelerate like one over the summed time. */
  lemma DecelerateAdds(speed: real, e1: real, e2: real)
    requires e1 >= 0.0 && e2 >= 0.0
    ensures Decelerate(Decelerate(speed, e1), e2) == Decelerate(speed, e1 + e2)
  {
  }

  // ------------------------------------------------------------------ state

  /** The handlers' globals. */
  class Input {
    /** Mouse or touch input, unless the accelerometer was set up. */
    var useMouse: bool
    var mouseDown: bool
    var mouseStart: real
    var mouseX: real
    /** The ball's speed when the pointer went down. */
    var currentRotationSpeed: real

    /** The initial values of the globals. */
    constructor ()
      ensures useMouse && !mouseDown
      ensures mouseStart == 0.0 && mouseX == 0.0 && currentRotationSpeed == 0.0
    {
      useMouse := true;
      mouseDown := false;
      mouseStart := 0.0;
      mouseX := 0.0;
      currentRotationSpeed := 0.0;
    }

    /** `setupAccelerometerIfAvailable`: the accelerometer replaces the pointer only in a PlayBook running WebWorks. */
    method SetupAccelerometer(isPlayBook: bool, hasWebWorks: bool)
      modifies this
      ensures useMouse == (old(useMouse) && !(isPlayBook && hasWebWorks))
      ensures mouseDown == old(mouseDown) && mouseStart == old(mouseStart) && mouseX == old(mouseX)
      ensures currentRotationSpeed == old(currentRotationSpeed)
    {
      if isPlayBook {
        if hasWebWorks {
          useMouse := false;
        }
      }
    }

    /** `handleMouseDown`: remember the ball's speed and where the drag starts. */
    method HandleMouseDown(ball: Geometry.Ball, clientX: real)
      modifies this
      ensures currentRotationSpeed == ball.rotationSpeed
      ensures mouseDown && mouseStart == clientX && mouseX == clientX
      ensures useMouse == old(useMouse)
    {
      currentRotationSpeed := ball.rotationSpeed;
      mouseDown := true;
      mouseStart := clientX;
      mouseX := clientX;
    }

    /** `handleMouseUp`: the drag ends and both positions return to 0. */
    method HandleMouseUp()
      modifies this
      ensures !mouseDown && mouseStart == 0.0 && mouseX == 0.0
      ensures useMouse == old(useMouse) && currentRotationSpeed == old(currentRotationSpeed)
    {
      mouseStart := 0.0;
      mouseX := 0.0;
      mouseDown := false;
    }

    /** `handleMouseMove`: the pointer position is followed only during a drag. */
    method HandleMouseMove(clientX: real)
      modifies this
      ensures mouseX == if old(mouseDown) then clientX else old(mouseX)
      ensures useMouse == old(useMouse) && mouseDown == old(mouseDown) && mouseStart == old(mouseStart)
      ensures currentRotationSpeed == old(currentRotationSpeed)
    {
      if mouseDown {
        mouseX := clientX;
      }
    }

    /** `resetEventHandler`: the remembered speed, and under pointer input both positions, back to 0. */
    method ResetEventHandler()
      modifies this
      ensures currentRotationSpeed == 0.0
      ensures useMouse == old(useMouse) && mouseDown == old(mouseDown)
      ensures mouseX == (if useMouse then 0.0 else old(mouseX))
      ensures mouseStart == (if useMouse then 0.0 else old(mouseStart))
    {
      currentRotationSpeed := 0.0;
      if useMouse {
        mouseX := 0.0;
        mouseStart := 0.0;
      }
    }

    /** The ball's speed after one `handleInput`, from its speed before. */
    function NextSpeed(speed: real, maxSpeed: real, elapsed: real, accelX: real): real
      reads this
    {
      if useMouse then
        if mouseDown then HeldSpeed(currentRotationSpeed, mouseStart, mouseX, maxSpeed)
        else Decelerate(speed, elapsed)
      else TiltSpeed(accelX, maxSpeed)
    }

    /**
     * `handleInput`: the new speed, then the cylinder turned by the speed times
     * the elapsed time, and the glow displaced in proportion to the speed.
     */
    method HandleInput(elapsed: real, accelX: real, ball: Geometry.Ball, cylinder: Geometry.Cylinder)
      modifies ball, cylinder
      ensures ball.rotationSpeed == NextSpeed(old(ball.rotationSpeed), ball.maxRotationSpeed, elapsed, accelX)
      ensures cylinder.angle == old(cylinder.angle) + ball.rotationSpeed * elapsed
      ensures ball.glowOffset == BallGlowOffsetFactor * ball.rotationSpeed
      ensures ball.angle == old(ball.angle)
      ensures cylinder.offset == old(cylinder.offset) && cylinder.walls == old(cylinder.walls)
      ensures cylinder.lastWallPos == old(cylinder.lastWallPos)
      ensures cylinder.speed == old(cylinder.speed) && cylinder.maxSpeed == old(cylinder.maxSpeed)
    {
      if useMouse {
        if mouseDown {
          ball.rotationSpeed := Clamp(currentRotationSpeed + MouseSensitivity * (mouseStart - mouseX),
                                      -ball.maxRotationSpeed, ball.maxRotationSpeed);
        } else {
          if ball.rotationSpeed > 0.0 {
            ball.rotationSpeed := Max(0.0, ball.rotationSpeed - Deceleration * elapsed);
          } else if ball.rotationSpeed < 0.0 {
            ball.rotationSpeed := Min(0.0, ball.rotationSpeed + Deceleration * elapsed);
          }
        }
      } else {
        ball.rotationSpeed := Clamp(AccelerometerSensitivity * accelX, -ball.maxRotationSpeed, ball.maxRotationSpeed);
      }
      cylinder.angle := cylinder.angle + ball.rotationSpeed * elapsed;
      ball.glowOffset := BallGlowOffsetFactor * ball.rotationSpeed;
    }
  }

  /**
   * The speed limit is kept: a speed within `[-maxSpeed, maxSpeed]` stays there
   * after `handleInput`, whichever input drives it, for a non-negative elapsed time.
   */
  lemma NextSpeedBounded(input: Input, speed: real, maxSpeed: real, elapsed: real, accelX: real)
    requires 0.0 <= maxSpeed && Abs(speed) <= maxSpeed && elapsed >= 0.0
    ensures Abs(input.NextSpeed(speed, maxSpeed, elapsed, accelX)) <= maxSpeed
  {
    if input.useMouse && !input.mouseDown {
      DecelerateTowardZero(speed, elapsed);
    } else if input.useMouse {
      ClampInRange(input.currentRotationSpeed + MouseSensitivity * (input.mouseStart - input.mouseX), -maxSpeed, maxSpeed);
    } else {
      ClampInRange(AccelerometerSensitivity * accelX, -maxSpeed, maxSpeed);
    }
  }

  /**
   * A press followed by no drag gives back the speed at the press (within the
   * limit): `mouseStart == mouseX` adds nothing.
   */
  lemma HeldWithoutDrag(current: real, x: real, maxSpeed: real)
    requires Abs(current) <= maxSpeed
    ensures HeldSpeed(current, x, x, maxSpeed) == current
  {
    ClampFixes(current, -maxSpeed, maxSpeed);
  }

  /** Dragging left (`mouseX` below `mouseStart`) never lowers the held speed; dragging right never raises it. */
  lemma HeldSpeedMonotone(current: real, start: real, x1: real, x2: real, maxSpeed: real)
    requires x1 <= x2
    ensures HeldSpeed(current, start, x2, maxSpeed) <= HeldSpeed(current, start, x1, maxSpeed)
  {
  }
}
