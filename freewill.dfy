/**
 * Freewill, the multitouch control layer of PeaksAndValleys (js/Freewill.js):
 * a list of controls (joysticks and buttons), each with a trigger rectangle
 * and the identifier of the touch that owns it, and three container listeners
 * that route every changed touch to the controls it belongs to.
 *
 * A control is a value; the `Freewill` object holds the list and replaces a
 * control when a listener updates it. `Math.sqrt` and `Math.atan2` are
 * parameters; the properties proved about them take the square root and the
 * angle's range as hypotheses. Canvas drawing, image loading (an added control is appended at once)
 * and the user hooks `onTouchStart/Move/End` are not part of this model.
 */
module Freewill {
  import Utils

  datatype Option<T> = None | Some(value: T)

  /** `Math.PI`. */
  const Pi: real := 3.141592653589793
  /** How far the pad may move from the centre of a joystick's base, in pixels. */
  const MaxRadius: real := 40.0
  /** The `identifier` of a control no touch owns. */
  const Unowned: int := -1

  /** A joystick's `velocity`: the pad's offset from the centre of the base. */
  datatype Velocity = Velocity(dx: real, dy: real)

  /**
   * A control. Both kinds keep the owning touch's `identifier`, the `trigger`
   * rectangle, the two opacity limits, the current `style.opacity` and the
   * `style.left/top` position. A joystick also keeps whether it is `fixed`, its
   * base image's size, the centre `x, y` it measures from, and its `velocity`
   * and `direction`.
   */
  datatype Control =
    | Joystick(identifier: int, trigger: Utils.Rect, opacLow: real, opacHigh: real, opacity: real,
               left: real, top: real, fixed: bool, baseWidth: real, baseHeight: real,
               x: real, y: real, velocity: Velocity, direction: int)
    | Button(identifier: int, trigger: Utils.Rect, opacLow: real, opacHigh: real, opacity: real,
             left: real, top: real)

  /** One entry of `event.changedTouches`. */
  datatype Touch = Touch(identifier: int, clientX: real, clientY: real)

  // --------------------------------------------------------------- contains

  /** `Freewill.prototype.contains`: four early-return comparisons; the edges are inside. */
  function Contains(area: Utils.Rect, point: Utils.Point): (r: bool)
    ensures r <==> area.x <= point.x <= area.x + area.width && area.y <= point.y <= area.y + area.height
  {
    if point.x < area.x then false
    else if point.x > area.x + area.width then false
    else if point.y < area.y then false
    else if point.y > area.y + area.height then false
    else true
  }

  /** Freewill's `contains` is the closed-rectangle test, the same function as `Utils.contains`. */
  lemma ContainsIsUtilsContains(area: Utils.Rect, point: Utils.Point)
    ensures Contains(area, point) <==> area.x <= point.x <= area.x + area.width
                                       && area.y <= point.y <= area.y + area.height
    ensures Contains(area, point) == Utils.Contains(area, point)
  {
  }

  // --------------------------------------------------------- adding controls

  /**
   * The joystick `addJoystick` appends once its images have loaded: no owner,
   * no velocity, direction 0, placed at `pos` (default `[0, 0]`), triggered by
   * `trigger` (default the base image's rectangle at `pos`), opacity limits
   * defaulting to 1 and the low one showing.
   */
  function NewJoystick(pos: Option<Utils.Point>, trigger: Option<Utils.Rect>, opacLow: Option<real>,
                       opacHigh: Option<real>, fixed: bool, baseWidth: real, baseHeight: real): Control
  {
    var p := if pos.Some? then pos.value else Utils.Point(0.0, 0.0);
    var t := if trigger.Some? then trigger.value else Utils.Rect(p.x, p.y, baseWidth, baseHeight);
    var low := if opacLow.Some? then opacLow.value else 1.0;
    var high := if opacHigh.Some? then opacHigh.value else 1.0;
    Joystick(Unowned, t, low, high, low, p.x, p.y, fixed, baseWidth, baseHeight, 0.0, 0.0, Velocity(0.0, 0.0), 0)
  }

  /** The button `addButton` appends once its image has loaded; `pos` is required. */
  function NewButton(pos: Utils.Point, trigger: Option<Utils.Rect>, opacLow: Option<real>,
                     opacHigh: Option<real>, width: real, height: real): Control
  {
    var t := if trigger.Some? then trigger.value else Utils.Rect(pos.x, pos.y, width, height);
    var low := if opacLow.Some? then opacLow.value else 1.0;
    var high := if opacHigh.Some? then opacHigh.value else 1.0;
    Button(Unowned, t, low, high, low, pos.x, pos.y)
  }

  /** A new joystick is owned by no touch, is at rest, and takes the defaults for what it was not given. */
  lemma NewJoystickDefaults(pos: Option<Utils.Point>, trigger: Option<Utils.Rect>, opacLow: Option<real>,
                            opacHigh: Option<real>, fixed: bool, baseWidth: real, baseHeight: real)
    ensures var c := NewJoystick(pos, trigger, opacLow, opacHigh, fixed, baseWidth, baseHeight);
      c.Joystick? && c.identifier == -1 && c.velocity == Velocity(0.0, 0.0) && c.direction == 0
      && c.opacity == c.opacLow
      && (opacLow.None? ==> c.opacLow == 1.0) && (opacHigh.None? ==> c.opacHigh == 1.0)
      && (pos.None? ==> c.left == 0.0 && c.top == 0.0)
      && (trigger.None? ==> c.trigger == Utils.Rect(c.left, c.top, baseWidth, baseHeight))
      && (trigger.Some? ==> c.trigger == trigger.value)
  {
  }

  /** A new button is owned by no touch and triggered by its image's rectangle unless told otherwise. */
  lemma NewButtonDefaults(pos: Utils.Point, trigger: Option<Utils.Rect>, opacLow: Option<real>,
                          opacHigh: Option<real>, width: real, height: real)
    ensures var c := NewButton(pos, trigger, opacLow, opacHigh, width, height);
      c.Button? && c.identifier == -1 && c.opacity == c.opacLow
      && (opacLow.None? ==> c.opacLow == 1.0) && (opacHigh.None? ==> c.opacHigh == 1.0)
      && (trigger.None? ==> c.trigger == Utils.Rect(pos.x, pos.y, width, height))
  {
  }

  // ---------------------------------------------------------- joystick moves

  function Min(a: real, b: real): real
  {
    if a <= b then a else b
  }

  /** `d * _r / r`, with the `isNaN` guard: at `r == 0` the quotient is `0 / 0`, replaced by 0. */
  function Shorten(d: real, shortened: real, r: real): real
  {
    if r == 0.0 then 0.0 else d * shortened / r
  }

  /** JavaScript's `%` on integers: the remainder has the sign of the dividend. */
  function JsRem(k: int, m: int): int
    requires m > 0
  {
    if k >= 0 then k % m else -((-k) % m)
  }

  /** The eight-way `direction` of a joystick whose pad sits at angle `a` (from `atan2(dy, dx)`). */
  function Direction(a: real): int
  {
    JsRem((4.0 + (-a + Pi / 8.0) * 4.0 / Pi).Floor, 8)
  }

  /** The pad's offset for a touch `(dx, dy)` from the centre at distance `r`: shortened to at most `MaxRadius`. */
  function Pad(dx: real, dy: real, r: real): Velocity
  {
    var shortened := Min(r, MaxRadius);
    Velocity(Shorten(dx, shortened, r), Shorten(dy, shortened, r))
  }

  /** The pad's offset for a touch at `point`, measured from the joystick's centre. */
  function PadVelocity(c: Control, point: Utils.Point, sqrt: real -> real): Velocity
    requires c.Joystick?
  {
    var dx := point.x - c.x;
    var dy := point.y - c.y;
    Pad(dx, dy, sqrt(dx * dx + dy * dy))
  }

  /** A joystick's `_onTouchMove`: the new velocity, and the direction it points in. Buttons do nothing. */
  function TouchMove(c: Control, point: Utils.Point, sqrt: real -> real, atan2: (real, real) -> real): (r: Control)
    ensures c.Button? ==> r == c
    ensures r.Joystick? == c.Joystick? && r.identifier == c.identifier && r.trigger == c.trigger
    ensures r.opacity == c.opacity && r.left == c.left && r.top == c.top
  {
    if c.Button? then c
    else
      var v := PadVelocity(c, point, sqrt);
      c.(velocity := v, direction := Direction(atan2(v.dy, v.dx)))
  }

  /**
   * `_onTouchStart`: the control shows at full opacity. A free joystick jumps to
   * the touch, centred on it; a fixed one measures from the centre of where it
   * stands and handles the touch as a move.
   */
  function TouchStart(c: Control, point: Utils.Point, sqrt: real -> real, atan2: (real, real) -> real): (r: Control)
    ensures r.Joystick? == c.Joystick? && r.identifier == c.identifier && r.trigger == c.trigger
    ensures r.opacity == c.opacHigh
    ensures c.Joystick? && !c.fixed ==> r.x == point.x && r.y == point.y && r.velocity == c.velocity
                                         && r.left + c.baseWidth / 2.0 == point.x && r.top + c.baseHeight / 2.0 == point.y
  {
    if c.Button? then Button(c.identifier, c.trigger, c.opacLow, c.opacHigh, c.opacHigh, c.left, c.top)
    else if !c.fixed then
      c.(opacity := c.opacHigh, left := point.x - c.baseWidth / 2.0, top := point.y - c.baseHeight / 2.0,
         x := point.x, y := point.y)
    else
      TouchMove(c.(opacity := c.opacHigh, x := c.left + c.baseWidth / 2.0, y := c.top + c.baseHeight / 2.0),
                point, sqrt, atan2)
  }

  /** `_onTouchEnd`: a joystick comes to rest; both kinds fade to the low opacity. */
  function TouchEnd(c: Control): (r: Control)
    ensures r.Joystick? == c.Joystick? && r.identifier == c.identifier && r.trigger == c.trigger
    ensures r.opacity == c.opacLow
    ensures c.Joystick? ==> r.velocity == Velocity(0.0, 0.0) && r.x == c.x && r.y == c.y
  {
    if c.Button? then Button(c.identifier, c.trigger, c.opacLow, c.opacHigh, c.opacLow, c.left, c.top)
    else c.(velocity := Velocity(0.0, 0.0), opacity := c.opacLow)
  }

  lemma ShortenedLength(dx: real, dy: real, r: real, s: real)
    requires r > 0.0 && r * r == dx * dx + dy * dy
    ensures Shorten(dx, s, r) * Shorten(dx, s, r) + Shorten(dy, s, r) * Shorten(dy, s, r) == s * s
  {
    var k := s / r;
    assert Shorten(dx, s, r) == dx * k;
    assert Shorten(dy, s, r) == dy * k;
    calc {
      (dx * k) * (dx * k) + (dy * k) * (dy * k);
      (dx * dx + dy * dy) * (k * k);
      (r * r) * (k * k);
      (r * k) * (r * k);
    }
    assert r * k == s;
  }

  lemma ShortenedParallel(dx: real, dy: real, r: real, s: real)
    requires r > 0.0 && s >= 0.0
    ensures Shorten(dx, s, r) * dy == Shorten(dy, s, r) * dx
    ensures Shorten(dx, s, r) * dx >= 0.0 && Shorten(dy, s, r) * dy >= 0.0
  {
    var k := s / r;
    assert k >= 0.0;
    assert Shorten(dx, s, r) == dx * k;
    assert Shorten(dy, s, r) == dy * k;
    assert (dx * k) * dy == (dy * k) * dx;
    assert (dx * k) * dx == k * (dx * dx);
    assert (dy * k) * dy == k * (dy * dy);
  }

  /**
   * For a touch `(dx, dy)` from the centre at distance `r` (the square root of
   * `dx² + dy²`), the pad's offset has length `min(r, 40)` and points the same
   * way as the touch; a touch at the centre gives no velocity.
   */
  lemma PadLength(dx: real, dy: real, r: real)
    requires r >= 0.0 && r * r == dx * dx + dy * dy
    ensures var v := Pad(dx, dy, r);
      v.dx * v.dx + v.dy * v.dy == Min(r, MaxRadius) * Min(r, MaxRadius)
      && v.dx * dy == v.dy * dx && v.dx * dx >= 0.0 && v.dy * dy >= 0.0
  {
    var s := Min(r, MaxRadius);
    if r > 0.0 {
      ShortenedLength(dx, dy, r, s);
      ShortenedParallel(dx, dy, r, s);
    }
  }

  /** With `atan2` in `(-π, π]`, the direction is one of the eight compass points 0..7. */
  lemma DirectionInRange(a: real)
    requires -Pi < a <= Pi
    ensures 0 <= Direction(a) < 8
  {
    var q := 4.0 + (-a + Pi / 8.0) * 4.0 / Pi;
    assert 0.5 <= q < 8.5;
    assert 0 <= q.Floor;
  }

  /** West (0) covers both ends of the angle range: the sector beyond 7π/8 either way. */
  lemma DirectionWest(a: real)
    requires -Pi < a <= Pi
    ensures Direction(a) == 0 <==> a > 7.0 * Pi / 8.0 || a <= -7.0 * Pi / 8.0
  {
    var q := 4.0 + (-a + Pi / 8.0) * 4.0 / Pi;
    assert 0.5 <= q < 8.5;
    if a > 7.0 * Pi / 8.0 {
      assert q < 1.0;
    } else if a <= -7.0 * Pi / 8.0 {
      assert q >= 8.0;
    } else {
      assert 1.0 <= q < 8.0;
    }
  }

  /** A touch right at the centre leaves the pad at rest, pointing East (4). */
  lemma TouchAtCentre(c: Control, sqrt: real -> real, atan2: (real, real) -> real)
    requires c.Joystick? && sqrt(0.0) == 0.0 && atan2(0.0, 0.0) == 0.0
    ensures TouchMove(c, Utils.Point(c.x, c.y), sqrt, atan2).velocity == Velocity(0.0, 0.0)
    ensures TouchMove(c, Utils.Point(c.x, c.y), sqrt, atan2).direction == 4
  {
    assert (4.0 + (0.0 + Pi / 8.0) * 4.0 / Pi).Floor == 4;
  }

  /** A touch end always stops a joystick. */
  lemma TouchEndStops(c: Control)
    requires c.Joystick?
    ensures TouchEnd(c).velocity == Velocity(0.0, 0.0) && TouchEnd(c).opacity == c.opacLow
    ensures TouchEnd(c).identifier == c.identifier
  {
  }

  // ----------------------------------------------------------------- routing

  /** Which of the three container listeners is running. */
  datatype Phase = Start | Move | End

  /**
   * What one listener does to one control for one touch: on touch start, a
   * control whose trigger contains the touch takes its identifier and handles
   * it; on move and end, a control owned by the touch handles it, and on end is
   * then owned by nothing.
   */
  function Route(c: Control, t: Touch, phase: Phase, sqrt: real -> real, atan2: (real, real) -> real): Control
  {
    var point := Utils.Point(t.clientX, t.clientY);
    match phase
    case Start =>
      if Contains(c.trigger, point) then TouchStart(c.(identifier := t.identifier), point, sqrt, atan2) else c
    case Move =>
      if t.identifier == c.identifier then TouchMove(c, point, sqrt, atan2) else c
    case End =>
      if t.identifier == c.identifier then TouchEnd(c).(identifier := Unowned) else c
  }

  /** The controls after a listener has handled `touches` in order. */
  function RouteAll(controls: seq<Control>, touches: seq<Touch>, phase: Phase,
                    sqrt: real -> real, atan2: (real, real) -> real): (r: seq<Control>)
    ensures |r| == |controls|
  {
    if touches == [] then controls
    else
      var before := RouteAll(controls, touches[..|touches| - 1], phase, sqrt, atan2);
      var t := touches[|touches| - 1];
      seq(|before|, m requires 0 <= m < |before| => Route(before[m], t, phase, sqrt, atan2))
  }

  class Freewill {
    /** Whether a container was given; without one the constructor only logs. */
    const hasContainer: bool
    var controls: seq<Control>

    /** `new Freewill(params)`: an empty control list. */
    constructor (hasContainer: bool)
      ensures this.hasContainer == hasContainer && controls == []
    {
      this.hasContainer := hasContainer;
      controls := [];
    }

    /**
     * `addJoystick`: with all of `imageBase`, `imagePad` and `fixed` given (and a
     * container to add to), one new joystick is appended; otherwise nothing.
     */
    method AddJoystick(imageBase: Option<string>, imagePad: Option<string>, fixed: Option<bool>,
                       pos: Option<Utils.Point>, trigger: Option<Utils.Rect>,
                       opacLow: Option<real>, opacHigh: Option<real>, baseWidth: real, baseHeight: real)
      modifies this
      ensures controls == if hasContainer && imageBase.Some? && imagePad.Some? && fixed.Some?
                          then old(controls) + [NewJoystick(pos, trigger, opacLow, opacHigh, fixed.value, baseWidth, baseHeight)]
                          else old(controls)
    {
      if imageBase.None? || imagePad.None? || fixed.None? || !hasContainer {
        return;
      }
      var joystick := NewJoystick(pos, trigger, opacLow, opacHigh, fixed.value, baseWidth, baseHeight);
      controls := controls + [joystick];
    }

    /** `addButton`: with `image` and `pos` given (and a container), one new button is appended; otherwise nothing. */
    method AddButton(image: Option<string>, pos: Option<Utils.Point>, trigger: Option<Utils.Rect>,
                     opacLow: Option<real>, opacHigh: Option<real>, width: real, height: real)
      modifies this
      ensures controls == if hasContainer && image.Some? && pos.Some?
                          then old(controls) + [NewButton(pos.value, trigger, opacLow, opacHigh, width, height)]
                          else old(controls)
    {
      if image.None? || pos.None? || !hasContainer {
        return;
      }
      var button := NewButton(pos.value, trigger, opacLow, opacHigh, width, height);
      controls := controls + [button];
    }

    /** The body shared by the three listeners: for each changed touch, every control in turn. */
    method Listen(touches: seq<Touch>, phase: Phase, sqrt: real -> real, atan2: (real, real) -> real)
      requires hasContainer
      modifies this
      ensures controls == RouteAll(old(controls), touches, phase, sqrt, atan2)
    {
      var n := 0;
      while n < |touches|
        invariant 0 <= n <= |touches|
        invariant controls == RouteAll(old(controls), touches[..n], phase, sqrt, atan2)
      {
        var touch := touches[n];
        ghost var before := controls;
        var m := 0;
        while m < |controls|
          invariant 0 <= m <= |controls| == |before|
          invariant forall j :: 0 <= j < m ==> controls[j] == Route(before[j], touch, phase, sqrt, atan2)
          invariant forall j :: m <= j < |controls| ==> controls[j] == before[j]
        {
          var control := controls[m];
          var point := Utils.Point(touch.clientX, touch.clientY);
          match phase {
            case Start =>
              if Contains(control.trigger, point) == true {
                control := control.(identifier := touch.identifier);
                control := TouchStart(control, point, sqrt, atan2);
              }
            case Move =>
              if touch.identifier == control.identifier {
                control := TouchMove(control, point, sqrt, atan2);
              }
            case End =>
              if touch.identifier == control.identifier {
                control := TouchEnd(control);
                control := control.(identifier := Unowned);
              }
          }
          controls := controls[m := control];
          m := m + 1;
        }
        assert touches[..n + 1][..n] == touches[..n];
        n := n + 1;
      }
      assert touches[..n] == touches;
    }
  }

  /**
   * On touch start, every control whose trigger contains the touch takes its
   * identifier, overlapping controls alike; every other control is untouched.
   */
  lemma StartClaimsContaining(controls: seq<Control>, t: Touch, sqrt: real -> real, atan2: (real, real) -> real, m: nat)
    requires m < |controls|
    ensures var c := RouteAll(controls, [t], Start, sqrt, atan2)[m];
      (Contains(controls[m].trigger, Utils.Point(t.clientX, t.clientY)) ==> c.identifier == t.identifier)
      && (!Contains(controls[m].trigger, Utils.Point(t.clientX, t.clientY)) ==> c == controls[m])
  {
    assert [t][..0] == [];
  }

  /** Moves never change which touch owns which control, however many touches the event carries. */
  lemma {:induction false} MovesKeepOwners(controls: seq<Control>, touches: seq<Touch>,
                                           sqrt: real -> real, atan2: (real, real) -> real, m: nat)
    requires m < |controls|
    ensures RouteAll(controls, touches, Move, sqrt, atan2)[m].identifier == controls[m].identifier
  {
    if touches != [] {
      MovesKeepOwners(controls, touches[..|touches| - 1], sqrt, atan2, m);
    }
  }

  /** Moves reach only the controls the moving touch owns. */
  lemma MoveReachesOnlyOwned(controls: seq<Control>, t: Touch, sqrt: real -> real, atan2: (real, real) -> real, m: nat)
    requires m < |controls| && controls[m].identifier != t.identifier
    ensures RouteAll(controls, [t], Move, sqrt, atan2)[m] == controls[m]
  {
    assert [t][..0] == [];
  }

  /**
   * On touch end, every control the touch owns is released (identifier −1) and,
   * if a joystick, brought to rest; controls owned by other touches keep their
   * owner and state.
   */
  lemma EndReleasesOwned(controls: seq<Control>, t: Touch, sqrt: real -> real, atan2: (real, real) -> real, m: nat)
    requires m < |controls|
    ensures var c := RouteAll(controls, [t], End, sqrt, atan2)[m];
      (controls[m].identifier == t.identifier ==>
         c.identifier == -1 && (c.Joystick? ==> c.velocity == Velocity(0.0, 0.0)))
      && (controls[m].identifier != t.identifier ==> c == controls[m])
  {
    assert [t][..0] == [];
  }
}
