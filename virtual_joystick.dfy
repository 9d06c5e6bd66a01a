/**
 * The two on-screen joysticks of PeaksAndValleys (js/virtualjoystick.js):
 * two touch points, each pressed or not with a base and a stick position, and
 * a `links` table from touch identifiers to the joystick (0 left, 1 right)
 * that identifier drives.
 *
 * A touch point is a value; the joystick object holds the pair of them and the
 * table and replaces an element when a handler updates it. The canvases drawn
 * for the base, the stick and the crosshair, their CSS positions, and the
 * listener registration are DOM work and are not part of this model.
 */
module Joystick {

  datatype Option<T> = None | Some(value: T)

  /** One joystick's state: `_pressed`, `_baseX/_baseY`, `_stickX/_stickY`. */
  datatype TouchPoint = TouchPoint(pressed: bool, baseX: real, baseY: real, stickX: real, stickY: real)

  /** The state the constructor gives each touch point, and `_onUp` restores. */
  const Idle := TouchPoint(false, 0.0, 0.0, 0.0, 0.0)

  /** What a handler does to the touch point it reaches. */
  datatype Gesture = Down(x: real, y: real) | Move(x: real, y: real) | Up

  /** How far the stick is from the base, horizontally and vertically: `deltaX`, `deltaY`. */
  function DeltaX(p: TouchPoint): (r: real)
    ensures p.baseX + r == p.stickX
  {
    p.stickX - p.baseX
  }

  function DeltaY(p: TouchPoint): (r: real)
    ensures p.baseY + r == p.stickY
  {
    p.stickY - p.baseY
  }

  /**
   * The change `_onDown`, `_onMove` and `_onUp` make to one touch point: a press
   * puts base and stick at the finger; a move drags the stick of a pressed point
   * and ignores an unpressed one; a release returns the point to `Idle`.
   */
  function Act(p: TouchPoint, g: Gesture): TouchPoint
  {
    match g
    case Down(x, y) => TouchPoint(true, x, y, x, y)
    case Move(x, y) => if p.pressed then p.(stickX := x, stickY := y) else p
    case Up => Idle
  }

  /**
   * The touch point `touchPoints[links[link]]`, when there is one: a link never
   * written reads `undefined`, and the handler's access to it throws and is
   * caught, changing nothing.
   */
  function Route(links: map<int, nat>, link: int, count: nat): (k: Option<nat>)
    ensures k.Some? ==> k.value < count
  {
    if link in links && links[link] < count then Some(links[link]) else None
  }

  /** The touch points after a handler for `link` performs `g`. */
  function Apply(points: seq<TouchPoint>, links: map<int, nat>, link: int, g: Gesture): (r: seq<TouchPoint>)
    ensures |r| == |points|
  {
    match Route(links, link, |points|)
    case None => points
    case Some(k) => points[k := Act(points[k], g)]
  }

  /** One entry of `event.changedTouches`: its identifier and its coordinates. */
  datatype Touch = Touch(identifier: int, clientX: real, pageX: real, pageY: real)

  /** Which of the three touch listeners is running. */
  datatype Phase = Start | Moving | End

  function GestureOf(t: Touch, phase: Phase): Gesture
  {
    match phase
    case Start => Down(t.pageX, t.pageY)
    case Moving => Move(t.pageX, t.pageY)
    case End => Up
  }

  /** The touch points after the listener's loop has handled `touches` in order. */
  function ApplyAll(points: seq<TouchPoint>, links: map<int, nat>, touches: seq<Touch>, phase: Phase): (r: seq<TouchPoint>)
    ensures |r| == |points|
  {
    if touches == [] then points
    else
      var last := touches[|touches| - 1];
      Apply(ApplyAll(points, links, touches[..|touches| - 1], phase), links, last.identifier, GestureOf(last, phase))
  }

  /** The side of the screen a point is on: joystick 0 left of the middle, joystick 1 otherwise. */
  function Side(clientX: real, innerWidth: real): (side: nat)
    ensures side < 2
    ensures side == 0 <==> clientX < innerWidth / 2.0
  {
    if clientX < innerWidth / 2.0 then 0 else 1
  }

  class VirtualJoystick {
    /** `touchPoints`: always two of them. */
    var touchPoints: seq<TouchPoint>
    /** `links`: the joystick each touch identifier drives. */
    var links: map<int, nat>

    /** Two touch points, and every link names one of them. */
    ghost predicate Valid()
      reads this
    {
      |touchPoints| == 2 && forall id :: id in links ==> links[id] < 2
    }

    /** `new VirtualJoystick()`: both points idle, links `[0, 0, 0]`. */
    constructor ()
      ensures Valid()
      ensures touchPoints == [Idle, Idle]
      ensures links == map[0 := 0, 1 := 0, 2 := 0]
    {
      touchPoints := [Idle, Idle];
      links := map[0 := 0, 1 := 0, 2 := 0];
    }

    /** `_onDown(link, x, y)`. */
    method OnDown(link: int, x: real, y: real)
      modifies this
      ensures touchPoints == Apply(old(touchPoints), links, link, Down(x, y))
      ensures links == old(links)
    {
      var k := Route(links, link, |touchPoints|);
      if k.Some? {
        var p := touchPoints[k.value];
        p := p.(pressed := true, baseX := x, baseY := y);
        p := p.(stickX := x, stickY := y);
        touchPoints := touchPoints[k.value := p];
      }
    }

    /** `_onMove(link, x, y)`. */
    method OnMove(link: int, x: real, y: real)
      modifies this
      ensures touchPoints == Apply(old(touchPoints), links, link, Move(x, y))
      ensures links == old(links)
    {
      var k := Route(links, link, |touchPoints|);
      if k.Some? {
        var p := touchPoints[k.value];
        if p.pressed {
          p := p.(stickX := x, stickY := y);
          touchPoints := touchPoints[k.value := p];
        }
      }
    }

    /** `_onUp(link)`. */
    method OnUp(link: int)
      modifies this
      ensures touchPoints == Apply(old(touchPoints), links, link, Up)
      ensures links == old(links)
    {
      var k := Route(links, link, |touchPoints|);
      if k.Some? {
        var p := touchPoints[k.value];
        p := p.(pressed := false);
        p := p.(baseX := 0.0, baseY := 0.0);
        p := p.(stickX := 0.0, stickY := 0.0);
        touchPoints := touchPoints[k.value := p];
      }
    }

    /**
     * `_onMouseDown`: a press below `innerWidth / 2` (compared with `clientY`, as
     * the source does) is ignored; otherwise link 0 goes to the joystick on the
     * press's side and that joystick is pressed.
     */
    method OnMouseDown(clientX: real, clientY: real, innerWidth: real)
      requires Valid()
      modifies this
      ensures Valid()
      ensures clientY > innerWidth / 2.0 ==> touchPoints == old(touchPoints) && links == old(links)
      ensures clientY <= innerWidth / 2.0 ==>
                links == old(links)[0 := Side(clientX, innerWidth)]
                && touchPoints == Apply(old(touchPoints), links, 0, Down(clientX, clientY))
    {
      if clientY > innerWidth / 2.0 {
        return;
      }
      if clientX < innerWidth / 2.0 {
        links := links[0 := 0];
      } else {
        links := links[0 := 1];
      }
      OnDown(0, clientX, clientY);
    }

    /** `_onMouseMove`: the mouse is always link 0. */
    method OnMouseMove(clientX: real, clientY: real)
      modifies this
      ensures touchPoints == Apply(old(touchPoints), links, 0, Move(clientX, clientY))
      ensures links == old(links)
    {
      OnMove(0, clientX, clientY);
    }

    /** `_onMouseUp`. */
    method OnMouseUp()
      modifies this
      ensures touchPoints == Apply(old(touchPoints), links, 0, Up)
      ensures links == old(links)
    {
      OnUp(0);
    }

    /** The loop shared by the three touch listeners: each changed touch handled in order. */
    method HandleAll(touches: seq<Touch>, phase: Phase)
      modifies this
      ensures touchPoints == ApplyAll(old(touchPoints), links, touches, phase)
      ensures links == old(links)
    {
      var i := 0;
      while i < |touches|
        invariant 0 <= i <= |touches|
        invariant links == old(links)
        invariant touchPoints == ApplyAll(old(touchPoints), links, touches[..i], phase)
      {
        var t := touches[i];
        assert touches[..i + 1][..i] == touches[..i];
        match phase {
          case Start => OnDown(t.identifier, t.pageX, t.pageY);
          case Moving => OnMove(t.identifier, t.pageX, t.pageY);
          case End => OnUp(t.identifier);
        }
        i := i + 1;
      }
      assert touches[..i] == touches;
    }

    /**
     * `_onTouchStart`. The guard reads `event.clientY`, which a touch event does
     * not have (`clientY` is `None`): `undefined > x` is false, so it never
     * returns there. More than two active touches are ignored; so is an event
     * without changed touches, whose `changedTouches[0]` throws. Otherwise the
     * first changed touch is linked to the joystick on its side, and every
     * changed touch presses the joystick its identifier is linked to.
     */
    method OnTouchStart(clientY: Option<real>, activeTouches: nat, changed: seq<Touch>, innerWidth: real)
      requires Valid()
      modifies this
      ensures Valid()
      ensures (clientY.Some? && clientY.value > innerWidth / 2.0) || activeTouches > 2 || changed == [] ==>
                touchPoints == old(touchPoints) && links == old(links)
      ensures !((clientY.Some? && clientY.value > innerWidth / 2.0) || activeTouches > 2 || changed == []) ==>
                links == old(links)[changed[0].identifier := Side(changed[0].clientX, innerWidth)]
                && touchPoints == ApplyAll(old(touchPoints), links, changed, Start)
    {
      if clientY.Some? && clientY.value > innerWidth / 2.0 {
        return;
      }
      if activeTouches > |touchPoints| {
        return;
      }
      if changed == [] {
        return;
      }
      if changed[0].clientX < innerWidth / 2.0 {
        links := links[changed[0].identifier := 0];
      } else {
        links := links[changed[0].identifier := 1];
      }
      HandleAll(changed, Start);
    }

    /** `_onTouchMove`: more than two active touches are ignored; otherwise every changed touch drags its joystick. */
    method OnTouchMove(activeTouches: nat, changed: seq<Touch>)
      requires Valid()
      modifies this
      ensures Valid()
      ensures links == old(links)
      ensures touchPoints == if activeTouches > 2 then old(touchPoints) else ApplyAll(old(touchPoints), links, changed, Moving)
    {
      if activeTouches > |touchPoints| {
        return;
      }
      HandleAll(changed, Moving);
    }

    /** `_onTouchEnd`: more than two active touches are ignored; otherwise every changed touch releases its joystick. */
    method OnTouchEnd(activeTouches: nat, changed: seq<Touch>)
      requires Valid()
      modifies this
      ensures Valid()
      ensures links == old(links)
      ensures touchPoints == if activeTouches > 2 then old(touchPoints) else ApplyAll(old(touchPoints), links, changed, End)
    {
      if activeTouches > |touchPoints| {
        return;
      }
      HandleAll(changed, End);
    }
  }

  // ------------------------------------------------------------- properties

  /** Just after a press both deltas are 0: base and stick are at the finger. */
  lemma PressCentresStick(p: TouchPoint, x: real, y: real)
    ensures Act(p, Down(x, y)).pressed
    ensures DeltaX(Act(p, Down(x, y))) == 0.0 && DeltaY(Act(p, Down(x, y))) == 0.0
  {
  }

  /** A move changes only the stick of a pressed point, which lands on the finger; an unpressed point is untouched. */
  lemma MoveDragsStick(p: TouchPoint, x: real, y: real)
    ensures var q := Act(p, Move(x, y));
      q.pressed == p.pressed && q.baseX == p.baseX && q.baseY == p.baseY
      && (p.pressed ==> DeltaX(q) == x - p.baseX && DeltaY(q) == y - p.baseY)
      && (!p.pressed ==> q == p)
  {
  }

  /** A release leaves the point unpressed with both deltas back at 0. */
  lemma ReleaseCentresStick(p: TouchPoint)
    ensures !Act(p, Up).pressed
    ensures DeltaX(Act(p, Up)) == 0.0 && DeltaY(Act(p, Up)) == 0.0
  {
  }

  /** A handler changes at most the one touch point its link names. */
  lemma ApplyChangesOnlyTarget(points: seq<TouchPoint>, links: map<int, nat>, link: int, g: Gesture, j: nat)
    requires j < |points|
    requires !(link in links && links[link] == j)
    ensures Apply(points, links, link, g)[j] == points[j]
  {
  }

  /** Moves never press or release a joystick and never move a base, however many touches the event carries. */
  lemma {:induction false} MovesKeepPressAndBase(points: seq<TouchPoint>, links: map<int, nat>, touches: seq<Touch>, j: nat)
    requires j < |points|
    ensures var q := ApplyAll(points, links, touches, Moving)[j];
      q.pressed == points[j].pressed && q.baseX == points[j].baseX && q.baseY == points[j].baseY
  {
    if touches != [] {
      MovesKeepPressAndBase(points, links, touches[..|touches| - 1], j);
    }
  }

  /**
   * A touch-end event releases every joystick one of its touches is linked to
   * and leaves the others as they were.
   */
  lemma {:induction false} EndReleasesLinked(points: seq<TouchPoint>, links: map<int, nat>, touches: seq<Touch>, j: nat)
    requires j < |points|
    ensures (exists t :: t in touches && t.identifier in links && links[t.identifier] == j) ==>
              ApplyAll(points, links, touches, End)[j] == Idle
    ensures (forall t :: t in touches ==> !(t.identifier in links && links[t.identifier] == j)) ==>
              ApplyAll(points, links, touches, End)[j] == points[j]
  {
    if touches != [] {
      var init := touches[..|touches| - 1];
      var last := touches[|touches| - 1];
      EndReleasesLinked(points, links, init, j);
      assert forall t :: t in touches <==> t in init || t == last;
    }
  }
}
