/**
 * Game rules of the tunnel game (tunneltilt/geometry.js): linear interpolation,
 * the tunnel's curve and the vertex tables of its triangle strip, the resets of
 * the cylinder, ball and particles, the wall's depth, the "past the last wall"
 * test and the ball's collision test against the walls.
 *
 * Angles and positions are reals. `Math.cos` and `Math.sin` are parameters;
 * `Math.PI` is its decimal value, so `RAD2DEG` is a fixed real as well.
 * Drawing, shaders and buffers are not part of this model.
 */
module Geometry {

  /** `Math.PI`. */
  const Pi: real := 3.141592653589793
  /** `RAD2DEG`: degrees per radian. */
  const Rad2Deg: real := 180.0 / Pi

  /** An angle in radians converted to degrees: the product with `RAD2DEG`. */
  function Degrees(radians: real): real
  {
    radians * Rad2Deg
  }

  /** The cylinder's `numSegments` and `straightSegments`. */
  const NumSegments: nat := 30
  const StraightSegments: nat := 4

  /** The ball's `zThreshold`, `angleThreshold` and `ballZ`, which nothing changes after construction. */
  const ZThreshold: real := 10.0
  const AngleThreshold: real := 12.0
  const BallZ: real := -30.0

  /** The cylinder's `lastWallPos` after a reset: some distance to travel even on an empty level. */
  const InitialLastWallPos: real := 128.0

  // ------------------------------------------------------------------ lerp

  /** `lerp(a, b, t)`: the point a fraction `t` of the way from `a` to `b`. */
  function Lerp(a: real, b: real, t: real): real
  {
    a + (b - a) * t
  }

  /** For `t` in `[0, 1]`, `lerp` lies between `a` and `b`. */
  lemma LerpBetween(a: real, b: real, t: real)
    requires 0.0 <= t <= 1.0
    ensures a <= b ==> a <= Lerp(a, b, t) <= b
    ensures b <= a ==> b <= Lerp(a, b, t) <= a
  {
    var d := b - a;
    assert 0.0 <= d ==> 0.0 <= d * t && 0.0 <= d * (1.0 - t);
    assert d <= 0.0 ==> d * t <= 0.0 && d * (1.0 - t) <= 0.0;
    assert d * (1.0 - t) == d - d * t;
    assert a + d * t == b - d * (1.0 - t);
  }

  /** Interpolation starts at `a` and ends at `b`. */
  lemma LerpEnds(a: real, b: real)
    ensures Lerp(a, b, 0.0) == a && Lerp(a, b, 1.0) == b
  {
  }

  // ------------------------------------------------------ degrees, JS-style

  /** Rounding toward zero: the quotient behind JavaScript's `%`. */
  function Trunc(q: real): int
  {
    if q >= 0.0 then q.Floor else -((-q).Floor)
  }

  /**
   * JavaScript's `x % 360` on numbers: the remainder after removing whole turns
   * toward zero, so it has the sign of `x` and a magnitude below 360.
   */
  function Rem360(x: real): (r: real)
    ensures -360.0 < r < 360.0
    ensures x >= 0.0 ==> 0.0 <= r
    ensures x <= 0.0 ==> r <= 0.0
  {
    x - 360.0 * (Trunc(x / 360.0) as real)
  }

  /** The normalisation `didCrash` applies to every angle: `x % 360`, plus 360 if that is negative. */
  function NormDeg(x: real): (r: real)
    ensures 0.0 <= r < 360.0
  {
    var m := Rem360(x);
    if m < 0.0 then m + 360.0 else m
  }

  /** The normalised angle is `x` minus its whole turns rounded down: floored remainder by 360. */
  lemma NormDegIsFloorMod(x: real)
    ensures NormDeg(x) == x - 360.0 * ((x / 360.0).Floor as real)
  {
    var q := x / 360.0;
    if q < 0.0 {
      var k := (-q).Floor;
      if q == -(k as real) {
        assert q.Floor == -k;
      } else {
        assert q.Floor == -k - 1;
      }
    }
  }

  /** Whole turns do not change a normalised angle. */
  lemma NormDegPeriodic(x: real, k: int)
    ensures NormDeg(x + 360.0 * (k as real)) == NormDeg(x)
  {
    NormDegIsFloorMod(x);
    NormDegIsFloorMod(x + 360.0 * (k as real));
    assert (x + 360.0 * (k as real)) / 360.0 == x / 360.0 + k as real;
    assert (x / 360.0 + k as real).Floor == (x / 360.0).Floor + k;
  }

  /** Angles already in `[0, 360)` are left alone. */
  lemma NormDegFixes(x: real)
    requires 0.0 <= x < 360.0
    ensures NormDeg(x) == x
  {
    assert (x / 360.0).Floor == 0;
  }

  /** Within one turn either side of 0, a negative angle is moved up by exactly one turn. */
  lemma NormDegNear(y: real)
    requires -360.0 < y < 360.0
    ensures NormDeg(y) == if y >= 0.0 then y else y + 360.0
  {
    if y >= 0.0 {
      NormDegFixes(y);
    } else {
      assert (-y / 360.0).Floor == 0;
    }
  }

  /** The statement pair `x = x % 360; if (x < 0) x += 360;` that `didCrash` applies to each angle. */
  method NormaliseDegrees(x: real) returns (r: real)
    ensures r == NormDeg(x)
    ensures 0.0 <= r < 360.0
  {
    r := Rem360(x);
    if r < 0.0 {
      r := r + 360.0;
    }
  }

  // ------------------------------------------------------------------ walls

  /**
   * A wall: the angles (radians) it sweeps between and the depth coordinate of
   * its quad, `pos[2]`. Its other coordinates need `Math.cos`, `Math.sin`,
   * `Math.atan2` and `Math.sqrt` and are not part of this model.
   */
  datatype Wall = Wall(angle1: real, angle2: real, scale: real, posZ: real)

  /** `new Wall(angle1, angle2, radius, z)`: the quad is scaled to the tunnel's diameter and placed at `-z`. */
  function NewWall(angle1: real, angle2: real, radius: real, z: real): (w: Wall)
    ensures w.angle1 == angle1 && w.angle2 == angle2
    ensures -w.posZ == z
  {
    Wall(angle1, angle2, 2.0 * radius, -z)
  }

  /** The depth of the ball along the tunnel: `offset / 3 * length - ballZ`. */
  function BallDepth(offset: real, length: real): real
  {
    offset / 3.0 * length - BallZ
  }

  /** The ball's angle in degrees, normalised: `(3π/2 - cylinder angle) * RAD2DEG` into `[0, 360)`. */
  function BallAngle(cylinderAngle: real): (a: real)
    ensures 0.0 <= a < 360.0
  {
    NormDeg(Degrees(3.0 * Pi / 2.0 - cylinderAngle))
  }

  /** A wall at depth `wallZ` is close enough: strictly within `zThreshold` of the ball, either side. */
  predicate Near(wallZ: real, depth: real)
  {
    wallZ < depth + ZThreshold && wallZ > depth - ZThreshold
  }

  /** The test of `didCrash`: `angle` strictly between `a1` and `a2`, across 360 when `a1 > a2`. */
  predicate InArc(angle: real, a1: real, a2: real)
  {
    (a1 < a2 && angle > a1 && angle < a2) || (a1 > a2 && (angle > a1 || angle < a2))
  }

  /** The start of a wall's arc, widened by the ball: `angle1` in degrees minus `angleThreshold`. */
  function ArcStart(w: Wall): (a: real)
    ensures 0.0 <= a < 360.0
  {
    NormDeg(Degrees(w.angle1) - AngleThreshold)
  }

  /** The end of a wall's arc, widened by the ball: `angle2` in degrees plus `angleThreshold`. */
  function ArcEnd(w: Wall): (a: real)
    ensures 0.0 <= a < 360.0
  {
    NormDeg(Degrees(w.angle2) + AngleThreshold)
  }

  /** The ball at `depth` and `angle` hits wall `w`. */
  predicate Hits(w: Wall, depth: real, angle: real)
  {
    Near(-w.posZ, depth) && InArc(angle, ArcStart(w), ArcEnd(w))
  }

  /**
   * The arc test, measured instead by turning: for angles in `[0, 360)`, `angle`
   * is inside the arc from `a1` to `a2` exactly when turning up from `a1` reaches
   * `angle` strictly before it reaches `a2`. An arc whose ends coincide is empty.
   */
  lemma InArcIffTurn(angle: real, a1: real, a2: real)
    requires 0.0 <= angle < 360.0 && 0.0 <= a1 < 360.0 && 0.0 <= a2 < 360.0
    ensures InArc(angle, a1, a2) <==> 0.0 < NormDeg(angle - a1) < NormDeg(a2 - a1)
    ensures !InArc(angle, a1, a1)
  {
    NormDegNear(angle - a1);
    NormDegNear(a2 - a1);
  }

  // ------------------------------------------------------------ the tunnel

  /**
   * `this.length || 10` and `this.radius || 5`: JavaScript replaces a zero by the
   * default. It replaces `undefined` and NaN as well; the `Shape` fields are
   * always defined numbers here, so only the zero case arises.
   */
  function OrDefault(x: real, default: real): (r: real)
    ensures x != 0.0 ==> r == x
    ensures x == 0.0 ==> r == default
  {
    if x == 0.0 then default else x
  }

  /** `cos` is a cosine as far as the tunnel needs: its values lie in `[-1, 1]`. */
  ghost predicate IsCosine(cos: real -> real)
  {
    forall t {:trigger cos(t)} :: -1.0 <= cos(t) <= 1.0
  }

  /**
   * `getTunnelOffset(segment)`: the sideways shift of the tunnel's centre at
   * `segment`. The segments before `straightSegments + 1` are straight; after them
   * the tunnel bends along a cosine of the given radius.
   */
  function TunnelOffset(radius: real, segment: real, cos: real -> real): (x: real)
    ensures segment < (StraightSegments + 1) as real ==> x == 0.0
  {
    if segment < (StraightSegments + 1) as real then 0.0
    else radius * cos((segment - StraightSegments as real) * 2.0 * Pi / (NumSegments - StraightSegments) as real) - radius
  }

  /** The bend moves the centre to one side only, by at most the diameter. */
  lemma TunnelOffsetBounds(radius: real, segment: real, cos: real -> real)
    requires IsCosine(cos) && radius >= 0.0
    ensures -2.0 * radius <= TunnelOffset(radius, segment, cos) <= 0.0
  {
    if segment >= (StraightSegments + 1) as real {
      var c := cos((segment - StraightSegments as real) * 2.0 * Pi / (NumSegments - StraightSegments) as real);
      assert -1.0 <= c <= 1.0;
      assert radius * (1.0 - c) >= 0.0 && radius * (c + 1.0) >= 0.0;
    }
  }

  /** The arguments the `Cylinder` constructor builds its strip from. */
  datatype Shape = Shape(subdivs: nat, posZ: real, length: real, radius: real)

  /** Depth of the near ring of `segment`: `pos[2] - segment * segmentLength`. */
  function NearZ(sh: Shape, segment: nat): real
  {
    sh.posZ - (segment as real * (sh.length / NumSegments as real))
  }

  /** Angle of the `subdiv`-th point around the ring: `subdiv * 2π / subdivs`. */
  function Phi(sh: Shape, subdiv: nat): real
    requires sh.subdivs > 0
  {
    subdiv as real * 2.0 * Pi / sh.subdivs as real
  }

  /** Texture `u` of the `subdiv`-th point around the ring: `subdiv / subdivs`. */
  function TexU(sh: Shape, subdiv: nat): real
    requires sh.subdivs > 0
  {
    subdiv as real / sh.subdivs as real
  }

  /** Texture `v` of the ring at the start of `segment`: `segment * 3 / numSegments`. */
  function TexV(segment: nat): real
  {
    (segment * 3) as real / NumSegments as real
  }

  /**
   * The vertex pushed first for one point around one segment: on the far ring,
   * shifted by the tunnel's bend at the next segment.
   */
  function FarVertex(sh: Shape, cos: real -> real, sin: real -> real, segment: nat, subdiv: nat): seq<real>
    requires sh.subdivs > 0
  {
    [sh.radius * cos(Phi(sh, subdiv)) + TunnelOffset(sh.radius, (segment + 1) as real, cos),
     sh.radius * sin(Phi(sh, subdiv)),
     NearZ(sh, segment) - sh.length / NumSegments as real]
  }

  /** The vertex pushed second: on the near ring, shifted by the bend at this segment. */
  function NearVertex(sh: Shape, cos: real -> real, sin: real -> real, segment: nat, subdiv: nat): seq<real>
    requires sh.subdivs > 0
  {
    [sh.radius * cos(Phi(sh, subdiv)) + TunnelOffset(sh.radius, segment as real, cos),
     sh.radius * sin(Phi(sh, subdiv)),
     NearZ(sh, segment)]
  }

  lemma VertexElements(sh: Shape, cos: real -> real, sin: real -> real, segment: nat, subdiv: nat)
    requires sh.subdivs > 0
    ensures FarVertex(sh, cos, sin, segment, subdiv)[0] == sh.radius * cos(Phi(sh, subdiv)) + TunnelOffset(sh.radius, (segment + 1) as real, cos)
    ensures NearVertex(sh, cos, sin, segment, subdiv)[0] == sh.radius * cos(Phi(sh, subdiv)) + TunnelOffset(sh.radius, segment as real, cos)
    ensures FarVertex(sh, cos, sin, segment, subdiv)[1] == sh.radius * sin(Phi(sh, subdiv))
    ensures NearVertex(sh, cos, sin, segment, subdiv)[1] == sh.radius * sin(Phi(sh, subdiv))
  {
  }

  /** The two vertices pushed for one point around one segment: far ring first, then near ring. */
  function PairPositions(sh: Shape, cos: real -> real, sin: real -> real, segment: nat, subdiv: nat): seq<real>
    requires sh.subdivs > 0
  {
    FarVertex(sh, cos, sin, segment, subdiv) + NearVertex(sh, cos, sin, segment, subdiv)
  }

  /** Their texture coordinates. */
  function PairCoords(sh: Shape, segment: nat, subdiv: nat): seq<real>
    requires sh.subdivs > 0
  {
    [TexU(sh, subdiv), TexV(segment + 1)] + [TexU(sh, subdiv), TexV(segment)]
  }

  /** Positions pushed for the first `k` points around `segment`. */
  function RingPositions(sh: Shape, cos: real -> real, sin: real -> real, segment: nat, k: nat): seq<real>
    requires sh.subdivs > 0
  {
    if k == 0 then [] else RingPositions(sh, cos, sin, segment, k - 1) + PairPositions(sh, cos, sin, segment, k - 1)
  }

  /** Texture coordinates pushed for the first `k` points around `segment`. */
  function RingCoords(sh: Shape, segment: nat, k: nat): seq<real>
    requires sh.subdivs > 0
  {
    if k == 0 then [] else RingCoords(sh, segment, k - 1) + PairCoords(sh, segment, k - 1)
  }

  /** Positions pushed for the first `n` segments, `subdivs + 1` points each. */
  function TunnelPositions(sh: Shape, cos: real -> real, sin: real -> real, n: nat): seq<real>
    requires sh.subdivs > 0
  {
    if n == 0 then [] else TunnelPositions(sh, cos, sin, n - 1) + RingPositions(sh, cos, sin, n - 1, sh.subdivs + 1)
  }

  /** Texture coordinates pushed for the first `n` segments. */
  function TunnelCoords(sh: Shape, n: nat): seq<real>
    requires sh.subdivs > 0
  {
    if n == 0 then [] else TunnelCoords(sh, n - 1) + RingCoords(sh, n - 1, sh.subdivs + 1)
  }

  lemma {:induction false} RingLengths(sh: Shape, cos: real -> real, sin: real -> real, segment: nat, k: nat)
    requires sh.subdivs > 0
    ensures |RingPositions(sh, cos, sin, segment, k)| == 6 * k
    ensures |RingCoords(sh, segment, k)| == 4 * k
  {
    if k > 0 {
      RingLengths(sh, cos, sin, segment, k - 1);
    }
  }

  /**
   * The strip holds `n (subdivs + 1) 2` vertices after `n` segments: three
   * position values and two texture values per vertex.
   */
  lemma {:induction false} TunnelLengths(sh: Shape, cos: real -> real, sin: real -> real, n: nat, vertices: nat)
    requires sh.subdivs > 0
    requires vertices == n * (sh.subdivs + 1) * 2
    ensures |TunnelPositions(sh, cos, sin, n)| == 3 * vertices
    ensures |TunnelCoords(sh, n)| == 2 * vertices
  {
    if n > 0 {
      var ring := (sh.subdivs + 1) * 2;
      assert vertices == (n - 1) * (sh.subdivs + 1) * 2 + ring;
      TunnelLengths(sh, cos, sin, n - 1, (n - 1) * (sh.subdivs + 1) * 2);
      RingLengths(sh, cos, sin, n - 1, sh.subdivs + 1);
    }
  }

  /** Every `u` (even position) lies in `[0, 1]` and every `v` (odd position) in `[0, 3]`. */
  predicate CoordsInRange(t: seq<real>)
  {
    forall i :: 0 <= i < |t| ==> 0.0 <= t[i] <= (if i % 2 == 0 then 1.0 else 3.0)
  }

  /** Appending pairs to pairs keeps even positions even. */
  lemma CoordsAppend(a: seq<real>, b: seq<real>)
    requires |a| % 2 == 0
    requires CoordsInRange(a) && CoordsInRange(b)
    ensures CoordsInRange(a + b)
  {
    forall i | |a| <= i < |a + b|
      ensures 0.0 <= (a + b)[i] <= (if i % 2 == 0 then 1.0 else 3.0)
    {
      var j := i - |a|;
      assert (a + b)[i] == b[j];
      assert i % 2 == j % 2 by {
        assert i == j + 2 * (|a| / 2);
      }
    }
  }

  lemma PairCoordsInRange(sh: Shape, segment: nat, subdiv: nat)
    requires sh.subdivs > 0 && segment < NumSegments && subdiv <= sh.subdivs
    ensures CoordsInRange(PairCoords(sh, segment, subdiv))
  {
    var p := PairCoords(sh, segment, subdiv);
    assert 0.0 <= TexU(sh, subdiv) <= 1.0;
    assert 0.0 <= TexV(segment + 1) <= 3.0;
    assert 0.0 <= TexV(segment) <= 3.0;
    assert p[0] == TexU(sh, subdiv) && p[1] == TexV(segment + 1) && p[2] == TexU(sh, subdiv) && p[3] == TexV(segment);
  }

  lemma {:induction false} RingCoordsInRange(sh: Shape, segment: nat, k: nat)
    requires sh.subdivs > 0 && segment < NumSegments && k <= sh.subdivs + 1
    ensures |RingCoords(sh, segment, k)| == 4 * k
    ensures CoordsInRange(RingCoords(sh, segment, k))
  {
    if k > 0 {
      RingCoordsInRange(sh, segment, k - 1);
      PairCoordsInRange(sh, segment, k - 1);
      CoordsAppend(RingCoords(sh, segment, k - 1), PairCoords(sh, segment, k - 1));
    }
  }

  /**
   * Every texture coordinate of the tunnel is in range: `u` in `[0, 1]` around
   * the ring, `v` in `[0, 3]` along the tunnel (the texture repeats three times).
   */
  lemma {:induction false} TunnelCoordsInRange(sh: Shape, n: nat)
    requires sh.subdivs > 0 && n <= NumSegments
    ensures |TunnelCoords(sh, n)| % 2 == 0
    ensures CoordsInRange(TunnelCoords(sh, n))
  {
    if n > 0 {
      TunnelCoordsInRange(sh, n - 1);
      RingCoordsInRange(sh, n - 1, sh.subdivs + 1);
      CoordsAppend(TunnelCoords(sh, n - 1), RingCoords(sh, n - 1, sh.subdivs + 1));
    }
  }

  /**
   * The body of the inner loop of the `Cylinder` constructor before its pushes:
   * the angle, cosine, sine and `u` of one point around the ring, and the values
   * then pushed for the far and the near vertex.
   */
  method RingPoint(sh: Shape, cos: real -> real, sin: real -> real, segment: nat, subdiv: nat, z: real, zEnd: real)
    returns (far: seq<real>, near: seq<real>, farCoords: seq<real>, nearCoords: seq<real>)
    requires sh.subdivs > 0
    requires z == NearZ(sh, segment) && zEnd == z - sh.length / NumSegments as real
    ensures far == FarVertex(sh, cos, sin, segment, subdiv)
    ensures near == NearVertex(sh, cos, sin, segment, subdiv)
    ensures farCoords + nearCoords == PairCoords(sh, segment, subdiv)
  {
    var phi := subdiv as real * 2.0 * Pi / sh.subdivs as real;
    var x, y := cos(phi), sin(phi);
    var u := subdiv as real / sh.subdivs as real;
    far := [sh.radius * x + TunnelOffset(sh.radius, (segment + 1) as real, cos), sh.radius * y, zEnd];
    near := [sh.radius * x + TunnelOffset(sh.radius, segment as real, cos), sh.radius * y, z];
    farCoords := [u, ((segment + 1) * 3) as real / NumSegments as real];
    nearCoords := [u, (segment * 3) as real / NumSegments as real];
    assert phi == Phi(sh, subdiv);
    VertexElements(sh, cos, sin, segment, subdiv);
    assert far[0] == FarVertex(sh, cos, sin, segment, subdiv)[0];
    assert near[0] == NearVertex(sh, cos, sin, segment, subdiv)[0];
    assert far[1] == FarVertex(sh, cos, sin, segment, subdiv)[1];
    assert far[2] == FarVertex(sh, cos, sin, segment, subdiv)[2];
    assert |far| == |FarVertex(sh, cos, sin, segment, subdiv)|;
  }

  /** Two appends onto a prefix extend the prefix's ring by both. */
  lemma RingStep(start: seq<real>, before: seq<real>, ring: seq<real>, first: seq<real>, second: seq<real>)
    requires before == start + ring
    ensures before + first + second == start + (ring + (first + second))
  {
  }

  /** The depth the outer loop computes for a segment is `NearZ`. */
  lemma SegmentDepth(sh: Shape, segment: nat, segmentLength: real, z: real)
    requires segmentLength == sh.length / NumSegments as real
    requires z == sh.posZ - (segment as real * segmentLength)
    ensures z == NearZ(sh, segment)
  {
  }

  /**
   * The inner loop of the `Cylinder` constructor: for each point around the ring
   * of `segment`, the closing point included, a vertex on the far ring and one on
   * the near ring are appended.
   */
  method BuildRing(sh: Shape, cos: real -> real, sin: real -> real, segment: nat, z: real, zEnd: real,
                   positions0: seq<real>, coords0: seq<real>)
    returns (positionData: seq<real>, textureCoordData: seq<real>)
    requires sh.subdivs > 0
    requires z == NearZ(sh, segment) && zEnd == z - sh.length / NumSegments as real
    ensures positionData == positions0 + RingPositions(sh, cos, sin, segment, sh.subdivs + 1)
    ensures textureCoordData == coords0 + RingCoords(sh, segment, sh.subdivs + 1)
  {
    positionData, textureCoordData := positions0, coords0;
    var subdiv := 0;
    while subdiv <= sh.subdivs
      invariant 0 <= subdiv <= sh.subdivs + 1
      invariant positionData == positions0 + RingPositions(sh, cos, sin, segment, subdiv)
      invariant textureCoordData == coords0 + RingCoords(sh, segment, subdiv)
    {
      var far, near, farCoords, nearCoords := RingPoint(sh, cos, sin, segment, subdiv, z, zEnd);
      ghost var positionsBefore, coordsBefore := positionData, textureCoordData;
      positionData := positionData + far;
      textureCoordData := textureCoordData + farCoords;
      positionData := positionData + near;
      textureCoordData := textureCoordData + nearCoords;
      RingStep(positions0, positionsBefore, RingPositions(sh, cos, sin, segment, subdiv), far, near);
      RingStep(coords0, coordsBefore, RingCoords(sh, segment, subdiv), farCoords, nearCoords);
      assert RingPositions(sh, cos, sin, segment, subdiv + 1) == RingPositions(sh, cos, sin, segment, subdiv) + (far + near);
      assert RingCoords(sh, segment, subdiv + 1) == RingCoords(sh, segment, subdiv) + (farCoords + nearCoords);
      subdiv := subdiv + 1;
    }
  }

  /**
   * The outer loop of the `Cylinder` constructor: `numSegments` segments, each a
   * ring of `subdivs + 1` vertex pairs.
   */
  method BuildTunnel(sh: Shape, cos: real -> real, sin: real -> real)
    returns (positionData: seq<real>, textureCoordData: seq<real>)
    requires sh.subdivs > 0
    ensures positionData == TunnelPositions(sh, cos, sin, NumSegments)
    ensures textureCoordData == TunnelCoords(sh, NumSegments)
    ensures CoordsInRange(textureCoordData)
  {
    positionData, textureCoordData := [], [];
    var segmentLength := sh.length / NumSegments as real;
    var segment := 0;
    while segment < NumSegments
      invariant 0 <= segment <= NumSegments
      invariant positionData == TunnelPositions(sh, cos, sin, segment)
      invariant textureCoordData == TunnelCoords(sh, segment)
    {
      var z := sh.posZ - (segment as real * segmentLength);
      var zEnd := z - segmentLength;
      SegmentDepth(sh, segment, segmentLength, z);
      positionData, textureCoordData := BuildRing(sh, cos, sin, segment, z, zEnd, positionData, textureCoordData);
      segment := segment + 1;
    }
    TunnelCoordsInRange(sh, NumSegments);
  }

  /** The cylinder: the tunnel's strip, its placement, and the state a level changes. */
  class Cylinder {
    const acceleration: real
    const positionData: seq<real>
    const textureCoordData: seq<real>
    const posZ: real
    const length: real
    const radius: real
    var offset: real
    var angle: real
    var walls: seq<Wall>
    var lastWallPos: real
    var speed: real
    var maxSpeed: real

    /**
     * `Cylinder.pastLastWall`. The source compares `this.offset` with the length
     * and last wall of the global `cylinder`, which is passed here as `global`;
     * on the global cylinder itself it is the test "travelled beyond the last wall".
     */
    predicate PastLastWall(global: Cylinder)
      reads this, global
      ensures global == this ==> (PastLastWall(global) <==> offset * length > 3.0 * lastWallPos)
    {
      offset / 3.0 * global.length > global.lastWallPos
    }

    /**
     * The constructor: the strip built from the arguments as given, then `length`
     * and `radius` stored with JavaScript's `||` default, then a reset.
     */
    constructor (sh: Shape, cos: real -> real, sin: real -> real)
      requires sh.subdivs > 0
      ensures positionData == TunnelPositions(sh, cos, sin, NumSegments)
      ensures textureCoordData == TunnelCoords(sh, NumSegments)
      ensures CoordsInRange(textureCoordData)
      ensures acceleration == 0.2 && posZ == sh.posZ
      ensures length == OrDefault(sh.length, 10.0) && radius == OrDefault(sh.radius, 5.0)
      ensures offset == 0.0 && angle == 0.0 && walls == []
      ensures lastWallPos == InitialLastWallPos && speed == 0.01 && maxSpeed == 1.0
    {
      acceleration := 0.2;
      var p, t := BuildTunnel(sh, cos, sin);
      positionData, textureCoordData := p, t;
      posZ := sh.posZ;
      length := OrDefault(sh.length, 10.0);
      radius := OrDefault(sh.radius, 5.0);
      new;
      Reset();
    }

    /** `Cylinder.reset`: back to the start of a level, with no walls; not yet past the last wall. */
    method Reset()
      modifies this
      ensures offset == 0.0 && angle == 0.0 && walls == []
      ensures lastWallPos == InitialLastWallPos && speed == 0.01 && maxSpeed == 1.0
      ensures !PastLastWall(this)
    {
      offset := 0.0;
      angle := 0.0;
      walls := [];
      lastWallPos := InitialLastWallPos;
      speed := 0.01;
      maxSpeed := 1.0;
    }
  }

  /** A JavaScript property that may not have been assigned yet. */
  datatype Property = Undefined | Defined(value: real)

  /** The ball. Its thresholds and depth are the module's constants. */
  class Ball {
    /** `Math.PI` degrees per second. */
    const maxRotationSpeed: real
    var rotationSpeed: real
    var glowOffset: real
    /** Assigned by `reset` only; the constructor leaves it undefined. */
    var angle: Property

    constructor ()
      ensures maxRotationSpeed == Pi
      ensures rotationSpeed == 0.0 && glowOffset == 0.0 && angle == Undefined
    {
      maxRotationSpeed := Pi;
      rotationSpeed := 0.0;
      glowOffset := 0.0;
      angle := Undefined;
    }

    /** `Ball.reset`. */
    method Reset()
      modifies this
      ensures angle == Defined(0.0) && rotationSpeed == 0.0 && glowOffset == 0.0
    {
      angle := Defined(0.0);
      rotationSpeed := 0.0;
      glowOffset := 0.0;
    }

    /**
     * `Ball.didCrash`: true exactly when some wall is near the ball's depth and its
     * widened arc holds the ball's angle. With no walls, or no near wall, it is false.
     */
    method DidCrash(cylinder: Cylinder) returns (crashed: bool)
      ensures crashed <==> exists i :: 0 <= i < |cylinder.walls|
                             && Hits(cylinder.walls[i], BallDepth(cylinder.offset, cylinder.length), BallAngle(cylinder.angle))
    {
      var pos := cylinder.offset / 3.0 * cylinder.length - BallZ;
      var a := Degrees(3.0 * Pi / 2.0 - cylinder.angle);
      a := NormaliseDegrees(a);
      assert pos == BallDepth(cylinder.offset, cylinder.length);
      assert a == BallAngle(cylinder.angle);
      var i := 0;
      while i < |cylinder.walls|
        invariant 0 <= i <= |cylinder.walls|
        invariant forall j :: 0 <= j < i ==> !Hits(cylinder.walls[j], pos, a)
      {
        var w := cylinder.walls[i];
        if -w.posZ < pos + ZThreshold && -w.posZ > pos - ZThreshold {
          var angle1 := NormaliseDegrees(Degrees(w.angle1) - AngleThreshold);
          var angle2 := NormaliseDegrees(Degrees(w.angle2) + AngleThreshold);
          if (angle1 < angle2 && a > angle1 && a < angle2) || (angle1 > angle2 && (a > angle1 || a < angle2)) {
            return true;
          }
        }
        i := i + 1;
      }
      return false;
    }
  }

  /** The explosion's particles; only their clock is state the game rules touch. */
  class Particles {
    var time: real

    constructor ()
      ensures time == 0.0
    {
      time := 0.0;
    }

    /** `Particles.reset`. */
    method Reset()
      modifies this
      ensures time == 0.0
    {
      time := 0.0;
    }
  }
}
