/** The per-frame geometry of the attitude display: six background base points
    that the pitch shifts and the roll rotates about the screen centre, the four
    sky and ground triangles wired from them, the fixed symbology (two wing-level
    markers and the aircraft symbol) and the fixed order of the seven draws.

    Rounding, rotation and the waveforms are floating point. A vertex is kept as
    its integer base x, the integer y it has at zero pitch, and the pitch and roll
    terms that move it. Only where both terms are exactly 0.0 is its position
    an exact integer point: 160.0 + 0.0 * 4.0 +/- 640.0 is exact, and rotating an
    integer point of magnitude below 2^24 by -0.0 radians (cosine 1, sine -0.0)
    leaves it where it is. */
module Horizon {
  import opened Sequencer

  const ScreenWidth: int := 240
  const ScreenHeight: int := 320
  const CenterX: int := ScreenWidth / 2
  const CenterY: int := ScreenHeight / 2

  const MarkerOffsetX: int := 20
  const MarkerLength: nat := 20
  const MarkerThickness: nat := 4
  const AircraftSymbolRadius: nat := 3

  /** x of the left and right ends of the oversized background bands. */
  const LeftX: int := -ScreenWidth * 2 + CenterX
  const RightX: int := ScreenWidth * 3 + CenterX

  datatype Option<T> = None | Some(value: T)

  datatype Point = Point(x: int, y: int)

  /** A background vertex: the base point (x, round(level + pitch * 4.0)), where
      `level` is its y at zero pitch, rotated about the screen centre by -roll. */
  datatype Vertex = Vertex(x: int, level: int, pitch: Wave, roll: Wave)

  /** The six base points, before the roll rotation. */
  datatype Background = Background(
    horizonLeft: Vertex, horizonRight: Vertex,
    skyLeft: Vertex, skyRight: Vertex,
    groundLeft: Vertex, groundRight: Vertex)

  datatype Fill = SkyFill | GroundFill | WhiteFill

  /** The primitives the frame draws. A circle carries the two arguments given to
      the circle constructor (a point and the size 3) as they are. */
  datatype Shape =
    | Triangle(p1: Vertex, p2: Vertex, p3: Vertex)
    | Rectangle(topLeft: Point, width: nat, height: nat)
    | Circle(anchor: Point, size: nat)

  datatype Primitive = Primitive(shape: Shape, fill: Fill)

  /** The name each draw carries into its error message. */
  datatype Label =
    | SkyTriangle1 | SkyTriangle2 | GroundTriangle1 | GroundTriangle2
    | LeftMarker | RightMarker | AircraftSymbol

  datatype DrawStep = DrawStep(name: Label, primitive: Primitive)

  /** The exact screen position of a vertex, when no floating-point sample enters it. */
  function Resolve(v: Vertex): Option<Point>
  {
    if v.pitch == Zero && v.roll == Zero then Some(Point(v.x, v.level)) else None
  }

  function BaseVertex(x: int, rise: int, a: Attitude): Vertex
  {
    Vertex(x, CenterY + rise, a.pitch, a.roll)
  }

  /** The base points of the horizon, the far sky edge and the far ground edge. All
      left points share x = -360 and all right points x = 840; the two points of each
      pair share one y expression, and every point moves with the same pitch and roll. */
  function BackgroundFor(a: Attitude): (bg: Background)
    ensures bg.horizonLeft.x == bg.skyLeft.x == bg.groundLeft.x == -360
    ensures bg.horizonRight.x == bg.skyRight.x == bg.groundRight.x == 840
    ensures bg.horizonLeft.level == bg.horizonRight.level == CenterY
    ensures bg.skyLeft.level == bg.skyRight.level == CenterY - 2 * ScreenHeight
    ensures bg.groundLeft.level == bg.groundRight.level == CenterY + 2 * ScreenHeight
    ensures bg.horizonLeft.pitch == bg.horizonRight.pitch == bg.skyLeft.pitch == bg.skyRight.pitch == bg.groundLeft.pitch == bg.groundRight.pitch == a.pitch
    ensures bg.horizonLeft.roll == bg.horizonRight.roll == bg.skyLeft.roll == bg.skyRight.roll == bg.groundLeft.roll == bg.groundRight.roll == a.roll
  {
    Background(
      BaseVertex(LeftX, 0, a), BaseVertex(RightX, 0, a),
      BaseVertex(LeftX, -ScreenHeight * 2, a), BaseVertex(RightX, -ScreenHeight * 2, a),
      BaseVertex(LeftX, ScreenHeight * 2, a), BaseVertex(RightX, ScreenHeight * 2, a))
  }

  /** The two sky triangles (HL, HR, SR) and (HL, SR, SL), then the two ground
      triangles (HL, HR, GR) and (HL, GR, GL). */
  function BackgroundSteps(bg: Background): (steps: seq<DrawStep>)
    ensures |steps| == 4
    ensures forall i :: 0 <= i < 4 ==> steps[i].primitive.shape.Triangle?
  {
    [ DrawStep(SkyTriangle1, Primitive(Triangle(bg.horizonLeft, bg.horizonRight, bg.skyRight), SkyFill)),
      DrawStep(SkyTriangle2, Primitive(Triangle(bg.horizonLeft, bg.skyRight, bg.skyLeft), SkyFill)),
      DrawStep(GroundTriangle1, Primitive(Triangle(bg.horizonLeft, bg.horizonRight, bg.groundRight), GroundFill)),
      DrawStep(GroundTriangle2, Primitive(Triangle(bg.horizonLeft, bg.groundRight, bg.groundLeft), GroundFill)) ]
  }

  /** The fixed symbology: the two wing-level markers, then the aircraft symbol. */
  function Symbology(): seq<DrawStep>
  {
    [ DrawStep(LeftMarker, Primitive(Rectangle(
        Point(CenterX - MarkerOffsetX - MarkerLength, CenterY - MarkerThickness / 2),
        MarkerLength, MarkerThickness), WhiteFill)),
      DrawStep(RightMarker, Primitive(Rectangle(
        Point(CenterX + MarkerOffsetX, CenterY - MarkerThickness / 2),
        MarkerLength, MarkerThickness), WhiteFill)),
      DrawStep(AircraftSymbol, Primitive(Circle(Point(CenterX, CenterY), AircraftSymbolRadius), WhiteFill)) ]
  }

  /** Where the symbology lands: the left marker with its top-left at (80, 158), the
      right marker at (140, 158), both 20 x 4, then the aircraft symbol at the centre. */
  lemma SymbologyPlacement()
    ensures Symbology() == [
      DrawStep(LeftMarker, Primitive(Rectangle(Point(80, 158), 20, 4), WhiteFill)),
      DrawStep(RightMarker, Primitive(Rectangle(Point(140, 158), 20, 4), WhiteFill)),
      DrawStep(AircraftSymbol, Primitive(Circle(Point(120, 160), 3), WhiteFill))]
  {
  }

  /** The labels of a plan, in draw order. */
  function Labels(plan: seq<DrawStep>): seq<Label>
  {
    seq(|plan|, i requires 0 <= i < |plan| => plan[i].name)
  }

  /** Everything a frame draws, in order: the background first, so that the
      symbology drawn after it is never covered, and the symbology the same
      whatever the attitude. */
  function FramePlan(a: Attitude): (plan: seq<DrawStep>)
    ensures |plan| == 7
  {
    BackgroundSteps(BackgroundFor(a)) + Symbology()
  }

  /** Whatever the attitude, a frame draws the same seven steps in the same order:
      the four background triangles first, none of them white, then the symbology. */
  lemma FramePlanOrder(a: Attitude)
    ensures Labels(FramePlan(a)) == [SkyTriangle1, SkyTriangle2, GroundTriangle1, GroundTriangle2,
                                     LeftMarker, RightMarker, AircraftSymbol]
    ensures forall i :: 0 <= i < 4 ==> FramePlan(a)[i].primitive.shape.Triangle? && FramePlan(a)[i].primitive.fill != WhiteFill
    ensures FramePlan(a)[4..] == Symbology()
  {
  }

  predicate OnScreen(p: Point)
  {
    0 <= p.x < ScreenWidth && 0 <= p.y < ScreenHeight
  }

  /** Twice the signed area of (o, a, p): positive when p is to the left of o -> a. */
  function Cross(o: Point, a: Point, p: Point): int
  {
    (a.x - o.x) * (p.y - o.y) - (a.y - o.y) * (p.x - o.x)
  }

  /** p lies in the closed triangle (a, b, c), whichever its orientation. */
  predicate InTriangle(p: Point, a: Point, b: Point, c: Point)
  {
    var d1, d2, d3 := Cross(a, b, p), Cross(b, c, p), Cross(c, a, p);
    (d1 >= 0 && d2 >= 0 && d3 >= 0) || (d1 <= 0 && d2 <= 0 && d3 <= 0)
  }

  /** p lies in the triangle s, whose vertices are all exact points. */
  predicate Covers(s: Shape, p: Point)
  {
    s.Triangle? && Resolve(s.p1).Some? && Resolve(s.p2).Some? && Resolve(s.p3).Some? &&
    InTriangle(p, Resolve(s.p1).value, Resolve(s.p2).value, Resolve(s.p3).value)
  }

  /** The background of a plan splits the screen at the horizon: every pixel at or
      above it lies in a sky triangle, every pixel at or below it in a ground
      triangle, and no pixel above it in a ground triangle. */
  predicate SplitsAtHorizon(plan: seq<DrawStep>, p: Point)
    requires |plan| >= 4
  {
    && (p.y <= CenterY ==> Covers(plan[0].primitive.shape, p) || Covers(plan[1].primitive.shape, p))
    && (p.y >= CenterY ==> Covers(plan[2].primitive.shape, p) || Covers(plan[3].primitive.shape, p))
    && (p.y < CenterY ==> !Covers(plan[2].primitive.shape, p) && !Covers(plan[3].primitive.shape, p))
  }

  /** The markers are mirror images about the vertical centre line, centred on the
      horizontal centre line, and lie on the screen. */
  lemma MarkersMirrored()
    ensures var left, right := Symbology()[0].primitive.shape, Symbology()[1].primitive.shape;
      && left.Rectangle? && right.Rectangle?
      && left.width == right.width == MarkerLength && left.height == right.height == MarkerThickness
      && left.topLeft.x + left.width == CenterX - MarkerOffsetX
      && right.topLeft.x == CenterX + MarkerOffsetX
      && left.topLeft.y == right.topLeft.y
      && left.topLeft.y + left.height / 2 == CenterY
      && OnScreen(left.topLeft) && left.topLeft.x + left.width <= ScreenWidth && left.topLeft.y + left.height <= ScreenHeight
      && OnScreen(right.topLeft) && right.topLeft.x + right.width <= ScreenWidth && right.topLeft.y + right.height <= ScreenHeight
  {
  }

  /** The two triangles of each band share the diagonal from the left horizon point to
      the far right corner, and the first sky and first ground triangles share the
      horizon edge: each band is the quadrilateral its two triangles split. */
  lemma TriangleWiring(a: Attitude)
    ensures var plan, bg := FramePlan(a), BackgroundFor(a);
      && plan[0].primitive.shape == Triangle(bg.horizonLeft, bg.horizonRight, bg.skyRight)
      && plan[1].primitive.shape == Triangle(bg.horizonLeft, bg.skyRight, bg.skyLeft)
      && plan[2].primitive.shape == Triangle(bg.horizonLeft, bg.horizonRight, bg.groundRight)
      && plan[3].primitive.shape == Triangle(bg.horizonLeft, bg.groundRight, bg.groundLeft)
      && plan[0].primitive.fill == plan[1].primitive.fill == SkyFill
      && plan[2].primitive.fill == plan[3].primitive.fill == GroundFill
  {
  }

  /** With pitch and roll both 0.0 (on power-on, at the start of the pitch-only and
      roll-only phases, and after a defensive reset) every vertex is exact: the
      horizon lies on y = 160 from x = -360 to x = 840, the sky band reaches up to
      y = -480 and the ground band down to y = 800. */
  lemma LevelVertices()
    ensures var bg := BackgroundFor(Attitude(Zero, Zero));
      && Resolve(bg.horizonLeft) == Some(Point(-360, 160)) && Resolve(bg.horizonRight) == Some(Point(840, 160))
      && Resolve(bg.skyLeft) == Some(Point(-360, -480)) && Resolve(bg.skyRight) == Some(Point(840, -480))
      && Resolve(bg.groundLeft) == Some(Point(-360, 800)) && Resolve(bg.groundRight) == Some(Point(840, 800))
  {
  }

  /** At level attitude the background covers the whole screen, split at the horizon. */
  lemma LevelBackgroundCoversScreen(p: Point)
    requires OnScreen(p)
    ensures SplitsAtHorizon(FramePlan(Attitude(Zero, Zero)), p)
  {
    LevelVertices();
    var hl, hr := Point(-360, 160), Point(840, 160);
    var sl, sr := Point(-360, -480), Point(840, -480);
    var gl, gr := Point(-360, 800), Point(840, 800);
    if p.y <= CenterY {
      assert InTriangle(p, hl, hr, sr);
    }
    if p.y >= CenterY {
      assert InTriangle(p, hl, hr, gr);
    }
    if p.y < CenterY {
      assert Cross(hl, hr, p) < 0 && Cross(hr, gr, p) > 0;
      assert Cross(hl, gr, p) < 0 && Cross(gr, gl, p) > 0;
    }
  }

  /** The frame that starts the pitch-only or the roll-only phase, the power-on frame
      and the frame after a defensive reset among them, draws the level background. */
  lemma PhaseStartCoversScreen(s: PhaseState, p: Point)
    requires (s.phase < 2 && s.counter == 0) || s.phase >= 3
    requires OnScreen(p)
    ensures SplitsAtHorizon(FramePlan(Select(s).attitude), p)
  {
    PhaseStartSample(s);
    LevelBackgroundCoversScreen(p);
  }
}
