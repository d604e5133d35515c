/**
 * The tracking session of the plot view: the geodetic origin (unset while
 * both coordinates hold the `Double.MAX_VALUE` sentinel), the centring
 * flag, the density `unitDP`, the scale index and the trail of planar
 * points. Each operation is first a function from session to session; the
 * class `PlotView` holds the same state in fields and its methods are
 * proved to perform exactly those transitions.
 */
module Tracking {
  import opened UnitScale
  import opened Nmea
  import opened Text

  /** `Double.MAX_VALUE`, (2 - 2^-52) * 2^1023: the origin coordinates before the first fix. */
  const Unset: real := 179769313486231570814527423731704356798070567525844996598917476803157260780028538760589558632766878171540458953514382464234321326889464182768467546703537516986049910576551282076245490090389328944075868508455133942304583236903222948165808559332123348274797826204144723168738177180919299881250404026184124858368.0

  /** `radiusOfEarth`, in metres. */
  const RadiusOfEarth: real := 6378100.0

  datatype Point = Point(x: real, y: real)

  /**
   * The flat-earth arithmetic on doubles, left abstract:
   * `deltaX(lonCenter, lon, lat, unitDP)` and `deltaY(latCenter, lat, unitDP)`
   * give the planar offset of a fix from the origin; `deltaLon(deltaX,
   * latCenter, unitDP)` and `deltaLat(deltaY, unitDP)` give the change of
   * origin that a planar move stands for.
   */
  datatype Projection = Projection(
    deltaX: (real, real, real, real) -> real,
    deltaY: (real, real, real) -> real,
    deltaLon: (real, real, real) -> real,
    deltaLat: (real, real) -> real)

  /** The one exact fact about the projection the model relies on: a fix at the origin has no offset. */
  ghost predicate ZeroAtOrigin(p: Projection) {
    && (forall lonCenter, lat, unitDP :: p.deltaX(lonCenter, lonCenter, lat, unitDP) == 0.0)
    && (forall latCenter, unitDP :: p.deltaY(latCenter, latCenter, unitDP) == 0.0)
  }

  /** The equirectangular offset in x, with the cosine and pi supplied from outside. */
  function EquirectangularX(cos: real -> real, pi: real, lonCenter: real, lon: real, lat: real, unitDP: real): real {
    2.0 * RadiusOfEarth * pi * (lonCenter - lon) / 360.0 * cos(lat * pi / 180.0) * unitDP
  }

  /** The equirectangular offset in y. */
  function EquirectangularY(pi: real, latCenter: real, lat: real, unitDP: real): real {
    2.0 * RadiusOfEarth * pi * (latCenter - lat) / 360.0 * unitDP
  }

  /**
   * The change of origin longitude for a pan of `deltaX` dp, sign included.
   * Java divides by zero into an infinity; the model yields 0 there.
   */
  function EquirectangularLon(cos: real -> real, pi: real, deltaX: real, latCenter: real, unitDP: real): real {
    var q := RadiusOfEarth * pi * cos(latCenter * pi / 180.0) * unitDP;
    if q == 0.0 then 0.0 else deltaX * 180.0 / q * -1.0
  }

  /** The change of origin latitude for a pan of `deltaY` dp, sign included. */
  function EquirectangularLat(pi: real, deltaY: real, unitDP: real): real {
    var q := RadiusOfEarth * pi * unitDP;
    if q == 0.0 then 0.0 else deltaY * 180.0 / q * -1.0
  }

  /** The projection the view computes, with `Math.cos` and `Math.PI` as parameters. */
  function Equirectangular(cos: real -> real, pi: real): Projection {
    Projection((lonCenter, lon, lat, unitDP) => EquirectangularX(cos, pi, lonCenter, lon, lat, unitDP),
               (latCenter, lat, unitDP) => EquirectangularY(pi, latCenter, lat, unitDP),
               (deltaX, latCenter, unitDP) => EquirectangularLon(cos, pi, deltaX, latCenter, unitDP),
               (deltaY, unitDP) => EquirectangularLat(pi, deltaY, unitDP))
  }

  /** Whatever the cosine, the equirectangular offsets vanish at the origin. */
  lemma EquirectangularZeroAtOrigin(cos: real -> real, pi: real)
    ensures ZeroAtOrigin(Equirectangular(cos, pi))
  {
  }

  /**
   * A pan moves the origin so that a fix received afterwards is offset
   * from it by the pan vector more than before: exactly in y, and in x for
   * a fix on the origin's parallel. Fixes and the already shifted trail
   * therefore stay aligned. The conditions exclude the divisions by zero.
   */
  lemma PanShiftsLaterFixes(cos: real -> real, pi: real, s: Session, dx: real, dy: real, lat: real)
    requires RadiusOfEarth * pi * s.unitDP != 0.0
    ensures var p := Equirectangular(cos, pi);
      var n := Moved(s, p, dx, dy);
      p.deltaY(n.latCenter, lat, n.unitDP) == p.deltaY(s.latCenter, lat, s.unitDP) + dy
  {
    ShiftY(pi, s.unitDP, s.latCenter, lat, dy);
  }

  lemma PanShiftsLaterFixesOnParallel(cos: real -> real, pi: real, s: Session, dx: real, dy: real, lat: real, lon: real)
    requires RadiusOfEarth * pi * cos(s.latCenter * pi / 180.0) * s.unitDP != 0.0
    requires cos(lat * pi / 180.0) == cos(s.latCenter * pi / 180.0)
    ensures var p := Equirectangular(cos, pi);
      var n := Moved(s, p, dx, dy);
      p.deltaX(n.lonCenter, lon, lat, n.unitDP) == p.deltaX(s.lonCenter, lon, lat, s.unitDP) + dx
  {
    ShiftX(cos, pi, s.unitDP, s.lonCenter, s.latCenter, lon, lat, dx);
  }

  lemma ShiftY(pi: real, u: real, latCenter: real, lat: real, dy: real)
    requires RadiusOfEarth * pi * u != 0.0
    ensures EquirectangularY(pi, latCenter - EquirectangularLat(pi, dy, u), lat, u)
         == EquirectangularY(pi, latCenter, lat, u) + dy
  {
    var q := RadiusOfEarth * pi * u;
    var k := dy * 180.0 / q;
    assert EquirectangularLat(pi, dy, u) == -k;
    assert 2.0 * RadiusOfEarth * pi * k / 360.0 * u == dy by {
      assert k * q == dy * 180.0;
    }
  }

  lemma ShiftX(cos: real -> real, pi: real, u: real, lonCenter: real, latCenter: real, lon: real, lat: real, dx: real)
    requires RadiusOfEarth * pi * cos(latCenter * pi / 180.0) * u != 0.0
    requires cos(lat * pi / 180.0) == cos(latCenter * pi / 180.0)
    ensures EquirectangularX(cos, pi, lonCenter - EquirectangularLon(cos, pi, dx, latCenter, u), lon, lat, u)
         == EquirectangularX(cos, pi, lonCenter, lon, lat, u) + dx
  {
    var c := cos(latCenter * pi / 180.0);
    var q := RadiusOfEarth * pi * c * u;
    var k := dx * 180.0 / q;
    assert EquirectangularLon(cos, pi, dx, latCenter, u) == -k;
    assert 2.0 * RadiusOfEarth * pi * k / 360.0 * c * u == dx by {
      assert k * q == dx * 180.0;
    }
  }

  /** The state of one plot view. */
  datatype Session = Session(
    latCenter: real,
    lonCenter: real,
    xCenter: real,
    yCenter: real,
    unitDP: real,
    fixTrackCenter: bool,
    unitIndex: int,
    trail: seq<Point>)

  predicate Valid(s: Session) {
    ValidIndex(s.unitIndex)
  }

  predicate OriginUnset(s: Session) {
    s.lonCenter == Unset && s.latCenter == Unset
  }

  /** A fresh view: no origin, 100 dp per metre, scale index 9, free mode, empty trail. */
  function Initial(xCenter: real, yCenter: real): (s: Session)
    ensures Valid(s) && OriginUnset(s)
  {
    Session(Unset, Unset, xCenter, yCenter, InitialUnitDP, false, InitialIndex, [])
  }

  function Last(t: seq<Point>): Point
    requires |t| > 0
  {
    t[|t| - 1]
  }

  /** `PointArray.moveAll`: every point shifted by the same vector, order kept. */
  function Translate(t: seq<Point>, dx: real, dy: real): (r: seq<Point>)
    ensures |r| == |t|
  {
    if t == [] then [] else [Point(t[0].x + dx, t[0].y + dy)] + Translate(t[1..], dx, dy)
  }

  /** `PointArray.zoomAll`: every point moved to pivot + (point - pivot) * d. */
  function ScaleAbout(t: seq<Point>, d: real, px: real, py: real): (r: seq<Point>)
    ensures |r| == |t|
  {
    if t == [] then []
    else [Point(px + (t[0].x - px) * d, py + (t[0].y - py) * d)] + ScaleAbout(t[1..], d, px, py)
  }

  lemma {:induction false} TranslateAt(t: seq<Point>, dx: real, dy: real, i: int)
    requires 0 <= i < |t|
    ensures Translate(t, dx, dy)[i] == Point(t[i].x + dx, t[i].y + dy)
  {
    if i > 0 {
      TranslateAt(t[1..], dx, dy, i - 1);
    }
  }

  /** A move followed by the opposite move puts every point back. */
  lemma {:induction false} TranslateBack(t: seq<Point>, dx: real, dy: real)
    ensures Translate(Translate(t, dx, dy), -dx, -dy) == t
  {
    if t != [] {
      TranslateBack(t[1..], dx, dy);
      assert Translate(t, dx, dy)[1..] == Translate(t[1..], dx, dy);
    }
  }

  /** Every point of the trail moves away from the pivot by the factor d, and order is kept. */
  lemma {:induction false} ScaleAboutAt(t: seq<Point>, d: real, px: real, py: real, i: int)
    requires 0 <= i < |t|
    ensures ScaleAbout(t, d, px, py)[i] == Point(px + (t[i].x - px) * d, py + (t[i].y - py) * d)
  {
    if i > 0 {
      ScaleAboutAt(t[1..], d, px, py, i - 1);
    }
  }

  /** Zooming by 1 changes no point. */
  lemma {:induction false} ScaleByOne(t: seq<Point>, px: real, py: real)
    ensures ScaleAbout(t, 1.0, px, py) == t
  {
    if t != [] {
      ScaleByOne(t[1..], px, py);
    }
  }

  /** Zooming by d and then by 1/d about the same pivot puts every point back. */
  lemma {:induction false} ScaleBack(t: seq<Point>, d: real, px: real, py: real)
    requires d != 0.0
    ensures ScaleAbout(ScaleAbout(t, d, px, py), 1.0 / d, px, py) == t
  {
    if t != [] {
      ScaleBack(t[1..], d, px, py);
      var u := ScaleAbout(t, d, px, py);
      assert u[1..] == ScaleAbout(t[1..], d, px, py);
      InverseFactor(t[0].x - px, d);
      InverseFactor(t[0].y - py, d);
      assert ScaleAbout(u, 1.0 / d, px, py)[0] == t[0];
    }
  }

  lemma InverseFactor(a: real, d: real)
    requires d != 0.0
    ensures a * d * (1.0 / d) == a
  {
  }

  /**
   * A valid fix (lines 390-408): set the origin if it is unset, take the
   * planar offset of the fix from the origin, then either recentre (shift
   * the trail by minus the offset, append the view centre, make the fix the
   * origin) or append the centre plus the offset.
   */
  function AfterFix(s: Session, p: Projection, lat: real, lon: real): Session {
    var origin := if OriginUnset(s) then s.(lonCenter := lon, latCenter := lat) else s;
    var deltaX := p.deltaX(origin.lonCenter, lon, lat, s.unitDP);
    var deltaY := p.deltaY(origin.latCenter, lat, s.unitDP);
    if s.fixTrackCenter then
      origin.(trail := Translate(s.trail, -1.0 * deltaX, -1.0 * deltaY) + [Point(s.xCenter, s.yCenter)],
              lonCenter := lon, latCenter := lat)
    else
      origin.(trail := s.trail + [Point(s.xCenter + deltaX, s.yCenter + deltaY)])
  }

  /** `setPoint(message)`: only a decoded fix changes the session. */
  function AfterMessage(s: Session, p: Projection, message: string): Session {
    AfterOutcome(s, p, Decode(message))
  }

  function AfterOutcome(s: Session, p: Projection, outcome: Decoded): Session {
    match outcome
    case Fix(lat, lon) => AfterFix(s, p, lat, lon)
    case _ => s
  }

  /** `setZoom(d)`: the density is multiplied by d and the trail zoomed about the view centre. */
  function Zoomed(s: Session, d: real): Session {
    s.(unitDP := s.unitDP * d, trail := ScaleAbout(s.trail, d, s.xCenter, s.yCenter))
  }

  /** `moveAll(dx, dy)`: the trail moves, and the origin moves the opposite geodetic way. */
  function Moved(s: Session, p: Projection, dx: real, dy: real): Session {
    var deltaLon := p.deltaLon(dx, s.latCenter, s.unitDP);
    var deltaLat := p.deltaLat(dy, s.unitDP);
    s.(trail := Translate(s.trail, dx, dy),
       lonCenter := s.lonCenter - deltaLon,
       latCenter := s.latCenter - deltaLat)
  }

  /** `clear()`: the trail is emptied. */
  function Cleared(s: Session): Session {
    s.(trail := [])
  }

  /**
   * `setFixTrackCenter(flag)`: record the flag; when it is set and the trail
   * is not empty, move everything so that the latest point is at the centre.
   */
  function WithTrackCenter(s: Session, p: Projection, flag: bool): Session {
    var flagged := s.(fixTrackCenter := flag);
    if flag && |s.trail| > 0 then
      Moved(flagged, p, s.xCenter - Last(s.trail).x, s.yCenter - Last(s.trail).y)
    else
      flagged
  }

  /** `unitString()`'s effect on the session: the scale index settles. */
  function Rescaled(s: Session): Session
    requires Valid(s)
  {
    s.(unitIndex := Settle(s.unitDP, s.unitIndex))
  }

  /** Every operation keeps the scale index on the ladder. */
  lemma OperationsKeepValid(s: Session, p: Projection, message: string, d: real, dx: real, dy: real, flag: bool)
    requires Valid(s)
    ensures Valid(AfterMessage(s, p, message))
    ensures Valid(Zoomed(s, d)) && Valid(Moved(s, p, dx, dy)) && Valid(Cleared(s))
    ensures Valid(WithTrackCenter(s, p, flag)) && Valid(Rescaled(s))
  {
  }

  /**
   * A message that does not decode to a fix (no "RMC", status not "A", or
   * an exception in the decoder) leaves the session as it was.
   */
  lemma IgnoredMessage(s: Session, p: Projection, message: string)
    requires !Decode(message).Fix?
    ensures AfterMessage(s, p, message) == s
  {
  }

  /** In particular a message without "RMC", or with a status field other than "A". */
  lemma UnusableMessage(s: Session, p: Projection, message: string)
    requires !Contains(message, "RMC") || (|Split(message)| > 2 && Split(message)[2] != "A")
    ensures AfterMessage(s, p, message) == s
  {
    NotValidExactly(Split(message));
  }

  /**
   * The first fix becomes the origin and, having no offset from itself,
   * lands exactly on the view centre, in either mode.
   */
  lemma FirstFixAtCentre(s: Session, p: Projection, lat: real, lon: real)
    requires OriginUnset(s)
    requires ZeroAtOrigin(p)
    ensures var n := AfterFix(s, p, lat, lon);
      && n.latCenter == lat && n.lonCenter == lon
      && |n.trail| == |s.trail| + 1
      && Last(n.trail) == Point(s.xCenter, s.yCenter)
  {
    assert p.deltaX(lon, lon, lat, s.unitDP) == 0.0;
    assert p.deltaY(lat, lat, s.unitDP) == 0.0;
  }

  /**
   * In free mode a fix with the origin set leaves the origin alone and
   * appends the centre plus the fix's offset from that origin; nothing
   * already on the trail moves.
   */
  lemma FreeModeFix(s: Session, p: Projection, lat: real, lon: real)
    requires !OriginUnset(s) && !s.fixTrackCenter
    ensures var n := AfterFix(s, p, lat, lon);
      && n.latCenter == s.latCenter && n.lonCenter == s.lonCenter
      && n.trail[..|s.trail|] == s.trail
      && n.trail == s.trail + [Point(s.xCenter + p.deltaX(s.lonCenter, lon, lat, s.unitDP),
                                     s.yCenter + p.deltaY(s.latCenter, lat, s.unitDP))]
  {
  }

  /**
   * In centred mode a fix becomes the new origin, lands on the view
   * centre, and every earlier point moves by minus the fix's offset from
   * the previous origin.
   */
  lemma CentredModeFix(s: Session, p: Projection, lat: real, lon: real)
    requires s.fixTrackCenter
    ensures var n := AfterFix(s, p, lat, lon);
      var origin := if OriginUnset(s) then (lat, lon) else (s.latCenter, s.lonCenter);
      && n.latCenter == lat && n.lonCenter == lon
      && |n.trail| == |s.trail| + 1
      && Last(n.trail) == Point(s.xCenter, s.yCenter)
      && forall i :: 0 <= i < |s.trail| ==>
           n.trail[i] == Point(s.trail[i].x - p.deltaX(origin.1, lon, lat, s.unitDP),
                               s.trail[i].y - p.deltaY(origin.0, lat, s.unitDP))
  {
    var origin := if OriginUnset(s) then (lat, lon) else (s.latCenter, s.lonCenter);
    var dx := p.deltaX(origin.1, lon, lat, s.unitDP);
    var dy := p.deltaY(origin.0, lat, s.unitDP);
    forall i | 0 <= i < |s.trail|
      ensures Translate(s.trail, -1.0 * dx, -1.0 * dy)[i] == Point(s.trail[i].x - dx, s.trail[i].y - dy)
    {
      TranslateAt(s.trail, -1.0 * dx, -1.0 * dy, i);
    }
  }

  /** Clearing and then receiving a fix in centred mode leaves just the centre on the trail. */
  lemma ClearedCentredFix(s: Session, p: Projection, lat: real, lon: real)
    requires s.fixTrackCenter
    ensures AfterFix(Cleared(s), p, lat, lon).trail == [Point(s.xCenter, s.yCenter)]
  {
  }

  /** Turning centring on with a non-empty trail brings the latest point exactly to the centre. */
  lemma CentringBringsLatestToCentre(s: Session, p: Projection)
    requires |s.trail| > 0
    ensures var n := WithTrackCenter(s, p, true);
      && n.fixTrackCenter
      && |n.trail| == |s.trail|
      && Last(n.trail) == Point(s.xCenter, s.yCenter)
  {
    var t := s.trail;
    TranslateAt(t, s.xCenter - Last(t).x, s.yCenter - Last(t).y, |t| - 1);
  }

  /** Turning centring off changes only the flag. */
  lemma CentringOff(s: Session, p: Projection)
    ensures WithTrackCenter(s, p, false) == s.(fixTrackCenter := false)
  {
  }

  /** A pan followed by the opposite pan puts the trail back. */
  lemma PanBack(s: Session, p: Projection, dx: real, dy: real)
    ensures Moved(Moved(s, p, dx, dy), p, -dx, -dy).trail == s.trail
  {
    TranslateBack(s.trail, dx, dy);
  }

  /** Zooming by d and then by 1/d restores the density and the trail. */
  lemma ZoomBack(s: Session, d: real)
    requires d != 0.0
    ensures Zoomed(Zoomed(s, d), 1.0 / d) == s
  {
    ScaleBack(s.trail, d, s.xCenter, s.yCenter);
    assert s.unitDP * d * (1.0 / d) == s.unitDP;
  }

  /** Zooming by 1 changes nothing. */
  lemma ZoomByOne(s: Session)
    ensures Zoomed(s, 1.0) == s
  {
    ScaleByOne(s.trail, s.xCenter, s.yCenter);
  }

  /** Redrawing without zooming in between keeps the scale index where it is. */
  lemma RescaleIdempotent(s: Session)
    requires Valid(s)
    ensures Rescaled(Rescaled(s)) == Rescaled(s)
  {
    SettleIdempotent(s.unitDP, s.unitIndex);
  }

  /** After a positive zoom of a positive density, the next redraw picks a bar in range. */
  lemma ZoomThenRescale(s: Session, d: real)
    requires Valid(s) && s.unitDP > 0.0 && d > 0.0
    ensures var n := Rescaled(Zoomed(s, d));
      (n.unitIndex == 0 || Bar(n.unitDP, n.unitIndex) <= MaxBar) &&
      (n.unitIndex == Top || Bar(n.unitDP, n.unitIndex) >= MinBar)
  {
    var z := Zoomed(s, d);
    PositiveProduct(s.unitDP, d);
    SettleInRange(z.unitDP, z.unitIndex);
    assert Rescaled(z).unitIndex == Settle(z.unitDP, z.unitIndex);
  }

  lemma PositiveProduct(a: real, b: real)
    requires a > 0.0 && b > 0.0
    ensures a * b > 0.0
  {
  }

  /**
   * A fresh view that receives the sample sentence takes its fix as the
   * origin and holds one point, at the centre.
   */
  lemma FreshViewTakesExample(p: Projection, xCenter: real, yCenter: real)
    requires ZeroAtOrigin(p)
    ensures var n := AfterMessage(Initial(xCenter, yCenter), p, Example);
      && n.latCenter == 48.0 + 7.038 / 60.0
      && n.lonCenter == -(1.0 + 131.0 / 60.0)
      && n.trail == [Point(xCenter, yCenter)]
  {
    ExampleDecoded();
    FirstFixAtCentre(Initial(xCenter, yCenter), p, 48.0 + 7.038 / 60.0, -(1.0 + 131.0 / 60.0));
  }

  /** The view itself: the fields of `PlotView` that the modelled operations touch. */
  class PlotView {
    var latCenter: real
    var lonCenter: real
    var xCenter: real
    var yCenter: real
    var unitDP: real
    var fixTrackCenter: bool
    var currentUnitLengthIndex: int
    var points: seq<Point>
    const projection: Projection

    function State(): Session
      reads this
    {
      Session(latCenter, lonCenter, xCenter, yCenter, unitDP, fixTrackCenter,
              currentUnitLengthIndex, points)
    }

    predicate Invariant()
      reads this
    {
      Valid(State())
    }

    /**
     * The view after its field initialisers and `surfaceCreated`: the
     * centre comes from the surface size, the trail is a new empty array.
     */
    constructor (xCenter: real, yCenter: real, projection: Projection)
      ensures Invariant()
      ensures State() == Initial(xCenter, yCenter)
      ensures this.projection == projection
    {
      latCenter := Unset;
      lonCenter := Unset;
      this.xCenter := xCenter;
      this.yCenter := yCenter;
      unitDP := InitialUnitDP;
      fixTrackCenter := false;
      currentUnitLengthIndex := InitialIndex;
      points := [];
      this.projection := projection;
    }

    /** `unitString()`: settle the scale index in two loops, then read its label. */
    method UnitString() returns (caption: string)
      requires Invariant()
      modifies this`currentUnitLengthIndex
      ensures Invariant()
      ensures State() == Rescaled(old(State()))
      ensures caption == Label(currentUnitLengthIndex)
    {
      ghost var start := currentUnitLengthIndex;
      while Bar(unitDP, currentUnitLengthIndex) > MaxBar && currentUnitLengthIndex > 0
        invariant ValidIndex(currentUnitLengthIndex)
        invariant ZoomUp(unitDP, currentUnitLengthIndex) == ZoomUp(unitDP, start)
        decreases currentUnitLengthIndex
      {
        currentUnitLengthIndex := currentUnitLengthIndex - 1;
      }
      ghost var top := currentUnitLengthIndex;
      while Bar(unitDP, currentUnitLengthIndex) < MinBar && currentUnitLengthIndex < Top
        invariant ValidIndex(currentUnitLengthIndex)
        invariant ZoomDown(unitDP, currentUnitLengthIndex) == ZoomDown(unitDP, top)
        invariant top == ZoomUp(unitDP, start)
        decreases Top - currentUnitLengthIndex
      {
        currentUnitLengthIndex := currentUnitLengthIndex + 1;
      }
      caption := Label(currentUnitLengthIndex);
    }

    /** `setPoint(message)`; the outcome says which way the message went. */
    method SetPoint(message: string) returns (outcome: Decoded)
      modifies this`latCenter, this`lonCenter, this`points
      ensures outcome == Decode(message)
      ensures State() == AfterMessage(old(State()), projection, message)
    {
      outcome := Decode(message);
      match outcome {
        case Fix(lat, lon) => AcceptFix(lat, lon);
        case _ =>
      }
    }

    /** The branch of `setPoint` taken for a valid fix. */
    method AcceptFix(lat: real, lon: real)
      modifies this`latCenter, this`lonCenter, this`points
      ensures State() == AfterFix(old(State()), projection, lat, lon)
    {
      if lonCenter == Unset && latCenter == Unset {
        lonCenter := lon;
        latCenter := lat;
      }
      var deltaX := projection.deltaX(lonCenter, lon, lat, unitDP);
      var deltaY := projection.deltaY(latCenter, lat, unitDP);
      if fixTrackCenter {
        points := Translate(points, -1.0 * deltaX, -1.0 * deltaY);
        points := points + [Point(xCenter, yCenter)];
        lonCenter := lon;
        latCenter := lat;
      } else {
        points := points + [Point(xCenter + deltaX, yCenter + deltaY)];
      }
    }

    /** `setZoom(d)`. */
    method SetZoom(d: real)
      modifies this`unitDP, this`points
      ensures State() == Zoomed(old(State()), d)
    {
      unitDP := unitDP * d;
      points := ScaleAbout(points, d, xCenter, yCenter);
    }

    /** `moveAll(deltaX, deltaY)`. */
    method MoveAll(deltaX: real, deltaY: real)
      modifies this`points, this`latCenter, this`lonCenter
      ensures State() == Moved(old(State()), projection, deltaX, deltaY)
    {
      points := Translate(points, deltaX, deltaY);
      var deltaLon := projection.deltaLon(deltaX, latCenter, unitDP);
      var deltaLat := projection.deltaLat(deltaY, unitDP);
      lonCenter := lonCenter - deltaLon;
      latCenter := latCenter - deltaLat;
    }

    /** `clear()`. */
    method Clear()
      modifies this`points
      ensures State() == Cleared(old(State()))
    {
      points := [];
    }

    /** `setFixTrackCenter(flag)`. */
    method SetFixTrackCenter(flag: bool)
      modifies this`fixTrackCenter, this`points, this`latCenter, this`lonCenter
      ensures State() == WithTrackCenter(old(State()), projection, flag)
    {
      fixTrackCenter := flag;
      if flag && |points| > 0 {
        var deltaX := xCenter - Last(points).x;
        var deltaY := yCenter - Last(points).y;
        MoveAll(deltaX, deltaY);
      }
    }

    /** `isFixTrackCenter()`. */
    method IsFixTrackCenter() returns (flag: bool)
      ensures flag == fixTrackCenter
    {
      flag := fixTrackCenter;
    }
  }
}
