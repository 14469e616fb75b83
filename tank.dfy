/**
 * Model of Tank.java: the steering state machine that drives the tank along the
 * waypoint queue, one tick at a time.
 *
 * Java's `float` is modelled as `real`. `Math.PI` is the constant below;
 * `Math.sqrt` and `Math.atan2` are parameters of the members that call them
 * (`sqrt` must satisfy `IsSqrt`; nothing is assumed of `atan2`).
 *
 * `Step` is the specification of one call of `update`: the pure function from
 * the motion state before the tick to the state after it. `Tank.Update` is
 * proved to implement it, and the lemmas below state what a tick does.
 */
module Steering {
  import opened Wrappers
  import opened Vectors
  import opened Waypoints

  /** Math.PI */
  const PI: real := 3.141592653589793
  /** ANGULAR_TOLERANCE: heading error, in radians, below which the tank neither
      turns nor slows down. */
  const AngularTolerance: real := 0.15
  /** atDestinationLimit: a waypoint closer than this is reached. */
  const AtDestinationLimit: real := 5.0
  /** maxAngularVelocity: radians per second, half a turn. */
  const MaxAngularVelocity: real := PI

  function Abs(v: real): (r: real)
    ensures r >= 0.0 && (r == v || r == -v)
  {
    if v < 0.0 then -v else v
  }

  /** Limits v to [a, b]; the tank only calls it with a <= b. */
  function Clamp(v: real, a: real, b: real): (r: real)
    ensures a <= b ==> a <= r <= b
    ensures a <= v <= b ==> r == v
    ensures v < a ==> r == a
    ensures a <= v && b < v ==> r == b
    ensures r == v || r == a || r == b
  {
    if v < a then a else if v > b then b else v
  }

  /** The largest turn of one tick, maxAngularVelocity * elapsedTime. */
  function MaxFrameRotation(frameRate: real): (m: real)
    requires frameRate > 0.0
    ensures m > 0.0
  {
    ProductSign(MaxAngularVelocity, 1.0 / frameRate);
    MaxAngularVelocity * (1.0 / frameRate)
  }

  /** How much the heading changes in a tick whose heading error is delta. */
  function TurnStep(delta: real, frameRate: real): (step: real)
    requires frameRate > 0.0
  {
    if Abs(delta) > AngularTolerance then
      Clamp(delta, -MaxFrameRotation(frameRate), MaxFrameRotation(frameRate))
    else
      0.0
  }

  /** A tick turns by at most MaxFrameRotation, towards the target and never past
      it; inside the angular tolerance it does not turn, and an error that fits in
      one tick is corrected at once. */
  lemma TurnStepBounded(delta: real, frameRate: real)
    requires frameRate > 0.0
    ensures Abs(TurnStep(delta, frameRate)) <= MaxFrameRotation(frameRate)
    ensures 0.0 <= TurnStep(delta, frameRate) <= delta || delta <= TurnStep(delta, frameRate) <= 0.0
    ensures Abs(delta) <= AngularTolerance ==> TurnStep(delta, frameRate) == 0.0
    ensures AngularTolerance < Abs(delta) <= MaxFrameRotation(frameRate) ==> TurnStep(delta, frameRate) == delta
    ensures AngularTolerance < Abs(delta) && MaxFrameRotation(frameRate) < Abs(delta) ==>
              Abs(TurnStep(delta, frameRate)) == MaxFrameRotation(frameRate)
  {
  }

  /** The speed factor for a heading error of absDelta (measured before the turn). */
  function VelocityMultiplier(absDelta: real): (k: real)
  {
    if absDelta > 2.0 * AngularTolerance then
      0.0
    else if absDelta > AngularTolerance then
      2.0 - absDelta / AngularTolerance
    else
      1.0
  }

  /** The speed factor lies in [0, 1]: full speed within the tolerance, stopped
      beyond twice the tolerance, and a linear ramp in between. */
  lemma VelocityMultiplierRange(absDelta: real)
    ensures 0.0 <= VelocityMultiplier(absDelta) <= 1.0
    ensures absDelta <= AngularTolerance ==> VelocityMultiplier(absDelta) == 1.0
    ensures absDelta >= 2.0 * AngularTolerance ==> VelocityMultiplier(absDelta) == 0.0
    ensures AngularTolerance < absDelta <= 2.0 * AngularTolerance ==>
              VelocityMultiplier(absDelta) == 2.0 - absDelta / AngularTolerance
  {
  }

  /** The larger the heading error, the slower the tank. */
  lemma VelocityMultiplierMonotone(a: real, b: real)
    requires a <= b
    ensures VelocityMultiplier(b) <= VelocityMultiplier(a)
  {
  }

  /** The first wrap loop of the source: subtract whole turns until the target is
      at most PI ahead of the rotation. */
  function WrapDown(target: real, rotation: real): real
    decreases (target - rotation).Floor
  {
    if target - rotation > PI then WrapDown(target - 2.0 * PI, rotation) else target
  }

  /** The second wrap loop: add whole turns until the target is at most PI behind. */
  function WrapUp(target: real, rotation: real): real
    decreases (rotation - target).Floor
  {
    if target - rotation < -PI then WrapUp(target + 2.0 * PI, rotation) else target
  }

  /** The target heading after both wrap loops. */
  function ShortestTurnTarget(target: real, rotation: real): real
  {
    WrapUp(WrapDown(target, rotation), rotation)
  }

  /** k whole turns. */
  function Turns(k: int): real
  {
    (k as real) * 2.0 * PI
  }

  /** Two angles name the same direction: they differ by whole turns. */
  ghost predicate SameDirection(a: real, b: real)
  {
    exists k: int :: a - b == Turns(k)
  }

  lemma {:induction false} WrapDownProperties(target: real, rotation: real)
    ensures WrapDown(target, rotation) - rotation <= PI
    ensures SameDirection(WrapDown(target, rotation), target)
    decreases (target - rotation).Floor
  {
    if target - rotation > PI {
      WrapDownProperties(target - 2.0 * PI, rotation);
      var k :| WrapDown(target, rotation) - (target - 2.0 * PI) == Turns(k);
      assert WrapDown(target, rotation) - target == Turns(k - 1);
    } else {
      assert WrapDown(target, rotation) - target == Turns(0);
    }
  }

  lemma {:induction false} WrapUpProperties(target: real, rotation: real)
    requires target - rotation <= PI
    ensures -PI <= WrapUp(target, rotation) - rotation <= PI
    ensures SameDirection(WrapUp(target, rotation), target)
    decreases (rotation - target).Floor
  {
    if target - rotation < -PI {
      WrapUpProperties(target + 2.0 * PI, rotation);
      var k :| WrapUp(target, rotation) - (target + 2.0 * PI) == Turns(k);
      assert WrapUp(target, rotation) - target == Turns(k + 1);
    } else {
      assert WrapUp(target, rotation) - target == Turns(0);
    }
  }

  /** The wrap loops always leave the target within half a turn of the rotation
      (so the tank turns the short way) and still pointing the same way. */
  lemma ShortestTurnTargetProperties(target: real, rotation: real)
    ensures -PI <= ShortestTurnTarget(target, rotation) - rotation <= PI
    ensures SameDirection(ShortestTurnTarget(target, rotation), target)
  {
    var down := WrapDown(target, rotation);
    WrapDownProperties(target, rotation);
    WrapUpProperties(down, rotation);
    var k1 :| down - target == Turns(k1);
    var k2 :| ShortestTurnTarget(target, rotation) - down == Turns(k2);
    assert ShortestTurnTarget(target, rotation) - target == Turns(k1 + k2);
  }

  /** A target already within half a turn is left alone. */
  lemma ShortestTurnTargetKeepsNearTarget(target: real, rotation: real)
    requires -PI <= target - rotation <= PI
    ensures ShortestTurnTarget(target, rotation) == target
  {
  }

  /** The wrapped difference may be exactly -PI: a target half a turn behind is
      kept as it is, so the range is closed at both ends. */
  lemma HalfTurnBehindIsKept(rotation: real)
    ensures ShortestTurnTarget(rotation - PI, rotation) - rotation == -PI
  {
    ShortestTurnTargetKeepsNearTarget(rotation - PI, rotation);
  }

  /** The state that one call of `update` reads and writes: the tank's location and
      rotation fields, the target rotation and its dirty flag, and the waypoint
      queue. */
  datatype Motion = Motion(
    location: Vector2,
    rotation: real,
    targetRotation: real,
    recomputeTargetRotation: bool,
    waypoints: seq<Vector2>)

  /** getAtDestination: the waypoint is closer than the arrival limit. */
  predicate AtDestination(location: Vector2, waypoint: Vector2, sqrt: real -> real)
    requires IsSqrt(sqrt)
  {
    Distance(location, waypoint, sqrt) < AtDestinationLimit
  }

  /** Arrival is decided without the square root: squared distance below 25. */
  lemma AtDestinationSquared(location: Vector2, waypoint: Vector2, sqrt: real -> real)
    requires IsSqrt(sqrt)
    ensures AtDestination(location, waypoint, sqrt) <==>
              DistanceSquared(location, waypoint) < AtDestinationLimit * AtDestinationLimit
  {
    DistanceBelowLimit(location, waypoint, sqrt, AtDestinationLimit);
  }

  /** A waypoint not yet reached is at least the arrival limit away, so the vector
      to it has positive length and can be normalised. */
  lemma EnRouteDirectionNonZero(location: Vector2, waypoint: Vector2, sqrt: real -> real)
    requires IsSqrt(sqrt)
    requires !AtDestination(location, waypoint, sqrt)
    ensures LengthSquared(Subtract(waypoint, location)) >= AtDestinationLimit * AtDestinationLimit
  {
    SquareAtLeast(Distance(location, waypoint, sqrt), AtDestinationLimit);
    LengthOfDifference(waypoint, location);
    DistanceSquaredSymmetric(waypoint, location);
  }

  /** The unit vector from the location to a waypoint not yet reached. */
  function DirectionTo(location: Vector2, waypoint: Vector2, sqrt: real -> real): (u: Vector2)
    requires IsSqrt(sqrt)
    requires !AtDestination(location, waypoint, sqrt)
    ensures LengthSquared(u) == 1.0
  {
    EnRouteDirectionNonZero(location, waypoint, sqrt);
    Normalize(Subtract(waypoint, location), sqrt)
  }

  /** How far the tank moves in one tick: velocityMultiplier * moveSpeed * elapsedTime. */
  function TickDistance(multiplier: real, moveSpeed: real, frameRate: real): real
    requires frameRate > 0.0
  {
    multiplier * moveSpeed * (1.0 / frameRate)
  }

  /** The target heading used by an en-route tick: recomputed from the direction
      and wrapped when the flag is set, kept otherwise. */
  function LegTarget(m: Motion, direction: Vector2, atan2: (real, real) -> real): real
  {
    if m.recomputeTargetRotation then ShortestTurnTarget(atan2(direction.y, direction.x), m.rotation)
    else m.targetRotation
  }

  /** The en-route branch of `update`: turn towards the target and move. */
  function Advance(m: Motion, moveSpeed: real, frameRate: real, sqrt: real -> real,
                   atan2: (real, real) -> real): Motion
    requires frameRate > 0.0 && IsSqrt(sqrt)
    requires |m.waypoints| > 0 && !AtDestination(m.location, m.waypoints[0], sqrt)
  {
    var direction := DirectionTo(m.location, m.waypoints[0], sqrt);
    var target := LegTarget(m, direction, atan2);
    var delta := target - m.rotation;
    Motion(Add(m.location, Multiply(direction, TickDistance(VelocityMultiplier(Abs(delta)), moveSpeed, frameRate))),
           m.rotation + TurnStep(delta, frameRate),
           target,
           false,
           m.waypoints)
  }

  /** One call of `update(frameRate)` on the motion state m. */
  function Step(m: Motion, moveSpeed: real, frameRate: real, sqrt: real -> real,
                atan2: (real, real) -> real): (next: Motion)
    requires frameRate > 0.0 && IsSqrt(sqrt)
    ensures next.waypoints == m.waypoints || (m.waypoints != [] && next.waypoints == m.waypoints[1..])
  {
    if |m.waypoints| == 0 then
      m
    else if AtDestination(m.location, m.waypoints[0], sqrt) then
      m.(waypoints := m.waypoints[1..], recomputeTargetRotation := true)
    else
      Advance(m, moveSpeed, frameRate, sqrt, atan2)
  }

  /** The tick is en route: there is a waypoint and it has not been reached. */
  predicate EnRoute(m: Motion, sqrt: real -> real)
    requires IsSqrt(sqrt)
  {
    |m.waypoints| > 0 && !AtDestination(m.location, m.waypoints[0], sqrt)
  }

  /** `n` ticks of `update` at a fixed frame rate. */
  function Run(m: Motion, n: nat, moveSpeed: real, frameRate: real, sqrt: real -> real,
               atan2: (real, real) -> real): Motion
    requires frameRate > 0.0 && IsSqrt(sqrt)
    decreases n
  {
    if n == 0 then m else Run(Step(m, moveSpeed, frameRate, sqrt, atan2), n - 1, moveSpeed, frameRate, sqrt, atan2)
  }

  /** With no waypoints the tank is idle, however many ticks pass. */
  lemma {:induction false} IdleForever(m: Motion, n: nat, moveSpeed: real, frameRate: real,
                                       sqrt: real -> real, atan2: (real, real) -> real)
    requires frameRate > 0.0 && IsSqrt(sqrt)
    requires m.waypoints == []
    ensures Run(m, n, moveSpeed, frameRate, sqrt, atan2) == m
  {
    if n > 0 {
      IdleForever(m, n - 1, moveSpeed, frameRate, sqrt, atan2);
    }
  }

  /** Arrival: when the head waypoint is within the limit, the tick removes exactly
      that waypoint, marks the target heading for recomputation, and neither moves
      nor turns the tank. */
  lemma ArrivalRemovesOneWaypoint(m: Motion, moveSpeed: real, frameRate: real,
                                  sqrt: real -> real, atan2: (real, real) -> real)
    requires frameRate > 0.0 && IsSqrt(sqrt)
    requires |m.waypoints| > 0
    requires DistanceSquared(m.location, m.waypoints[0]) < AtDestinationLimit * AtDestinationLimit
    ensures var next := Step(m, moveSpeed, frameRate, sqrt, atan2);
      && next.waypoints == m.waypoints[1..]
      && |next.waypoints| == |m.waypoints| - 1
      && next.recomputeTargetRotation
      && next.location == m.location
      && next.rotation == m.rotation
      && next.targetRotation == m.targetRotation
  {
    AtDestinationSquared(m.location, m.waypoints[0], sqrt);
  }

  /** En route, the waypoints are untouched, the target heading is fixed for the
      leg, and when it is (re)computed it lies within half a turn of the rotation
      and points at the waypoint's bearing. */
  lemma EnRouteTarget(m: Motion, moveSpeed: real, frameRate: real,
                      sqrt: real -> real, atan2: (real, real) -> real)
    requires frameRate > 0.0 && IsSqrt(sqrt)
    requires EnRoute(m, sqrt)
    ensures var next := Step(m, moveSpeed, frameRate, sqrt, atan2);
      var direction := DirectionTo(m.location, m.waypoints[0], sqrt);
      && next.waypoints == m.waypoints
      && !next.recomputeTargetRotation
      && (m.recomputeTargetRotation ==>
            -PI <= next.targetRotation - m.rotation <= PI
            && SameDirection(next.targetRotation, atan2(direction.y, direction.x)))
  {
    var direction := DirectionTo(m.location, m.waypoints[0], sqrt);
    ShortestTurnTargetProperties(atan2(direction.y, direction.x), m.rotation);
  }

  /** The target heading only changes when the flag asks for it. */
  lemma TargetKeptWhileClean(m: Motion, moveSpeed: real, frameRate: real,
                             sqrt: real -> real, atan2: (real, real) -> real)
    requires frameRate > 0.0 && IsSqrt(sqrt)
    requires !m.recomputeTargetRotation
    ensures Step(m, moveSpeed, frameRate, sqrt, atan2).targetRotation == m.targetRotation
  {
  }

  /** What an en-route tick writes, field by field. */
  lemma AdvanceFields(m: Motion, moveSpeed: real, frameRate: real,
                      sqrt: real -> real, atan2: (real, real) -> real)
    requires frameRate > 0.0 && IsSqrt(sqrt)
    requires EnRoute(m, sqrt)
    ensures var next := Step(m, moveSpeed, frameRate, sqrt, atan2);
      var direction := DirectionTo(m.location, m.waypoints[0], sqrt);
      var delta := next.targetRotation - m.rotation;
      && next.targetRotation == LegTarget(m, direction, atan2)
      && next.rotation == m.rotation + TurnStep(delta, frameRate)
      && next.location
           == Add(m.location, Multiply(direction, TickDistance(VelocityMultiplier(Abs(delta)), moveSpeed, frameRate)))
  {
    assert Step(m, moveSpeed, frameRate, sqrt, atan2) == Advance(m, moveSpeed, frameRate, sqrt, atan2);
  }

  /** The per-tick turn limit is PI / frameRate radians. */
  lemma MaxFrameRotationIsPiPerFrame(frameRate: real)
    requires frameRate > 0.0
    ensures MaxFrameRotation(frameRate) == PI / frameRate
  {
  }

  /** Every tick turns by at most MaxFrameRotation (PI / frameRate), towards the
      target heading and never past it, and not at all when the error is within
      the tolerance. */
  lemma TurnIsBounded(m: Motion, moveSpeed: real, frameRate: real,
                      sqrt: real -> real, atan2: (real, real) -> real)
    requires frameRate > 0.0 && IsSqrt(sqrt)
    ensures var next := Step(m, moveSpeed, frameRate, sqrt, atan2);
      var turn := next.rotation - m.rotation;
      var delta := next.targetRotation - m.rotation;
      && Abs(turn) <= MaxFrameRotation(frameRate)
      && (0.0 <= turn <= delta || delta <= turn <= 0.0)
      && (Abs(delta) <= AngularTolerance ==> turn == 0.0)
  {
    if EnRoute(m, sqrt) {
      AdvanceFields(m, moveSpeed, frameRate, sqrt, atan2);
      var next := Step(m, moveSpeed, frameRate, sqrt, atan2);
      TurnStepBounded(next.targetRotation - m.rotation, frameRate);
    }
  }

  /** En route, a heading error outside the tolerance and larger than one tick's
      limit is reduced by exactly that limit, PI / frameRate: the tank turns at full
      rate until the remaining error fits in one tick. */
  lemma EnRouteFullTurn(m: Motion, moveSpeed: real, frameRate: real,
                        sqrt: real -> real, atan2: (real, real) -> real)
    requires frameRate > 0.0 && IsSqrt(sqrt)
    requires EnRoute(m, sqrt)
    ensures var next := Step(m, moveSpeed, frameRate, sqrt, atan2);
      var delta := next.targetRotation - m.rotation;
      AngularTolerance < Abs(delta) && MaxFrameRotation(frameRate) < Abs(delta) ==>
        Abs(next.rotation - m.rotation) == MaxFrameRotation(frameRate)
  {
    AdvanceFields(m, moveSpeed, frameRate, sqrt, atan2);
    var next := Step(m, moveSpeed, frameRate, sqrt, atan2);
    TurnStepBounded(next.targetRotation - m.rotation, frameRate);
  }

  /** The unit vector to a waypoint, scaled by the distance to it, is the vector to
      it. */
  lemma DirectionTimesDistance(location: Vector2, waypoint: Vector2, sqrt: real -> real)
    requires IsSqrt(sqrt)
    requires !AtDestination(location, waypoint, sqrt)
    ensures Multiply(DirectionTo(location, waypoint, sqrt), Distance(location, waypoint, sqrt))
              == Subtract(waypoint, location)
  {
    LengthOfDifference(waypoint, location);
    DistanceSquaredSymmetric(waypoint, location);
  }

  /** En route, the tank moves along the unit vector towards the waypoint by the
      tick distance, multiplier * moveSpeed * elapsedTime. */
  lemma EnRouteMovement(m: Motion, moveSpeed: real, frameRate: real,
                        sqrt: real -> real, atan2: (real, real) -> real)
    requires frameRate > 0.0 && IsSqrt(sqrt)
    requires EnRoute(m, sqrt)
    ensures var next := Step(m, moveSpeed, frameRate, sqrt, atan2);
      var distance := TickDistance(VelocityMultiplier(Abs(next.targetRotation - m.rotation)), moveSpeed, frameRate);
      Subtract(next.location, m.location) == Multiply(DirectionTo(m.location, m.waypoints[0], sqrt), distance)
  {
    AdvanceFields(m, moveSpeed, frameRate, sqrt, atan2);
    var next := Step(m, moveSpeed, frameRate, sqrt, atan2);
    var direction := DirectionTo(m.location, m.waypoints[0], sqrt);
    var distance := TickDistance(VelocityMultiplier(Abs(next.targetRotation - m.rotation)), moveSpeed, frameRate);
    AddThenSubtract(m.location, Multiply(direction, distance));
  }

  /** En route, the length of the move is exactly the tick distance. */
  lemma EnRouteTravel(m: Motion, moveSpeed: real, frameRate: real,
                      sqrt: real -> real, atan2: (real, real) -> real)
    requires frameRate > 0.0 && IsSqrt(sqrt)
    requires EnRoute(m, sqrt)
    ensures var next := Step(m, moveSpeed, frameRate, sqrt, atan2);
      var distance := TickDistance(VelocityMultiplier(Abs(next.targetRotation - m.rotation)), moveSpeed, frameRate);
      LengthSquared(Subtract(next.location, m.location)) == Square(distance)
  {
    EnRouteMovement(m, moveSpeed, frameRate, sqrt, atan2);
    var next := Step(m, moveSpeed, frameRate, sqrt, atan2);
    var distance := TickDistance(VelocityMultiplier(Abs(next.targetRotation - m.rotation)), moveSpeed, frameRate);
    LengthOfUnitMultiple(Subtract(next.location, m.location), DirectionTo(m.location, m.waypoints[0], sqrt), distance);
  }

  /** En route, the move is parallel to the vector from the tank to the waypoint:
      scaled by the distance to the waypoint it equals that vector scaled by the
      tick distance. */
  lemma EnRouteHeadsForWaypoint(m: Motion, moveSpeed: real, frameRate: real,
                                sqrt: real -> real, atan2: (real, real) -> real)
    requires frameRate > 0.0 && IsSqrt(sqrt)
    requires EnRoute(m, sqrt)
    ensures var next := Step(m, moveSpeed, frameRate, sqrt, atan2);
      var distance := TickDistance(VelocityMultiplier(Abs(next.targetRotation - m.rotation)), moveSpeed, frameRate);
      Multiply(Subtract(next.location, m.location), Distance(m.location, m.waypoints[0], sqrt))
        == Multiply(Subtract(m.waypoints[0], m.location), distance)
  {
    EnRouteMovement(m, moveSpeed, frameRate, sqrt, atan2);
    var next := Step(m, moveSpeed, frameRate, sqrt, atan2);
    var distance := TickDistance(VelocityMultiplier(Abs(next.targetRotation - m.rotation)), moveSpeed, frameRate);
    var direction := DirectionTo(m.location, m.waypoints[0], sqrt);
    DirectionTimesDistance(m.location, m.waypoints[0], sqrt);
    MultiplyCommutes(direction, distance, Distance(m.location, m.waypoints[0], sqrt));
  }

  /** En route, the speed factor taken from the heading error before the turn lies
      in [0, 1], and the tank stands still while that error exceeds twice the
      tolerance. */
  lemma EnRouteSpeed(m: Motion, moveSpeed: real, frameRate: real,
                     sqrt: real -> real, atan2: (real, real) -> real)
    requires frameRate > 0.0 && IsSqrt(sqrt)
    requires EnRoute(m, sqrt)
    ensures var next := Step(m, moveSpeed, frameRate, sqrt, atan2);
      var absDelta := Abs(next.targetRotation - m.rotation);
      && 0.0 <= VelocityMultiplier(absDelta) <= 1.0
      && (absDelta > 2.0 * AngularTolerance ==> next.location == m.location)
      && (absDelta <= AngularTolerance ==>
            TickDistance(VelocityMultiplier(absDelta), moveSpeed, frameRate) == moveSpeed / frameRate)
  {
    AdvanceFields(m, moveSpeed, frameRate, sqrt, atan2);
    var next := Step(m, moveSpeed, frameRate, sqrt, atan2);
    var absDelta := Abs(next.targetRotation - m.rotation);
    VelocityMultiplierRange(absDelta);
    var direction := DirectionTo(m.location, m.waypoints[0], sqrt);
    if absDelta > 2.0 * AngularTolerance {
      assert TickDistance(VelocityMultiplier(absDelta), moveSpeed, frameRate) == 0.0;
      MultiplyIdentityAndZero(direction);
    }
  }

  /** Hit-test of the tank: the point is within the square root of 1.5 times the
      squared half-diagonal of the tank's texture. */
  predicate Hits(point: Vector2, location: Vector2, textureCenter: Vector2)
  {
    DistanceSquared(point, location) < LengthSquared(textureCenter) * 1.5
  }

  /** The squared comparison only avoids square roots: a point hits the tank exactly
      when its distance from the tank's location is below the hit radius,
      sqrt(1.5) times the texture's half-diagonal. */
  lemma HitsWithinRadius(point: Vector2, location: Vector2, textureCenter: Vector2, sqrt: real -> real)
    requires IsSqrt(sqrt)
    ensures Hits(point, location, textureCenter) <==>
              Distance(point, location, sqrt) < sqrt(1.5 * LengthSquared(textureCenter))
  {
    DistanceBelowLimit(point, location, sqrt, sqrt(1.5 * LengthSquared(textureCenter)));
  }

  /** A tank at (50, 50) whose texture centre is (16, 0): a press 5 pixels to its
      right hits it, one 150 pixels to its right misses. */
  lemma HitsScenario()
    ensures Hits(Vector2(55.0, 50.0), Vector2(50.0, 50.0), Vector2(16.0, 0.0))
    ensures !Hits(Vector2(200.0, 50.0), Vector2(50.0, 50.0), Vector2(16.0, 0.0))
  {
  }

  /** The tank of the game. `tankTextureCenter` is None until the texture has loaded
      (the source's null); `direction`, `previousRotation` and
      `rotationInterpolation` are not kept: the first is recomputed before every
      use, the other two are never read. */
  class Tank {
    var location: Vector2
    var rotation: real
    var recomputeTargetRotation: bool
    var targetRotation: real
    var moveSpeed: real
    var tankTextureCenter: Option<Vector2>
    const waypoints: WaypointList

    /** The part of the tank's state that `update` reads and writes. */
    function State(): Motion
      reads this, waypoints
    {
      Motion(location, rotation, targetRotation, recomputeTargetRotation, waypoints.points)
    }

    constructor ()
      ensures location == Zero && rotation == 0.0 && targetRotation == 0.0
      ensures recomputeTargetRotation
      ensures moveSpeed == 0.0 && tankTextureCenter == None
      ensures fresh(waypoints) && waypoints.points == []
    {
      location := Zero;
      rotation := 0.0;
      recomputeTargetRotation := true;
      targetRotation := 0.0;
      moveSpeed := 0.0;
      tankTextureCenter := None;
      waypoints := new WaypointList();
    }

    /** Moves the tank to newLocation and forgets its path; its heading is kept. */
    method Reset(newLocation: Vector2)
      modifies this, waypoints
      ensures location == newLocation && waypoints.points == []
      ensures rotation == old(rotation) && targetRotation == old(targetRotation)
      ensures recomputeTargetRotation == old(recomputeTargetRotation)
      ensures moveSpeed == old(moveSpeed) && tankTextureCenter == old(tankTextureCenter)
    {
      location := newLocation;
      waypoints.Clear();
    }

    method SetMoveSpeed(speed: real)
      modifies this
      ensures moveSpeed == speed
      ensures location == old(location) && rotation == old(rotation) && targetRotation == old(targetRotation)
      ensures recomputeTargetRotation == old(recomputeTargetRotation)
      ensures tankTextureCenter == old(tankTextureCenter)
    {
      moveSpeed := speed;
    }

    /** The completion callback of the texture load in loadAssets: the texture's
        centre becomes known. */
    method OnTextureLoaded(width: real, height: real)
      modifies this
      ensures tankTextureCenter == Some(Vector2(width / 2.0, height / 2.0))
      ensures location == old(location) && rotation == old(rotation) && targetRotation == old(targetRotation)
      ensures recomputeTargetRotation == old(recomputeTargetRotation) && moveSpeed == old(moveSpeed)
    {
      tankTextureCenter := Some(Vector2(width / 2.0, height / 2.0));
    }

    /** Distance to the head waypoint. The source dereferences null on an empty
        list, so the list must be non-empty. */
    method GetDistanceToDestination(sqrt: real -> real) returns (d: real)
      requires IsSqrt(sqrt)
      requires waypoints.points != []
      ensures d == Distance(location, waypoints.points[0], sqrt)
      ensures d >= 0.0 && d * d == DistanceSquared(location, waypoints.points[0])
    {
      var head := waypoints.Peek();
      d := Distance(location, head.value, sqrt);
    }

    /** The head waypoint counts as reached exactly when its squared distance is
        below 25. */
    method GetAtDestination(sqrt: real -> real) returns (arrived: bool)
      requires IsSqrt(sqrt)
      requires waypoints.points != []
      ensures arrived <==> AtDestination(location, waypoints.points[0], sqrt)
      ensures arrived <==> DistanceSquared(location, waypoints.points[0]) < 25.0
    {
      var d := GetDistanceToDestination(sqrt);
      arrived := d < AtDestinationLimit;
      AtDestinationSquared(location, waypoints.points[0], sqrt);
    }

    /** The source dereferences tankTextureCenter, so the texture must have loaded. */
    method HitTest(point: Vector2) returns (hit: bool)
      requires tankTextureCenter.Some?
      ensures hit <==> Hits(point, location, tankTextureCenter.value)
    {
      hit := DistanceSquared(point, location) < LengthSquared(tankTextureCenter.value) * 1.5;
    }

    /** One tick: idle without waypoints, drop the head waypoint on arrival, and
        otherwise turn towards it and move. */
    method Update(frameRate: real, sqrt: real -> real, atan2: (real, real) -> real)
      requires frameRate > 0.0 && IsSqrt(sqrt)
      modifies this, waypoints
      ensures State() == Step(old(State()), moveSpeed, frameRate, sqrt, atan2)
      ensures moveSpeed == old(moveSpeed) && tankTextureCenter == old(tankTextureCenter)
    {
      ghost var before := State();
      var elapsedTime := 1.0 / frameRate;
      var size := waypoints.Size();
      if size > 0 {
        var arrived := GetAtDestination(sqrt);
        if arrived {
          waypoints.Dequeue();
          recomputeTargetRotation := true;
        } else {
          var head := waypoints.Peek();
          EnRouteDirectionNonZero(location, head.value, sqrt);
          var direction := Normalize(Subtract(head.value, location), sqrt);
          assert direction == DirectionTo(before.location, before.waypoints[0], sqrt);
          if recomputeTargetRotation {
            var target := atan2(direction.y, direction.x);
            ghost var bearing := target;
            while target - rotation > PI
              invariant WrapDown(target, rotation) == WrapDown(bearing, rotation)
              decreases (target - rotation).Floor
            {
              target := target - 2.0 * PI;
            }
            while target - rotation < -PI
              invariant WrapUp(target, rotation) == ShortestTurnTarget(bearing, rotation)
              decreases (rotation - target).Floor
            {
              target := target + 2.0 * PI;
            }
            targetRotation := target;
            recomputeTargetRotation := false;
          }
          assert targetRotation == LegTarget(before, direction, atan2);
          var deltaRotation := targetRotation - rotation;
          var absDeltaRotation := Abs(deltaRotation);
          if Abs(deltaRotation) > AngularTolerance {
            var maxFrameRotation := MaxAngularVelocity * elapsedTime;
            var frameRotation := Clamp(deltaRotation, -maxFrameRotation, maxFrameRotation);
            rotation := rotation + frameRotation;
          }
          assert rotation == before.rotation + TurnStep(deltaRotation, frameRate);
          var velocityMultiplier := VelocityMultiplier(absDeltaRotation);
          assert velocityMultiplier * moveSpeed * elapsedTime
            == TickDistance(VelocityMultiplier(Abs(deltaRotation)), moveSpeed, frameRate);
          location := Add(location, Multiply(direction, velocityMultiplier * moveSpeed * elapsedTime));
        }
      }
    }
  }
}
