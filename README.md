# Path-drawing tank: a Dafny model of the steering core

The ForPlay "path drawing" sample shows a tank on a field. The player presses on the
tank and drags a path, and the tank drives along it, one waypoint after another.
On every game tick the tank does one of three things:

- it stays where it is when it has no waypoint;
- it drops the head waypoint once it is within 5 pixels of it;
- otherwise it turns towards the head waypoint and drives towards it.

Turning is limited to half a turn per second. The tank always turns the short way
round, and it slows down while its heading is off.

This project models the four core classes:

- `vector2.dfy` (module `Vectors`) models `Vector2`. It is a value datatype with
  distance, squared distance, squared length, subtract, multiply, add and
  normalise.
- `waypoint_list.dfy` (module `Waypoints`) models `WaypointList`. It is a class
  whose `points` field is the FIFO queue. The methods change that field in place.
- `tank.dfy` (module `Steering`) models `Tank`. It is a class with the fields
  `update` reads and writes. `Tank.Update` mirrors the source statement by
  statement, including the two wrap loops. It is proved to implement `Step`, a pure
  function from the motion state before a tick to the state after it. The
  properties of a tick are lemmas about `Step`.
- `path_drawing_game.dfy` (module `PathDrawing`) models `PathDrawingGame`. It
  covers the asset gate in front of the tank update, the mouse gesture that fills
  the waypoint queue, and the glyph-cell arithmetic of `drawString`.
- `wrappers.dfy` holds the `Option` type. It stands for Java's `null` results.

Scalars are modelled as follows:

- Java `float` is modelled as `real`.
- `Math.PI` is the constant `3.141592653589793`.
- `Math.sqrt` and `Math.atan2` are parameters of the members that use them.
- A `sqrt` argument must satisfy `IsSqrt`: non-negative, and squaring gives back
  any non-negative argument.
- Nothing is assumed of `atan2`.

The wrap loops (`> Math.PI`, then `< -Math.PI`) leave the heading difference in the
closed range [-π, π], and both ends are kept (`Steering.HalfTurnBehindIsKept`).

`drawString` is modelled as written. The source origin of a glyph steps by
`charHeight` (24) per column, while the glyph drawn is `charWidth` (12) wide. Whether
the font sheet really has 24-pixel columns cannot be told from the code.

## Model

| member | source | states |
|---|---|---|
| Vectors.DistanceSquared | src/com/google/forplay/sample/pathdrawing/core/Vector2.java:17-21 | the squared distance is never negative |
| Vectors.DistanceSquaredSymmetric | src/com/google/forplay/sample/pathdrawing/core/Vector2.java:17-21 | the squared distance from a to b equals the one from b to a |
| Vectors.Distance | src/com/google/forplay/sample/pathdrawing/core/Vector2.java:13-15 | the distance is non-negative and its square is the squared distance |
| Vectors.LengthSquared | src/com/google/forplay/sample/pathdrawing/core/Vector2.java:23-25 | the squared length is never negative |
| Vectors.Subtract | src/com/google/forplay/sample/pathdrawing/core/Vector2.java:33-35 | no contract; properties in LengthOfDifference, SubtractThenAdd and AddThenSubtract |
| Vectors.Multiply | src/com/google/forplay/sample/pathdrawing/core/Vector2.java:37-39 | no contract; properties in MultiplyIdentityAndZero, MultiplyCommutes and LengthSquaredOfMultiple |
| Vectors.Add | src/com/google/forplay/sample/pathdrawing/core/Vector2.java:41-43 | no contract; properties in SubtractThenAdd and AddThenSubtract |
| Vectors.LengthOfDifference | src/com/google/forplay/sample/pathdrawing/core/Vector2.java:17-25 | the squared length of a - b is the squared distance between a and b |
| Vectors.SubtractThenAdd | src/com/google/forplay/sample/pathdrawing/core/Vector2.java:33-43 | b + (a - b) == a and (a + b) - b == a: subtract and add undo each other |
| Vectors.AddThenSubtract | src/com/google/forplay/sample/pathdrawing/core/Vector2.java:33-43 | (a + w) - a == w: the displacement added to a point is recovered by subtracting the point |
| Vectors.MultiplyIdentityAndZero | src/com/google/forplay/sample/pathdrawing/core/Vector2.java:37-39 | scaling by 1 changes nothing, and scaling by 0 gives the zero vector |
| Vectors.MultiplyCommutes | src/com/google/forplay/sample/pathdrawing/core/Vector2.java:37-39 | scaling by s then t equals scaling by t then s |
| Vectors.LengthSquaredOfMultiple | src/com/google/forplay/sample/pathdrawing/core/Vector2.java:37-39 | scaling by s multiplies the squared length by s*s |
| Vectors.LengthOfUnitMultiple | src/com/google/forplay/sample/pathdrawing/core/Vector2.java:37-39 | a unit vector scaled by s has squared length s*s |
| Vectors.Normalize | src/com/google/forplay/sample/pathdrawing/core/Vector2.java:27-31 | for positive squared length: the result has squared length 1, the original length is positive, and the result scaled by that length gives back the input (same direction) |
| Vectors.DistanceBelowLimit | src/com/google/forplay/sample/pathdrawing/core/Vector2.java:13-21 | for a limit >= 0: distance < limit exactly when squared distance < limit squared |
| Waypoints.WaypointList.constructor | src/com/google/forplay/sample/pathdrawing/core/WaypointList.java:6 | a new list is empty |
| Waypoints.WaypointList.Peek | src/com/google/forplay/sample/pathdrawing/core/WaypointList.java:8-13 | None exactly when the list is empty, otherwise the first element; the list is not changed |
| Waypoints.WaypointList.Clear | src/com/google/forplay/sample/pathdrawing/core/WaypointList.java:15-17 | the list is empty afterwards |
| Waypoints.WaypointList.Size | src/com/google/forplay/sample/pathdrawing/core/WaypointList.java:19-21 | the number of waypoints |
| Waypoints.WaypointList.Dequeue | src/com/google/forplay/sample/pathdrawing/core/WaypointList.java:23-25 | on a non-empty list, removes exactly the head; the rest keep their order and the size drops by one |
| Waypoints.WaypointList.Enqueue | src/com/google/forplay/sample/pathdrawing/core/WaypointList.java:27-29 | appends at the tail: earlier elements unchanged, size up by one, last element is the new one |
| Waypoints.WaypointList.GetWaypoint | src/com/google/forplay/sample/pathdrawing/core/WaypointList.java:31-33 | for 0 <= i < size, the i-th waypoint, with the list unchanged |
| Waypoints.FifoOrder | src/com/google/forplay/sample/pathdrawing/core/WaypointList.java:8-29 | after enqueue(a), enqueue(b) on an empty list, peek gives a; after one dequeue, peek gives b and one element is left |
| Steering.Abs | src/com/google/forplay/sample/pathdrawing/core/Tank.java:148 | the absolute value is non-negative and is v or -v |
| Steering.Clamp | src/com/google/forplay/sample/pathdrawing/core/Tank.java:173-181 | below a it returns a, above b (with a <= v) it returns b, and a v already in [a, b] is returned unchanged; the result lies in [a, b] when a <= b |
| Steering.MaxFrameRotation | src/com/google/forplay/sample/pathdrawing/core/Tank.java:153 | the per-tick turn limit is positive for a positive frame rate |
| Steering.MaxFrameRotationIsPiPerFrame | src/com/google/forplay/sample/pathdrawing/core/Tank.java:153 | the per-tick turn limit is PI / frameRate |
| Steering.TurnStep | src/com/google/forplay/sample/pathdrawing/core/Tank.java:152-156 | no contract; properties in TurnStepBounded, TurnIsBounded and EnRouteFullTurn |
| Steering.TurnStepBounded | src/com/google/forplay/sample/pathdrawing/core/Tank.java:152-156 | a tick turns by at most the limit, towards the target and never past it; no turn within the 0.15 tolerance; an error that fits in one tick is corrected fully, and a larger one is reduced by exactly the limit |
| Steering.VelocityMultiplier | src/com/google/forplay/sample/pathdrawing/core/Tank.java:158-164 | no contract; properties in VelocityMultiplierRange and VelocityMultiplierMonotone |
| Steering.VelocityMultiplierRange | src/com/google/forplay/sample/pathdrawing/core/Tank.java:158-164 | the speed factor lies in [0, 1]: 1 within the tolerance, 0 beyond twice it, 2 - err/0.15 in between |
| Steering.VelocityMultiplierMonotone | src/com/google/forplay/sample/pathdrawing/core/Tank.java:158-164 | a larger heading error never gives a larger speed factor |
| Steering.WrapDown | src/com/google/forplay/sample/pathdrawing/core/Tank.java:138-139 | no contract; properties in WrapDownProperties |
| Steering.WrapUp | src/com/google/forplay/sample/pathdrawing/core/Tank.java:140-141 | no contract; properties in WrapUpProperties |
| Steering.ShortestTurnTarget | src/com/google/forplay/sample/pathdrawing/core/Tank.java:138-141 | no contract; properties in ShortestTurnTargetProperties, ShortestTurnTargetKeepsNearTarget and HalfTurnBehindIsKept |
| Steering.WrapDownProperties | src/com/google/forplay/sample/pathdrawing/core/Tank.java:138-139 | the first wrap loop ends with the target at most PI ahead of the rotation, and it differs from the start by whole turns |
| Steering.WrapUpProperties | src/com/google/forplay/sample/pathdrawing/core/Tank.java:140-141 | from a target at most PI ahead, the second loop ends within [-PI, PI] of the rotation, differing by whole turns |
| Steering.ShortestTurnTargetProperties | src/com/google/forplay/sample/pathdrawing/core/Tank.java:135-141 | after both loops the target is within [-PI, PI] of the rotation and names the same direction as atan2's angle |
| Steering.ShortestTurnTargetKeepsNearTarget | src/com/google/forplay/sample/pathdrawing/core/Tank.java:138-141 | a target already within [-PI, PI] of the rotation is left unchanged |
| Steering.HalfTurnBehindIsKept | src/com/google/forplay/sample/pathdrawing/core/Tank.java:138-141 | a difference of exactly -PI is kept, so the range is closed at -PI |
| Steering.AtDestination | src/com/google/forplay/sample/pathdrawing/core/Tank.java:80-82 | no contract; properties in AtDestinationSquared and EnRouteDirectionNonZero |
| Steering.AtDestinationSquared | src/com/google/forplay/sample/pathdrawing/core/Tank.java:80-82 | the tank is at its destination exactly when the squared distance to the head is below 25 |
| Steering.EnRouteDirectionNonZero | src/com/google/forplay/sample/pathdrawing/core/Tank.java:103-124 | when the head is not reached, the vector to it has squared length at least 25, so normalising it is defined |
| Steering.DirectionTo | src/com/google/forplay/sample/pathdrawing/core/Tank.java:120-124 | the direction to an unreached waypoint is a unit vector |
| Steering.DirectionTimesDistance | src/com/google/forplay/sample/pathdrawing/core/Tank.java:120-124 | the unit direction scaled by the distance is the vector from the tank to the waypoint |
| Steering.LegTarget | src/com/google/forplay/sample/pathdrawing/core/Tank.java:127-145 | no contract; properties in EnRouteTarget and TargetKeptWhileClean |
| Steering.Advance | src/com/google/forplay/sample/pathdrawing/core/Tank.java:116-169 | no contract; properties in TurnIsBounded, EnRouteFullTurn, EnRouteMovement, EnRouteTravel, EnRouteHeadsForWaypoint, EnRouteSpeed and EnRouteTarget |
| Steering.Step | src/com/google/forplay/sample/pathdrawing/core/Tank.java:97-171 | a tick leaves the waypoints as they were or removes exactly the head |
| Steering.IdleForever | src/com/google/forplay/sample/pathdrawing/core/Tank.java:103 | with no waypoints, any number of ticks leaves location, rotation, target and flag unchanged |
| Steering.ArrivalRemovesOneWaypoint | src/com/google/forplay/sample/pathdrawing/core/Tank.java:105-114 | with the head closer than 5, a tick removes exactly that waypoint and sets the recompute flag; location, rotation and target stay unchanged |
| Steering.EnRouteTarget | src/com/google/forplay/sample/pathdrawing/core/Tank.java:126-145 | en route the waypoints are untouched and the flag ends false; after a recompute the target is within [-PI, PI] of the rotation and names the direction's bearing |
| Steering.TargetKeptWhileClean | src/com/google/forplay/sample/pathdrawing/core/Tank.java:127 | while the flag is false, a tick never changes the target heading |
| Steering.TurnIsBounded | src/com/google/forplay/sample/pathdrawing/core/Tank.java:147-156 | every tick turns by at most PI / frameRate, towards the target and not past it, and not at all within the tolerance; EnRouteFullTurn adds that a larger error turns by exactly PI / frameRate |
| Steering.EnRouteFullTurn | src/com/google/forplay/sample/pathdrawing/core/Tank.java:152-156 | en route, an error outside the tolerance and larger than one tick's limit is reduced by exactly MaxFrameRotation (PI / frameRate) |
| Steering.EnRouteMovement | src/com/google/forplay/sample/pathdrawing/core/Tank.java:166-168 | en route, the move is the unit direction to the head scaled by multiplier * moveSpeed / frameRate |
| Steering.EnRouteTravel | src/com/google/forplay/sample/pathdrawing/core/Tank.java:166-168 | en route, the squared length of the move is the square of that tick distance |
| Steering.EnRouteHeadsForWaypoint | src/com/google/forplay/sample/pathdrawing/core/Tank.java:166-168 | en route, the move is parallel to the vector to the head: scaled by the distance to the head it equals that vector scaled by the tick distance |
| Steering.EnRouteSpeed | src/com/google/forplay/sample/pathdrawing/core/Tank.java:147-164 | en route, the speed factor from the pre-turn error lies in [0, 1]; the tank stands still beyond an error of 0.3 and moves moveSpeed / frameRate within 0.15 |
| Steering.Tank.constructor | src/com/google/forplay/sample/pathdrawing/core/Tank.java:44-48 | a new tank is at the origin with an empty path, rotation 0, the recompute flag set and no texture centre |
| Steering.Tank.Reset | src/com/google/forplay/sample/pathdrawing/core/Tank.java:55-59 | sets the location, empties the waypoints, and leaves rotation, target, flag and speed alone |
| Steering.Tank.SetMoveSpeed | src/com/google/forplay/sample/pathdrawing/core/Tank.java:64-66 | sets the speed and nothing else |
| Steering.Tank.OnTextureLoaded | src/com/google/forplay/sample/pathdrawing/core/Tank.java:203-207 | once the texture is loaded, its centre is half its width and half its height |
| Steering.Tank.GetDistanceToDestination | src/com/google/forplay/sample/pathdrawing/core/Tank.java:75-77 | on a non-empty list, the distance to the head: non-negative, and its square is the squared distance |
| Steering.Tank.GetAtDestination | src/com/google/forplay/sample/pathdrawing/core/Tank.java:80-82 | true exactly when the head is closer than 5, which holds exactly when the squared distance is below 25 |
| Steering.Hits | src/com/google/forplay/sample/pathdrawing/core/Tank.java:91 | no contract; properties in HitsWithinRadius and HitsScenario |
| Steering.Tank.HitTest | src/com/google/forplay/sample/pathdrawing/core/Tank.java:87-92 | true exactly when distanceSquared(point, location) < 1.5 * lengthSquared(centre); what this means is stated by HitsWithinRadius |
| Steering.HitsWithinRadius | src/com/google/forplay/sample/pathdrawing/core/Tank.java:89-91 | the squared comparison is a distance test: a point hits exactly when its distance from the tank is below sqrt(1.5 * lengthSquared(centre)) |
| Steering.HitsScenario | src/com/google/forplay/sample/pathdrawing/core/Tank.java:87-92 | with the tank at (50, 50) and texture centre (16, 0), a press at (55, 50) hits and one at (200, 50) misses |
| Steering.Tank.Update | src/com/google/forplay/sample/pathdrawing/core/Tank.java:97-171 | the new location, rotation, target, flag and waypoints are Step of the old ones; speed and texture centre unchanged |
| PathDrawing.GlyphCell | src/com/google/forplay/sample/pathdrawing/core/PathDrawingGame.java:124-126 | for code units in [32, 128): column in [0, 16), row in [0, 6), and 32 + 16 * row + column gives back the code unit |
| PathDrawing.GlyphAt | src/com/google/forplay/sample/pathdrawing/core/PathDrawingGame.java:128-130 | glyph i is drawn 12 * i to the right of the position, 12 x 24; its source origin is a multiple of 24 inside the 16 x 6 sheet, and the code unit can be read back from it |
| PathDrawing.PrintableIndices | src/com/google/forplay/sample/pathdrawing/core/PathDrawingGame.java:120-124 | exactly the positions that have a glyph, in strictly increasing order |
| PathDrawing.Glyphs | src/com/google/forplay/sample/pathdrawing/core/PathDrawingGame.java:116-133 | at most one call per code unit; its meaning is stated by GlyphsArePrintableCells |
| PathDrawing.GlyphsArePrintableCells | src/com/google/forplay/sample/pathdrawing/core/PathDrawingGame.java:116-133 | one draw call per position with a glyph, in order, and the k-th call draws the k-th such position's glyph at that position |
| PathDrawing.DrawString | src/com/google/forplay/sample/pathdrawing/core/PathDrawingGame.java:116-133 | the loop emits exactly the draw calls specified by Glyphs |
| PathDrawing.PathDrawingGame.constructor | src/com/google/forplay/sample/pathdrawing/core/PathDrawingGame.java:40-71 | a fresh tank at (100, 100) with speed 225 and an empty path; assets not loaded; not drawing |
| PathDrawing.PathDrawingGame.OnAssetsLoaded | src/com/google/forplay/sample/pathdrawing/core/PathDrawingGame.java:61-64 | the asset watcher's completion sets assetsLoaded |
| PathDrawing.PathDrawingGame.Update | src/com/google/forplay/sample/pathdrawing/core/PathDrawingGame.java:77-84 | with the assets loaded, the tank takes one Step; before that, the tank state is unchanged |
| PathDrawing.PathDrawingGame.OnMouseDown | src/com/google/forplay/sample/pathdrawing/core/PathDrawingGame.java:161-177 | a press that hits the tank leaves the path equal to exactly that point and starts drawing; a miss changes neither the path nor the flag |
| PathDrawing.PathDrawingGame.OnMouseUp | src/com/google/forplay/sample/pathdrawing/core/PathDrawingGame.java:179-183 | a release stops drawing, wherever it happens, and does not touch the path |
| PathDrawing.PathDrawingGame.OnMouseMove | src/com/google/forplay/sample/pathdrawing/core/PathDrawingGame.java:185-193 | while drawing, a move appends its point at the tail; otherwise nothing changes |
| PathDrawing.DrawPathGesture | src/com/google/forplay/sample/pathdrawing/core/PathDrawingGame.java:161-193 | a press on the tank, k moves and a release leave a path of k + 1 points, in gesture order, with drawing stopped |

## Left out

- Float rounding: `float` and `double` arithmetic is modelled on exact reals. This covers the `float`/`double` mixing in the wrap loops and the `(float)` casts.
- `Math.sqrt` and `Math.atan2` are parameters. `sqrt` is exact on non-negative reals. Nothing is assumed of `atan2`, so the model claims nothing about where the tank ends up (no convergence).
- Steering.Tank.Update: requires `frameRate > 0`, so `frameRate <= 0` is not modelled. In Java, a rate of 0 gives an infinite elapsed time, and a negative rate gives a negative elapsed time and calls `clamp` with a > b; neither is an error there.
- PathDrawing.PathDrawingGame.Update: requires `frameRate > 0` once the assets have loaded, so `frameRate <= 0` is not modelled there either.
- Steering.Tank.GetDistanceToDestination: requires a non-empty list. The source dereferences the `null` that `peek` returns on an empty list. The same holds for `Steering.Tank.GetAtDestination`.
- Steering.Tank.HitTest: requires the texture centre to be known. The source dereferences `null` before the tank texture has loaded.
- PathDrawing.PathDrawingGame.OnMouseDown: requires the tank texture centre to be known, for the same reason. Mouse events are not gated by `assetsLoaded` in the source.
- Waypoints.WaypointList.Dequeue: requires a non-empty list. On an empty list `ArrayList.remove(0)` throws `IndexOutOfBoundsException`; the tank's only call checks the size first.
- Waypoints.WaypointList.GetWaypoint: requires `0 <= i < size`. Outside that range `ArrayList.get` throws `IndexOutOfBoundsException`.
- Vectors.Normalize: requires a positive squared length. On the zero vector Java divides 0 by 0 and produces NaN components; the tank only normalises vectors of squared length at least 25 (`Steering.EnRouteDirectionNonZero`).
- Steering.Tank.OnTextureLoaded: models only the texture callback of `loadAssets`. Requesting the image and registering it with the asset watcher are not modelled.
- PathDrawing.DrawString: does not model the 32-bit overflow of `charWidth * i` for messages longer than 178956971 code units. The `color` argument is ignored by the source and is left out.
- Rendering: `paint`, `drawGround`, `drawPath`, `drawInstructions`, `Tank.draw` and the surface calls are not modelled. `DrawString` returns the arguments of the `drawImage` calls instead of issuing them.
- Asset loading and the host: `init`, the surface layer, `updateRate`, the platform entry points and `log()` are not modelled. Logging has no effect on state.
- The pointer callbacks (`onPointerStart`, `onPointerEnd`, `onPointerDrag`) and `onMouseWheelScroll` have empty bodies and are not modelled.
- Tank fields: `direction` is written before it is read in every en-route tick, so it is a local in the model. `previousRotation` and `rotationInterpolation` are never read and are not modelled.
- Aliasing of `Vector2` objects: `Vector2` is a value. `normalize`, its only mutator, is applied only to the fresh vector returned by `subtract`.
