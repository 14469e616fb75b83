// The game layer of the path-drawing sample: the asset gate in front of the tank's
// update, the mouse gesture that draws a path into the tank's waypoint queue, and
// the glyph-cell arithmetic of the bitmap-font text renderer.

module PathDrawing {
  import opened Wrappers
  import opened Vectors
  import opened Steering

  // ---------------------------------------------------------------------------
  // Text rendering
  // ---------------------------------------------------------------------------

  /** A Java `char`: one UTF-16 code unit. */
  newtype CodeUnit = x: int | 0 <= x < 0x1_0000

  /** Width and height of one glyph on screen, in pixels. */
  const CharWidth: int := 12
  const CharHeight: int := 24

  /** The font sheet holds the 96 code units from 32 (space) up to 127, sixteen
      per row, in six rows. */
  const FirstGlyph: int := 32
  const GlyphsPerRow: int := 16
  const GlyphRows: int := 6

  /** One call of drawImage on the font texture: the destination rectangle on the
      surface, then the source rectangle in the font sheet. */
  datatype DrawImage = DrawImage(destX: real, destY: real, destWidth: int, destHeight: int,
                                 srcX: int, srcY: int, srcWidth: int, srcHeight: int)

  /** The font sheet has a glyph for this code unit. */
  predicate HasGlyph(c: CodeUnit)
  {
    FirstGlyph <= c as int < FirstGlyph + GlyphsPerRow * GlyphRows
  }

  /** The (column, row) of a code unit's cell in the font sheet. The cell lies in
      the 16 x 6 grid and determines the code unit. */
  function GlyphCell(c: CodeUnit): (cell: (int, int))
    requires HasGlyph(c)
    ensures 0 <= cell.0 < GlyphsPerRow && 0 <= cell.1 < GlyphRows
    ensures FirstGlyph + GlyphsPerRow * cell.1 + cell.0 == c as int
  {
    ((c as int - FirstGlyph) % GlyphsPerRow, (c as int - FirstGlyph) / GlyphsPerRow)
  }

  /** The drawImage call for the glyph of `c` at position `i` of the message. The
      source origin steps by CharHeight (24) per column as well as per row, while
      the glyph drawn is CharWidth (12) wide. */
  function GlyphAt(i: int, c: CodeUnit, position: Vector2): (call: DrawImage)
    requires HasGlyph(c)
    ensures call.destX == position.x + (CharWidth * i) as real && call.destY == position.y
    ensures call.destWidth == call.srcWidth == CharWidth && call.destHeight == call.srcHeight == CharHeight
    ensures call.srcX % CharHeight == 0 && call.srcY % CharHeight == 0
    ensures 0 <= call.srcX < GlyphsPerRow * CharHeight && 0 <= call.srcY < GlyphRows * CharHeight
    ensures FirstGlyph + GlyphsPerRow * (call.srcY / CharHeight) + call.srcX / CharHeight == c as int
  {
    var cell := GlyphCell(c);
    DrawImage(position.x + (CharWidth * i) as real, position.y, CharWidth, CharHeight,
              cell.0 * CharHeight, cell.1 * CharHeight, CharWidth, CharHeight)
  }

  /** The positions of the message that have a glyph, in increasing order. */
  function PrintableIndices(message: seq<CodeUnit>): (indices: seq<nat>)
    ensures forall k :: 0 <= k < |indices| ==> indices[k] < |message| && HasGlyph(message[indices[k]])
    ensures forall k, l :: 0 <= k < l < |indices| ==> indices[k] < indices[l]
    ensures forall i :: 0 <= i < |message| && HasGlyph(message[i]) ==> i in indices
  {
    if message == [] then []
    else
      var last := |message| - 1;
      PrintableIndices(message[..last]) + (if HasGlyph(message[last]) then [last] else [])
  }

  /** The drawImage calls for a message, built character by character. */
  function Glyphs(message: seq<CodeUnit>, position: Vector2): (calls: seq<DrawImage>)
    ensures |calls| <= |message|
  {
    if message == [] then []
    else
      var last := |message| - 1;
      Glyphs(message[..last], position)
        + (if HasGlyph(message[last]) then [GlyphAt(last, message[last], position)] else [])
  }

  /** One call per printable position, in order, each drawing that position's
      glyph at that position. */
  lemma {:induction false} GlyphsArePrintableCells(message: seq<CodeUnit>, position: Vector2)
    ensures var indices := PrintableIndices(message);
      var calls := Glyphs(message, position);
      && |calls| == |indices|
      && forall k :: 0 <= k < |calls| ==> calls[k] == GlyphAt(indices[k], message[indices[k]], position)
  {
    if message != [] {
      var last := |message| - 1;
      var prefix := message[..last];
      GlyphsArePrintableCells(prefix, position);
      var indices := PrintableIndices(prefix);
      forall k | 0 <= k < |indices|
        ensures message[indices[k]] == prefix[indices[k]]
      {
      }
    }
  }

  /** drawString: walks the message and emits the drawImage call of every code unit
      the font sheet has a glyph for; the others are skipped but still take up
      their position. */
  method DrawString(message: seq<CodeUnit>, position: Vector2) returns (calls: seq<DrawImage>)
    ensures calls == Glyphs(message, position)
  {
    calls := [];
    for i := 0 to |message|
      invariant calls == Glyphs(message[..i], position)
    {
      assert message[..i + 1][..i] == message[..i];
      var ascii := message[i] as int;
      if ascii >= FirstGlyph && ascii < FirstGlyph + GlyphsPerRow * GlyphRows {
        var fontColumn := (ascii - FirstGlyph) % GlyphsPerRow;
        var fontRow := (ascii - FirstGlyph) / GlyphsPerRow;
        calls := calls + [DrawImage(position.x + (CharWidth * i) as real, position.y, CharWidth, CharHeight,
                                    fontColumn * CharHeight, fontRow * CharHeight, CharWidth, CharHeight)];
      }
    }
    assert message[..|message|] == message;
  }

  // ---------------------------------------------------------------------------
  // The game
  // ---------------------------------------------------------------------------

  /** Where the tank starts and how fast it drives. */
  const StartLocation: Vector2 := Vector2(100.0, 100.0)
  const TankMoveSpeed: real := 225.0

  class PathDrawingGame {
    const tank: Tank
    var drawingWaypoints: bool
    var assetsLoaded: bool

    /** loadContent: a tank at the start location with the standard speed, an
        empty path, and the assets not yet loaded. */
    constructor ()
      ensures fresh(tank) && fresh(tank.waypoints)
      ensures tank.location == StartLocation && tank.waypoints.points == []
      ensures tank.moveSpeed == TankMoveSpeed && tank.tankTextureCenter == None
      ensures tank.rotation == 0.0 && tank.targetRotation == 0.0 && tank.recomputeTargetRotation
      ensures !assetsLoaded && !drawingWaypoints
    {
      var t := new Tank();
      t.Reset(StartLocation);
      t.SetMoveSpeed(TankMoveSpeed);
      tank := t;
      assetsLoaded := false;
      drawingWaypoints := false;
    }

    /** The asset watcher's completion callback. */
    method OnAssetsLoaded()
      modifies this
      ensures assetsLoaded && drawingWaypoints == old(drawingWaypoints)
    {
      assetsLoaded := true;
    }

    /** One game tick: the tank moves only once every asset has loaded. */
    method Update(frameRate: real, sqrt: real -> real, atan2: (real, real) -> real)
      requires assetsLoaded ==> frameRate > 0.0 && IsSqrt(sqrt)
      modifies tank, tank.waypoints
      ensures assetsLoaded ==> tank.State() == Step(old(tank.State()), tank.moveSpeed, frameRate, sqrt, atan2)
      ensures !assetsLoaded ==> tank.State() == old(tank.State())
      ensures tank.moveSpeed == old(tank.moveSpeed) && tank.tankTextureCenter == old(tank.tankTextureCenter)
    {
      if !assetsLoaded {
        return;
      }
      tank.Update(frameRate, sqrt, atan2);
    }

    /** A press on the tank starts a new path at the pressed point; a press
        elsewhere changes nothing. The source dereferences the tank's texture
        centre, so the tank texture must have loaded. */
    method OnMouseDown(x: real, y: real, button: int)
      requires tank.tankTextureCenter.Some?
      modifies this, tank.waypoints
      ensures var hit := Hits(Vector2(x, y), tank.location, tank.tankTextureCenter.value);
        && (hit ==> tank.waypoints.points == [Vector2(x, y)] && drawingWaypoints)
        && (!hit ==> tank.waypoints.points == old(tank.waypoints.points)
                     && drawingWaypoints == old(drawingWaypoints))
      ensures assetsLoaded == old(assetsLoaded)
    {
      var mousePosition := Vector2(x, y);
      var hit := tank.HitTest(mousePosition);
      if hit {
        tank.waypoints.Clear();
        drawingWaypoints := true;
        tank.waypoints.Enqueue(mousePosition);
      }
    }

    /** Releasing the button ends the path, wherever it happens. */
    method OnMouseUp(x: real, y: real, button: int)
      modifies this
      ensures !drawingWaypoints && assetsLoaded == old(assetsLoaded)
    {
      drawingWaypoints := false;
    }

    /** While a path is being drawn, every move appends its point to the path. */
    method OnMouseMove(x: real, y: real)
      modifies tank.waypoints
      ensures drawingWaypoints ==> tank.waypoints.points == old(tank.waypoints.points) + [Vector2(x, y)]
      ensures !drawingWaypoints ==> tank.waypoints.points == old(tank.waypoints.points)
    {
      if drawingWaypoints {
        tank.waypoints.Enqueue(Vector2(x, y));
      }
    }
  }

  /** A whole gesture: a press on the tank, a drag through `moves`, a release.
      The tank's path is the pressed point followed by every dragged point, in
      gesture order, and drawing has stopped. */
  method DrawPathGesture(game: PathDrawingGame, down: Vector2, moves: seq<Vector2>, up: Vector2)
    requires game.tank.tankTextureCenter.Some?
    requires Hits(down, game.tank.location, game.tank.tankTextureCenter.value)
    modifies game, game.tank.waypoints
    ensures game.tank.waypoints.points == [down] + moves
    ensures |game.tank.waypoints.points| == |moves| + 1
    ensures !game.drawingWaypoints
  {
    game.OnMouseDown(down.x, down.y, 0);
    for i := 0 to |moves|
      invariant game.drawingWaypoints
      invariant game.tank.waypoints.points == [down] + moves[..i]
    {
      game.OnMouseMove(moves[i].x, moves[i].y);
      assert moves[..i + 1] == moves[..i] + [moves[i]];
    }
    game.OnMouseUp(up.x, up.y, 0);
    assert moves[..|moves|] == moves;
  }
}
