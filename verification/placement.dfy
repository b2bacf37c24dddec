/**
 * The value-level half of the canvas's placement engine and constraint
 * validator: grid snapping, the row-major cursor, the arithmetic of relative
 * rooms and of wall-mounted doors and windows, and the accept-or-reject
 * decisions for doors and windows with their errors.
 */
module Placement {
  import opened Geometry

  const GRID_SIZE: int := 20
  const DOOR_THICKNESS: int := 20
  const WINDOW_THICKNESS: int := 10

  const NORTH: string := "North"
  const SOUTH: string := "South"
  const EAST: string := "East"
  const WEST: string := "West"

  const LEFT: string := "Left"
  const CENTER: string := "Center"
  const RIGHT: string := "Right"

  predicate IsDirection(direction: string)
  {
    direction == NORTH || direction == SOUTH || direction == EAST || direction == WEST
  }

  /** North and South walls run horizontally. */
  predicate IsHorizontalWall(direction: string)
  {
    direction == NORTH || direction == SOUTH
  }

  /** Why an operation left the plan unchanged. */
  datatype PlanError =
    | NoSelection     // an action that needs a selected room was used without one
    | InvalidInput    // a non-positive dimension or length
    | RuleViolation   // Bedroom/Bathroom door rules, window-on-door-wall, window-on-shared-wall
    | PlacementError  // unknown direction or alignment, or an item outside its wall
    | OverlapError    // the candidate intersects an existing room, door or window

  datatype Outcome = Accepted | Rejected(error: PlanError)

  /** The result of validating a door or window: where it goes, or why not. */
  datatype Decision = Accept(rect: Rect) | Reject(error: PlanError)

  // ---------------------------------------------------------------- grid

  /** snapToGrid on one coordinate: the multiple of the grid size reached by
      truncating toward zero. */
  function Snap(c: int): (s: int)
    ensures s % GRID_SIZE == 0
    ensures c >= 0 ==> 0 <= s <= c < s + GRID_SIZE
    ensures c < 0 ==> s - GRID_SIZE < c <= s <= 0
  {
    JavaDiv(c, GRID_SIZE) * GRID_SIZE
  }

  /** A point with non-negative coordinates snaps to the corner of the grid
      cell that holds it. */
  function SnapToGrid(p: Point): (s: Point)
    ensures s.x % GRID_SIZE == 0 && s.y % GRID_SIZE == 0
    ensures p.x >= 0 && p.y >= 0 ==> Contains(Rect(s.x, s.y, GRID_SIZE, GRID_SIZE), p)
  {
    Point(Snap(p.x), Snap(p.y))
  }

  /** Grid points are fixed points of snapping, so snapping twice is snapping once. */
  lemma SnapFixesGridPoints(c: int)
    requires c % GRID_SIZE == 0
    ensures Snap(c) == c
  {
  }

  lemma SnapToGridIdempotent(p: Point)
    ensures SnapToGrid(SnapToGrid(p)) == SnapToGrid(p)
  {
    SnapFixesGridPoints(Snap(p.x));
    SnapFixesGridPoints(Snap(p.y));
  }

  lemma SnapExamples()
    ensures SnapToGrid(Point(23, 39)) == Point(20, 20)
    ensures SnapToGrid(Point(19, 0)) == Point(0, 0)
    ensures SnapToGrid(Point(-30, -20)) == Point(-20, -20)
  {
  }

  // ---------------------------------------------------------------- cursor

  /** The row-major cursor after a room of the given size was placed at `cursor`:
      step right by the width, and start a new row when a room of the same width
      would no longer fit. */
  function AdvanceCursor(cursor: Point, width: int, height: int, canvasWidth: int): (n: Point)
    ensures (n == Point(cursor.x + width, cursor.y) && n.x + width <= canvasWidth) ||
            n == Point(0, cursor.y + height)
  {
    var x := cursor.x + width;
    if x + width > canvasWidth then Point(0, cursor.y + height) else Point(x, cursor.y)
  }

  /** Whatever room is placed next at the advanced cursor, it does not intersect
      the room just placed at the old cursor. */
  lemma CursorLeavesPlacedRoom(cursor: Point, width: int, height: int, canvasWidth: int, next: Rect)
    requires next.x == AdvanceCursor(cursor, width, height, canvasWidth).x
    requires next.y == AdvanceCursor(cursor, width, height, canvasWidth).y
    ensures !Intersects(Rect(cursor.x, cursor.y, width, height), next)
  {
  }

  /** Without a wrap the cursor leaves room for one more room of the same width;
      a wrap starts the next row flush left, one room height further down. */
  lemma CursorRowDiscipline(cursor: Point, width: int, height: int, canvasWidth: int)
    ensures var n := AdvanceCursor(cursor, width, height, canvasWidth);
            (n.y == cursor.y && n.x == cursor.x + width && n.x + width <= canvasWidth) ||
            (n.x == 0 && n.y == cursor.y + height && cursor.x + 2 * width > canvasWidth)
  {
  }

  // ---------------------------------------------------------------- relative rooms

  /** Where addRelativeRoom puts a width x height room next to `base`, or None
      for an unknown direction or alignment. */
  function RelativePosition(base: Rect, direction: string, alignment: string, width: int, height: int): (p: Option<Point>)
    ensures p.Some? <==> IsDirection(direction) && (alignment == LEFT || alignment == CENTER || alignment == RIGHT)
  {
    if !IsDirection(direction) then None
    else
      var x := if direction == EAST then base.x + base.width
               else if direction == WEST then base.x - width
               else base.x;
      var y := if direction == NORTH then base.y - height
               else if direction == SOUTH then base.y + base.height
               else base.y;
      var horizontal := IsHorizontalWall(direction);
      if alignment == LEFT then
        Some(if horizontal then Point(base.x, y) else Point(x, base.y))
      else if alignment == CENTER then
        Some(if horizontal then Point(base.x + JavaDiv(base.width - width, 2), y)
             else Point(x, base.y + JavaDiv(base.height - height, 2)))
      else if alignment == RIGHT then
        Some(if horizontal then Point(base.x + base.width - width, y)
             else Point(x, base.y + base.height - height))
      else None
  }

  lemma RelativePositionExample()
    ensures RelativePosition(Rect(0, 0, 100, 50), SOUTH, CENTER, 60, 40) == Some(Point(20, 50))
    ensures RelativePosition(Rect(0, 0, 100, 50), NORTH, RIGHT, 60, 40) == Some(Point(40, -40))
    ensures RelativePosition(Rect(0, 0, 100, 50), WEST, LEFT, 60, 40) == Some(Point(-60, 0))
    ensures RelativePosition(Rect(0, 0, 100, 50), "Up", CENTER, 60, 40) == None
    ensures RelativePosition(Rect(0, 0, 100, 50), EAST, "Middle", 60, 40) == None
  {
  }

  /** The four directions place the new room against the matching side of the base. */
  lemma RelativePositionAdjacent(base: Rect, direction: string, alignment: string, width: int, height: int)
    requires RelativePosition(base, direction, alignment, width, height).Some?
    ensures var p := RelativePosition(base, direction, alignment, width, height).value;
            && (direction == NORTH ==> p.y + height == base.y)
            && (direction == SOUTH ==> p.y == base.y + base.height)
            && (direction == EAST ==> p.x == base.x + base.width)
            && (direction == WEST ==> p.x + width == base.x)
  {
  }

  // ---------------------------------------------------------------- walls

  /** isExternalWall: the wall lies on the canvas boundary. */
  function IsExternalWall(room: Rect, direction: string, canvasWidth: int, canvasHeight: int): (external: bool)
    ensures external ==> IsDirection(direction)
    ensures 0 < room.x && 0 < room.y && room.x + room.width < canvasWidth && room.y + room.height < canvasHeight ==> !external
    ensures direction == NORTH ==> (external <==> room.y == 0)
    ensures direction == SOUTH ==> (external <==> room.y + room.height == canvasHeight)
    ensures direction == EAST ==> (external <==> room.x + room.width == canvasWidth)
    ensures direction == WEST ==> (external <==> room.x == 0)
  {
    if direction == NORTH then room.y == 0
    else if direction == SOUTH then room.y + room.height == canvasHeight
    else if direction == EAST then room.x + room.width == canvasWidth
    else if direction == WEST then room.x == 0
    else false
  }

  /** The test isWallShared applies to each other room: the other room's facing
      edge lies on `room`'s wall and the two spans along the wall overlap. */
  function SharesWall(room: Rect, other: Rect, direction: string): (shared: bool)
    ensures shared ==> IsDirection(direction) && !Intersects(room, other)
  {
    if direction == NORTH then
      other.y + other.height == room.y && SpansOverlap(room.x, room.x + room.width, other.x, other.x + other.width)
    else if direction == SOUTH then
      other.y == room.y + room.height && SpansOverlap(room.x, room.x + room.width, other.x, other.x + other.width)
    else if direction == EAST then
      other.x == room.x + room.width && SpansOverlap(room.y, room.y + room.height, other.y, other.y + other.height)
    else if direction == WEST then
      other.x + other.width == room.x && SpansOverlap(room.y, room.y + room.height, other.y, other.y + other.height)
    else false
  }

  /** Sharing is mutual: a's North wall is b's South wall, a's East wall is b's West wall. */
  lemma SharesWallMirror(a: Rect, b: Rect)
    ensures SharesWall(a, b, NORTH) == SharesWall(b, a, SOUTH)
    ensures SharesWall(a, b, EAST) == SharesWall(b, a, WEST)
  {
  }

  /** Rooms that share a wall touch along it and do not overlap. */
  lemma SharedWallRoomsDisjoint(a: Rect, b: Rect, direction: string)
    requires SharesWall(a, b, direction)
    ensures !Intersects(a, b)
  {
  }

  /** Rooms meeting only at a corner share no wall, and an unknown direction shares nothing. */
  lemma CornerContactIsNotSharing(room: Rect, other: Rect, direction: string)
    requires IsHorizontalWall(direction) ==> other.x + other.width == room.x || room.x + room.width == other.x
    requires !IsHorizontalWall(direction) ==> other.y + other.height == room.y || room.y + room.height == other.y
    ensures !SharesWall(room, other, direction)
  {
  }

  /** A room placed by addRelativeRoom shares the chosen wall of its base
      whenever both rooms have positive size. */
  lemma RelativeRoomSharesWallWithBase(base: Rect, direction: string, alignment: string, width: int, height: int)
    requires RelativePosition(base, direction, alignment, width, height).Some?
    requires base.width > 0 && base.height > 0 && width > 0 && height > 0
    ensures var p := RelativePosition(base, direction, alignment, width, height).value;
            SharesWall(base, Rect(p.x, p.y, width, height), direction)
  {
    var p := RelativePosition(base, direction, alignment, width, height).value;
    if alignment == CENTER {
      if IsHorizontalWall(direction) {
        var q := JavaDiv(base.width - width, 2);
        assert p.x == base.x + q;
      } else {
        var q := JavaDiv(base.height - height, 2);
        assert p.y == base.y + q;
      }
    }
  }

  /** Hence a relative room never overlaps its base room. */
  lemma RelativeRoomMissesBase(base: Rect, direction: string, alignment: string, width: int, height: int)
    requires RelativePosition(base, direction, alignment, width, height).Some?
    ensures var p := RelativePosition(base, direction, alignment, width, height).value;
            !Intersects(base, Rect(p.x, p.y, width, height))
  {
    RelativePositionAdjacent(base, direction, alignment, width, height);
  }

  // ---------------------------------------------------------------- doors and windows

  /** Where a width x height door or window is first put on `room`'s wall:
      centred along the wall; East and West items sit outside the room. */
  function WallItemOrigin(room: Rect, direction: string, width: int, height: int): (o: Option<Point>)
    ensures o.Some? <==> IsDirection(direction)
    ensures o.Some? && IsHorizontalWall(direction) ==> -1 <= 2 * (o.value.x - room.x) + width - room.width <= 1
    ensures o.Some? && !IsHorizontalWall(direction) ==> -1 <= 2 * (o.value.y - room.y) + height - room.height <= 1
    ensures o.Some? && direction == NORTH ==> o.value.y == room.y
    ensures o.Some? && direction == SOUTH ==> o.value.y == room.y + room.height
    ensures o.Some? && direction == EAST ==> o.value.x == room.x + room.width
    ensures o.Some? && direction == WEST ==> o.value.x + width == room.x
  {
    if direction == NORTH then Some(Point(room.x + JavaDiv(room.width - width, 2), room.y))
    else if direction == SOUTH then Some(Point(room.x + JavaDiv(room.width - width, 2), room.y + room.height))
    else if direction == EAST then Some(Point(room.x + room.width, room.y + JavaDiv(room.height - height, 2)))
    else if direction == WEST then Some(Point(room.x - width, room.y + JavaDiv(room.height - height, 2)))
    else None
  }

  /** isWithinWallBounds: the item's extent along its wall lies within the room's. */
  function IsWithinWallBounds(room: Rect, item: Rect, direction: string): (within: bool)
    ensures within ==> IsDirection(direction)
    ensures within && IsHorizontalWall(direction) ==> item.width <= room.width
    ensures within && !IsHorizontalWall(direction) ==> item.height <= room.height
  {
    if IsHorizontalWall(direction) then
      room.x <= item.x && item.x + item.width <= room.x + room.width
    else if direction == EAST || direction == WEST then
      room.y <= item.y && item.y + item.height <= room.y + room.height
    else false
  }

  /** The rectangle of a new door or window: `length` along the wall and
      `thickness` across it, centred on the wall, then snapped to the grid. */
  function WallItemRect(room: Rect, direction: string, length: int, thickness: int): (r: Option<Rect>)
    ensures r.Some? <==> IsDirection(direction)
    ensures r.Some? && IsHorizontalWall(direction) ==> r.value.width == length && r.value.height == thickness
    ensures r.Some? && !IsHorizontalWall(direction) ==> r.value.width == thickness && r.value.height == length
    ensures r.Some? ==> r.value.x % GRID_SIZE == 0 && r.value.y % GRID_SIZE == 0
  {
    var width := if IsHorizontalWall(direction) then length else thickness;
    var height := if IsHorizontalWall(direction) then thickness else length;
    match WallItemOrigin(room, direction, width, height)
    case None => None
    case Some(p) => Some(Rect(Snap(p.x), Snap(p.y), width, height))
  }

  /** Along its wall, a new item starts at most one grid step before the centred
      position, toward zero. */
  lemma WallItemRectNearCentre(room: Rect, direction: string, length: int, thickness: int)
    requires IsHorizontalWall(direction)
    ensures var r := WallItemRect(room, direction, length, thickness).value;
            var c := room.x + JavaDiv(room.width - length, 2);
            (c >= 0 ==> c - GRID_SIZE < r.x <= c) && (c < 0 ==> c <= r.x < c + GRID_SIZE)
  {
  }

  predicate OverlapsAny(existing: seq<Rect>, r: Rect)
  {
    exists i :: 0 <= i < |existing| && Intersects(existing[i], r)
  }

  /** Bedroom and Bathroom, compared case-insensitively. */
  predicate IsPrivateRoom(roomType: string)
  {
    EqualsIgnoreCase(roomType, "Bedroom") || EqualsIgnoreCase(roomType, "Bathroom")
  }

  /** The checks shared by doors and windows once the rule checks have
      passed: the snapped rectangle must exist, lie along the wall and miss
      every existing door and window of the room. */
  function WallPlacement(room: Rect, direction: string, length: int, thickness: int,
                         existing: seq<Rect>): (d: Decision)
    ensures d.Accept? <==>
              && WallItemRect(room, direction, length, thickness).Some?
              && var r := WallItemRect(room, direction, length, thickness).value;
                 IsWithinWallBounds(room, r, direction) && !OverlapsAny(existing, r)
    ensures d.Accept? ==> Some(d.rect) == WallItemRect(room, direction, length, thickness)
    ensures d.Reject? ==> d.error == PlacementError || d.error == OverlapError
  {
    match WallItemRect(room, direction, length, thickness)
    case None => Reject(PlacementError)
    case Some(r) =>
      if !IsWithinWallBounds(room, r, direction) then Reject(PlacementError)
      else if OverlapsAny(existing, r) then Reject(OverlapError)
      else Accept(r)
  }

  /** addDoorToRoom's checks on a non-null room, in the source's order.
      `wallShared` is the room's shared-wall test for `direction`, and `existing`
      the rectangles of the room's doors and windows. */
  function DoorDecision(room: Rect, roomType: string, direction: string, length: int,
                        canvasWidth: int, canvasHeight: int, wallShared: bool, existing: seq<Rect>): (d: Decision)
    ensures d.Accept? ==> length > 0 && IsDirection(direction)
    ensures d.Accept? && IsPrivateRoom(roomType) ==>
              wallShared && !IsExternalWall(room, direction, canvasWidth, canvasHeight)
    ensures d.Accept? ==> IsWithinWallBounds(room, d.rect, direction) && !OverlapsAny(existing, d.rect)
    ensures d.Accept? && IsHorizontalWall(direction) ==> d.rect.width == length && d.rect.height == DOOR_THICKNESS
    ensures d.Accept? && !IsHorizontalWall(direction) ==> d.rect.width == DOOR_THICKNESS && d.rect.height == length
  {
    var privateRoom := IsPrivateRoom(roomType);
    if privateRoom && IsExternalWall(room, direction, canvasWidth, canvasHeight) then Reject(RuleViolation)
    else if length <= 0 then Reject(InvalidInput)
    else if privateRoom && !wallShared then Reject(RuleViolation)
    else WallPlacement(room, direction, length, DOOR_THICKNESS, existing)
  }

  /** The conditions under which a door is accepted, stated as one conjunction. */
  predicate DoorAllowed(room: Rect, roomType: string, direction: string, length: int,
                        canvasWidth: int, canvasHeight: int, wallShared: bool, existing: seq<Rect>, r: Rect)
  {
    && length > 0
    && (IsPrivateRoom(roomType) ==> !IsExternalWall(room, direction, canvasWidth, canvasHeight) && wallShared)
    && WallItemRect(room, direction, length, DOOR_THICKNESS) == Some(r)
    && IsWithinWallBounds(room, r, direction)
    && !OverlapsAny(existing, r)
  }

  lemma DoorDecisionAcceptsExactlyAllowed(room: Rect, roomType: string, direction: string, length: int,
                                         canvasWidth: int, canvasHeight: int, wallShared: bool,
                                         existing: seq<Rect>, r: Rect)
    ensures DoorDecision(room, roomType, direction, length, canvasWidth, canvasHeight, wallShared, existing) == Accept(r)
            <==> DoorAllowed(room, roomType, direction, length, canvasWidth, canvasHeight, wallShared, existing, r)
  {
  }

  /** A Bedroom in the canvas corner cannot get a door on its West wall, whatever
      else holds: that wall is on the plan boundary. */
  lemma BedroomOnBoundaryRejectsWestDoor(length: int, canvasWidth: int, canvasHeight: int,
                                         wallShared: bool, existing: seq<Rect>)
    ensures DoorDecision(Rect(0, 0, 100, 100), "Bedroom", WEST, length, canvasWidth, canvasHeight, wallShared, existing)
            == Reject(RuleViolation)
  {
  }

  /** A Kitchen door on the North wall of (0,0,100,100) of length 40: centred
      at x = 30, snapped to 20. */
  lemma KitchenNorthDoorExample(canvasWidth: int, canvasHeight: int, wallShared: bool)
    ensures DoorDecision(Rect(0, 0, 100, 100), "Kitchen", NORTH, 40, canvasWidth, canvasHeight, wallShared, [])
            == Accept(Rect(20, 0, 40, 20))
  {
    assert AsciiUpper("Kitchen"[0]) != AsciiUpper("Bedroom"[0]);
    assert !IsPrivateRoom("Kitchen");
  }

  /** addWindowToRoom's checks on a non-null room, in the source's order.
      `doorOnWall` says whether some door of the room has this direction. */
  function WindowDecision(room: Rect, direction: string, length: int, doorOnWall: bool,
                          wallShared: bool, existing: seq<Rect>): (d: Decision)
    ensures d.Accept? ==> !doorOnWall && !wallShared && length > 0 && IsDirection(direction)
    ensures d.Accept? ==> IsWithinWallBounds(room, d.rect, direction) && !OverlapsAny(existing, d.rect)
    ensures d.Accept? && IsHorizontalWall(direction) ==> d.rect.width == length && d.rect.height == WINDOW_THICKNESS
    ensures d.Accept? && !IsHorizontalWall(direction) ==> d.rect.width == WINDOW_THICKNESS && d.rect.height == length
  {
    if doorOnWall then Reject(RuleViolation)
    else if wallShared then Reject(RuleViolation)
    else if length <= 0 then Reject(InvalidInput)
    else WallPlacement(room, direction, length, WINDOW_THICKNESS, existing)
  }

  predicate WindowAllowed(room: Rect, direction: string, length: int, doorOnWall: bool,
                          wallShared: bool, existing: seq<Rect>, r: Rect)
  {
    && !doorOnWall && !wallShared && length > 0
    && WallItemRect(room, direction, length, WINDOW_THICKNESS) == Some(r)
    && IsWithinWallBounds(room, r, direction)
    && !OverlapsAny(existing, r)
  }

  lemma WindowDecisionAcceptsExactlyAllowed(room: Rect, direction: string, length: int, doorOnWall: bool,
                                           wallShared: bool, existing: seq<Rect>, r: Rect)
    ensures WindowDecision(room, direction, length, doorOnWall, wallShared, existing) == Accept(r)
            <==> WindowAllowed(room, direction, length, doorOnWall, wallShared, existing, r)
  {
  }
}
